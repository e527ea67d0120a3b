/**
 * The QML Designer's binding editor: the object behind the dialog in which a
 * property of a QML item is bound to an expression. It keeps the expected
 * type of the edited property and the name of its target, and offers as
 * binding candidates the properties of the scene's items and of the
 * project's singletons whose types fit the expected one.
 *
 * The host's document model is replaced by values: a view is the list of
 * its scene nodes with their properties, and the singletons its rewriter
 * knows, each with the properties its meta-information lists.
 */
module QmlDesigner {
  import opened Wrappers
  import opened QtStrings

  /** A property of a type's meta-information, with its type as written and simplified. */
  datatype PropertyInfo = PropertyInfo(name: string, typeName: string, simplifiedTypeName: string)

  /** A binding or variant property set on a node; dynamic ones declare their own type. */
  datatype NodeProperty = NodeProperty(name: string, isValid: bool, isDynamic: bool, dynamicTypeName: string)

  /** A node of the scene: whether it has an id, its display name and its properties. */
  datatype SceneNode = SceneNode(
    hasId: bool,
    displayName: string,
    properties: seq<PropertyInfo>,
    bindingProperties: seq<NodeProperty>,
    variantProperties: seq<NodeProperty>)

  /** A QML type the rewriter knows, with the meta-information the model finds for its name, if any. */
  datatype QmlTypeData = QmlTypeData(typeName: string, metaInfo: Option<seq<PropertyInfo>>)

  /** A view of the document: all its model nodes, and the types of its rewriter view when there is one. */
  datatype View = View(allModelNodes: seq<SceneNode>, rewriterView: Option<seq<QmlTypeData>>)

  /** A model node: invalid, or a valid node of a view. */
  datatype ModelNode = InvalidNode | ValidNode(view: View)

  /**
   * The node a property-editor value belongs to, as far as the editor reads
   * it: its id, its simplified type name, the simplified type of the edited
   * property in its meta-information, whether it is a QML object node, and
   * the type its instance reports for the edited property.
   */
  datatype EditedNode = EditedNode(
    id: string,
    simplifiedTypeName: string,
    propertyTypeName: string,
    isQmlObjectNode: bool,
    instanceType: string)

  /** A property-editor value: the property's name and its node (None when that node is invalid). */
  datatype PropertyEditorValue = PropertyEditorValue(name: string, node: Option<EditedNode>)

  /** The object a model-node backend variant holds: a QML model-node proxy, or something else. */
  datatype BackendObject = NotAProxy | Proxy(node: ModelNode)

  /** One entry of the dialog's candidate list: an item and the names of its properties on offer. */
  datatype BindingOption = BindingOption(item: string, properties: seq<string>)

  /** The part of the binding-editor dialog the editor reads and writes. */
  datatype Dialog = Dialog(
    defaultTitle: string,
    windowTitle: string,
    editorValue: string,
    bindings: seq<BindingOption>,
    bindingsType: string)

  // ---------------------------------------------------------------------
  // Type compatibility

  const VariantTypes: seq<string> := ["alias", "unknown", "variant", "var"]
  const NumericTypes: seq<string> := ["double", "real", "int"]
  const ColorTypes: seq<string> := ["QColor", "color"]

  predicate IsVariant(t: string) { t in VariantTypes }
  predicate IsNumeric(t: string) { t in NumericTypes }
  predicate IsColor(t: string) { t in ColorTypes }

  /**
   * A property of type `t` is offered for a target of type `target` of a
   * scene node: any property when the target is a variant type, otherwise
   * one of the same type, of a variant type, or numeric for a numeric target.
   */
  predicate Offered(target: string, t: string): (r: bool)
    ensures target == t ==> r
    ensures IsVariant(target) || IsVariant(t) ==> r
    ensures IsNumeric(target) && IsNumeric(t) ==> r
    ensures r && target != t && !IsVariant(target) && !IsVariant(t) ==> IsNumeric(target) && IsNumeric(t)
  {
    IsVariant(target) || target == t || IsVariant(t) || (IsNumeric(target) && IsNumeric(t))
  }

  /** For a singleton's property, colour types are compatible with each other as well. */
  predicate OfferedFromSingleton(target: string, t: string): (r: bool)
    ensures Offered(target, t) ==> r
    ensures r && !Offered(target, t) ==> IsColor(target) && IsColor(t) && target != t
  {
    Offered(target, t) || (IsColor(target) && IsColor(t))
  }

  /**
   * The two colour types are compatible with each other for a singleton's
   * property but not for a scene node's.
   */
  lemma ColorOnlyForSingletons()
    ensures !Offered("QColor", "color") && !Offered("color", "QColor")
    ensures OfferedFromSingleton("QColor", "color") && OfferedFromSingleton("color", "QColor")
  {
    assert "QColor" != "color";
    assert "QColor" !in VariantTypes && "color" !in VariantTypes;
    assert "QColor" !in NumericTypes && "color" !in NumericTypes;
    assert "QColor" in ColorTypes && "color" in ColorTypes;
  }

  // ---------------------------------------------------------------------
  // The names offered for one node or singleton

  /** The names of the meta-information properties of a node offered for `target`, in order. */
  function StaticNames(target: string, props: seq<PropertyInfo>): (r: seq<string>)
    ensures |r| <= |props|
    ensures IsVariant(target) ==> |r| == |props|
  {
    if props == [] then []
    else
      var p := props[|props| - 1];
      StaticNames(target, props[..|props| - 1]) + (if Offered(target, p.simplifiedTypeName) then [p.name] else [])
  }

  /** The names of the valid dynamic properties offered for `target`, in order. */
  function DynamicNames(target: string, props: seq<NodeProperty>): (r: seq<string>)
    ensures |r| <= |props|
    ensures (forall i :: 0 <= i < |props| ==> !props[i].isDynamic) ==> r == []
  {
    if props == [] then []
    else
      var p := props[|props| - 1];
      DynamicNames(target, props[..|props| - 1])
      + (if p.isValid && p.isDynamic && Offered(target, p.dynamicTypeName) then [p.name] else [])
  }

  /** The names of a singleton's properties offered for `target`, judged by their full type names. */
  function SingletonNames(target: string, props: seq<PropertyInfo>): (r: seq<string>)
    ensures |r| <= |props|
    ensures IsVariant(target) ==> |r| == |props|
  {
    if props == [] then []
    else
      var p := props[|props| - 1];
      SingletonNames(target, props[..|props| - 1]) + (if OfferedFromSingleton(target, p.typeName) then [p.name] else [])
  }

  /** What a scene node offers: static properties, then dynamic binding properties, then dynamic variant properties. */
  function NodeNames(target: string, node: SceneNode): seq<string>
  {
    StaticNames(target, node.properties)
    + DynamicNames(target, node.bindingProperties)
    + DynamicNames(target, node.variantProperties)
  }

  /** A name is offered exactly when some property of that name has an offered type. */
  lemma {:induction false} StaticNamesMembers(target: string, props: seq<PropertyInfo>, x: string)
    ensures x in StaticNames(target, props)
        <==> exists i :: 0 <= i < |props| && props[i].name == x && Offered(target, props[i].simplifiedTypeName)
  {
    if props != [] {
      var init := props[..|props| - 1];
      StaticNamesMembers(target, init, x);
      assert forall i :: 0 <= i < |init| ==> init[i] == props[i];
    }
  }

  /**
   * A name is offered exactly when some valid, dynamic property of that name
   * has an offered type: no static-typed binding or variant property is ever
   * offered.
   */
  lemma {:induction false} DynamicNamesMembers(target: string, props: seq<NodeProperty>, x: string)
    ensures x in DynamicNames(target, props)
        <==> exists i :: 0 <= i < |props| && props[i].name == x && props[i].isValid && props[i].isDynamic
                         && Offered(target, props[i].dynamicTypeName)
  {
    if props != [] {
      var init := props[..|props| - 1];
      DynamicNamesMembers(target, init, x);
      assert forall i :: 0 <= i < |init| ==> init[i] == props[i];
    }
  }

  /** A singleton's name is offered exactly when some property of that name has a compatible full type name. */
  lemma {:induction false} SingletonNamesMembers(target: string, props: seq<PropertyInfo>, x: string)
    ensures x in SingletonNames(target, props)
        <==> exists i :: 0 <= i < |props| && props[i].name == x && OfferedFromSingleton(target, props[i].typeName)
  {
    if props != [] {
      var init := props[..|props| - 1];
      SingletonNamesMembers(target, init, x);
      assert forall i :: 0 <= i < |init| ==> init[i] == props[i];
    }
  }

  /** The names of the properties, in order. */
  function Names(props: seq<PropertyInfo>): (r: seq<string>)
    ensures |r| == |props|
    ensures forall i :: 0 <= i < |r| ==> r[i] == props[i].name
  {
    if props == [] then []
    else
      var init := props[..|props| - 1];
      assert forall i :: 0 <= i < |init| ==> init[i] == props[i];
      Names(init) + [props[|props| - 1].name]
  }

  /** For a target of a variant type every static property is offered, in order: no type filtering. */
  lemma {:induction false} VariantTargetOffersAll(target: string, props: seq<PropertyInfo>)
    requires IsVariant(target)
    ensures StaticNames(target, props) == Names(props)
    ensures SingletonNames(target, props) == Names(props)
  {
    if props != [] {
      VariantTargetOffersAll(target, props[..|props| - 1]);
    }
  }

  // ---------------------------------------------------------------------
  // The candidate list

  /** A scene node is listed, under its display name, when it has an id and offers something. */
  function NodeOption(target: string, node: SceneNode): (r: Option<BindingOption>)
    ensures !node.hasId ==> r.None?
    ensures r.Some? ==> r.value.item == node.displayName && r.value.properties != []
  {
    var names := NodeNames(target, node);
    if names != [] && node.hasId then Some(BindingOption(node.displayName, names)) else None
  }

  /**
   * A singleton is listed, under its type name, when that name is not empty,
   * the model has meta-information for it, and it offers something.
   */
  function SingletonOption(target: string, data: QmlTypeData): (r: Option<BindingOption>)
    ensures data.typeName == [] || data.metaInfo.None? ==> r.None?
    ensures r.Some? ==> r.value.item == data.typeName && r.value.properties != []
  {
    if data.typeName == [] || data.metaInfo.None? then None
    else
      var names := SingletonNames(target, data.metaInfo.value);
      if names == [] then None else Some(BindingOption(data.typeName, names))
  }

  /** The values of the elements `f` lists, in order. */
  function Gather<T, U>(f: T -> Option<U>, xs: seq<T>): seq<U>
  {
    if xs == [] then []
    else
      var o := f(xs[|xs| - 1]);
      Gather(f, xs[..|xs| - 1]) + (if o.Some? then [o.value] else [])
  }

  /** A value is gathered exactly when some element lists it. */
  lemma {:induction false} GatherMembers<T, U>(f: T -> Option<U>, xs: seq<T>, b: U)
    ensures b in Gather(f, xs) <==> exists i :: 0 <= i < |xs| && f(xs[i]) == Some(b)
  {
    if xs != [] {
      var init := xs[..|xs| - 1];
      GatherMembers(f, init, b);
      if b in Gather(f, xs) && b !in Gather(f, init) {
        assert f(xs[|xs| - 1]) == Some(b);
      }
      assert forall i :: 0 <= i < |init| ==> init[i] == xs[i];
    }
  }

  /** The options of the listed scene nodes, in the scene's order. */
  function NodeOptions(target: string, nodes: seq<SceneNode>): seq<BindingOption>
  {
    Gather((node: SceneNode) => NodeOption(target, node), nodes)
  }

  /** The options of the listed singletons, in the rewriter's order. */
  function SingletonOptions(target: string, types: seq<QmlTypeData>): seq<BindingOption>
  {
    Gather((data: QmlTypeData) => SingletonOption(target, data), types)
  }

  /** The candidates `prepareBindings` finds in a view: the scene's nodes, then the singletons. */
  function AllBindings(target: string, view: View): seq<BindingOption>
  {
    NodeOptions(target, view.allModelNodes)
    + (if view.rewriterView.Some? then SingletonOptions(target, view.rewriterView.value) else [])
  }

  /** The options listed for the scene are exactly those of its nodes that are listed. */
  lemma NodeOptionsMembers(target: string, nodes: seq<SceneNode>, b: BindingOption)
    ensures b in NodeOptions(target, nodes) <==> exists i :: 0 <= i < |nodes| && NodeOption(target, nodes[i]) == Some(b)
  {
    GatherMembers((node: SceneNode) => NodeOption(target, node), nodes, b);
  }

  /** Every option listed for the scene is a node's that has an id and offers something. */
  lemma ListedNodesOfferSomething(target: string, nodes: seq<SceneNode>, b: BindingOption)
    requires b in NodeOptions(target, nodes)
    ensures b.properties != []
    ensures exists i :: 0 <= i < |nodes| && nodes[i].hasId && b.item == nodes[i].displayName
  {
    NodeOptionsMembers(target, nodes, b);
    var i :| 0 <= i < |nodes| && NodeOption(target, nodes[i]) == Some(b);
  }

  /** The options listed for the singletons are exactly those of the listed singletons. */
  lemma SingletonOptionsMembers(target: string, types: seq<QmlTypeData>, b: BindingOption)
    ensures b in SingletonOptions(target, types) <==> exists i :: 0 <= i < |types| && SingletonOption(target, types[i]) == Some(b)
  {
    GatherMembers((data: QmlTypeData) => SingletonOption(target, data), types, b);
  }

  /** Every option listed for a singleton offers something and is labelled by the singleton's non-empty type name. */
  lemma ListedSingletonsOfferSomething(target: string, types: seq<QmlTypeData>, b: BindingOption)
    requires b in SingletonOptions(target, types)
    ensures b.properties != [] && b.item != []
    ensures exists i :: 0 <= i < |types| && types[i].metaInfo.Some? && b.item == types[i].typeName
  {
    SingletonOptionsMembers(target, types, b);
    var i :| 0 <= i < |types| && SingletonOption(target, types[i]) == Some(b);
  }

  /** A node is listed exactly when it has an id and offers at least one property; it is labelled by its display name. */
  lemma NodeListed(target: string, node: SceneNode)
    ensures NodeOption(target, node).Some? <==> node.hasId && NodeNames(target, node) != []
    ensures NodeOption(target, node).Some? ==> NodeOption(target, node).value.item == node.displayName
  {
  }

  // ---------------------------------------------------------------------
  // Target and state names, window title

  /** The target `setStateName` makes of a state's name: its `when` condition. */
  function WhenTarget(name: string): (r: string)
    ensures EndsWith(r, ".when") && StartsWith(r, name)
    ensures |r| == |name| + 5
  {
    name + ".when"
  }

  /** `stateName()`: the target without its `.when`, or empty for any other target. */
  function StateNameOf(target: string): (r: string)
    ensures EndsWith(target, ".when") ==> r + ".when" == target
    ensures !EndsWith(target, ".when") ==> r == []
  {
    if EndsWith(target, ".when") then target[..|target| - 5] else []
  }

  /** Setting a state's name and reading it back gives that name. */
  lemma StateNameRoundTrip(name: string)
    ensures StateNameOf(WhenTarget(name)) == name
  {
    assert EndsWith(WhenTarget(name), ".when");
  }

  /** The suffix of the window title: the target (when there is one) and the expected type in brackets. */
  function TitleSuffix(target: string, typeName: string): (r: string)
    ensures StartsWith(r, " [") && EndsWith(r, typeName + "]")
    ensures target != [] ==> StartsWith(r, " [" + target + ": ")
    ensures |r| == |typeName| + 3 + (if target == [] then 0 else |target| + 2)
  {
    " [" + (if IsEmpty(target) then [] else target + ": ") + typeName + "]"
  }

  /**
   * The title keeps the dialog's default title, then shows the target and
   * the type inside brackets; the type can be read back from the title.
   */
  lemma WindowTitleParts(defaultTitle: string, target: string, typeName: string)
    ensures var title := defaultTitle + TitleSuffix(target, typeName);
            && StartsWith(title, defaultTitle + " [")
            && EndsWith(title, typeName + "]")
            && (target != [] ==> StartsWith(title, defaultTitle + " [" + target + ": "))
            && |title| == |defaultTitle| + |typeName| + 3 + (if target == [] then 0 else |target| + 2)
  {
    var title := defaultTitle + TitleSuffix(target, typeName);
    if target == [] {
      assert title == (defaultTitle + " [") + (typeName + "]");
    } else {
      assert title == (defaultTitle + " [" + target + ": ") + (typeName + "]");
      assert (defaultTitle + " [" + target + ": ")[..|defaultTitle| + 2] == defaultTitle + " [";
    }
  }

  // ---------------------------------------------------------------------
  // The collecting loops of prepareBindings

  method CollectStaticNames(target: string, props: seq<PropertyInfo>) returns (names: seq<string>)
    ensures names == StaticNames(target, props)
  {
    names := [];
    var i := 0;
    while i < |props|
      invariant 0 <= i <= |props|
      invariant names == StaticNames(target, props[..i])
    {
      assert props[..i + 1][..i] == props[..i];
      if Offered(target, props[i].simplifiedTypeName) {
        names := names + [props[i].name];
      }
      i := i + 1;
    }
    assert props[..i] == props;
  }

  method CollectDynamicNames(target: string, props: seq<NodeProperty>) returns (names: seq<string>)
    ensures names == DynamicNames(target, props)
  {
    names := [];
    var i := 0;
    while i < |props|
      invariant 0 <= i <= |props|
      invariant names == DynamicNames(target, props[..i])
    {
      assert props[..i + 1][..i] == props[..i];
      if props[i].isValid && props[i].isDynamic && Offered(target, props[i].dynamicTypeName) {
        names := names + [props[i].name];
      }
      i := i + 1;
    }
    assert props[..i] == props;
  }

  method CollectSingletonNames(target: string, props: seq<PropertyInfo>) returns (names: seq<string>)
    ensures names == SingletonNames(target, props)
  {
    names := [];
    var i := 0;
    while i < |props|
      invariant 0 <= i <= |props|
      invariant names == SingletonNames(target, props[..i])
    {
      assert props[..i + 1][..i] == props[..i];
      if OfferedFromSingleton(target, props[i].typeName) {
        names := names + [props[i].name];
      }
      i := i + 1;
    }
    assert props[..i] == props;
  }

  /** The loop over the scene's nodes. */
  method CollectNodeOptions(target: string, nodes: seq<SceneNode>) returns (bindings: seq<BindingOption>)
    ensures bindings == NodeOptions(target, nodes)
  {
    bindings := [];
    var i := 0;
    while i < |nodes|
      invariant 0 <= i <= |nodes|
      invariant bindings == NodeOptions(target, nodes[..i])
    {
      assert nodes[..i + 1][..i] == nodes[..i];
      var node := nodes[i];
      var names := CollectStaticNames(target, node.properties);
      var bound := CollectDynamicNames(target, node.bindingProperties);
      var variant := CollectDynamicNames(target, node.variantProperties);
      names := names + bound + variant;
      if names != [] && node.hasId {
        bindings := bindings + [BindingOption(node.displayName, names)];
      }
      i := i + 1;
    }
    assert nodes[..i] == nodes;
  }

  /** The loop over the rewriter's singleton types. */
  method CollectSingletonOptions(target: string, types: seq<QmlTypeData>) returns (bindings: seq<BindingOption>)
    ensures bindings == SingletonOptions(target, types)
  {
    bindings := [];
    var i := 0;
    while i < |types|
      invariant 0 <= i <= |types|
      invariant bindings == SingletonOptions(target, types[..i])
    {
      assert types[..i + 1][..i] == types[..i];
      var data := types[i];
      if data.typeName != [] && data.metaInfo.Some? {
        var names := CollectSingletonNames(target, data.metaInfo.value);
        if names != [] {
          bindings := bindings + [BindingOption(data.typeName, names)];
        }
      }
      i := i + 1;
    }
    assert types[..i] == types;
  }

  // ---------------------------------------------------------------------
  // The editor object

  class BindingEditor {
    /** `m_dialog`: the open dialog, if any. */
    var dialog: Option<Dialog>
    /** `m_backendValue`: the property-editor value last set, None while the variant is null. */
    var backendValue: Option<PropertyEditorValue>
    /** `m_modelNodeBackend`. */
    var modelNodeBackend: Option<BackendObject>
    /** `m_stateModelNode`. */
    var stateModelNode: Option<ModelNode>
    /** `m_modelNode`: the node whose view supplies the candidates. */
    var modelNode: ModelNode
    /** `m_backendValueTypeName`: the expected type. */
    var backendValueTypeName: string
    /** `m_targetName`. */
    var targetName: string

    constructor ()
      ensures dialog.None? && backendValue.None? && modelNodeBackend.None? && stateModelNode.None?
      ensures modelNode.InvalidNode? && backendValueTypeName == [] && targetName == []
    {
      dialog := None;
      backendValue := None;
      modelNodeBackend := None;
      stateModelNode := None;
      modelNode := InvalidNode;
      backendValueTypeName := [];
      targetName := [];
    }

    /** `bindingValue()`: the dialog's expression, or empty without a dialog. */
    function BindingValue(): (r: string)
      reads this
      ensures dialog.None? ==> r == []
      ensures dialog.Some? ==> r == dialog.value.editorValue
    {
      if dialog.None? then [] else dialog.value.editorValue
    }

    /** `setBindingValue`: the dialog's expression becomes the text; without a dialog nothing happens. */
    method SetBindingValue(text: string)
      modifies this`dialog
      ensures dialog.None? ==> dialog == old(dialog)
      ensures old(dialog).Some? ==> dialog == Some(old(dialog).value.(editorValue := text)) && BindingValue() == text
    {
      if dialog.Some? {
        dialog := Some(dialog.value.(editorValue := text));
      }
    }

    /**
     * `setBackendValue`: a null value is ignored. Otherwise it is kept; when
     * its node is valid the expected type becomes the property's type (the
     * instance's type for an alias or unknown property of a QML object node)
     * and the target becomes the node's id, or its type name when it has
     * none, then a dot and the property's name.
     */
    method SetBackendValue(value: Option<PropertyEditorValue>)
      modifies this`backendValue, this`backendValueTypeName, this`targetName
      ensures value.None? ==> backendValue == old(backendValue)
                              && backendValueTypeName == old(backendValueTypeName) && targetName == old(targetName)
      ensures value.Some? ==> backendValue == value
      ensures value.Some? && value.value.node.None? ==>
                backendValueTypeName == old(backendValueTypeName) && targetName == old(targetName)
      ensures value.Some? && value.value.node.Some? ==>
                var n := value.value.node.value;
                var declared := n.propertyTypeName;
                && backendValueTypeName
                   == (if (declared == "alias" || declared == "unknown") && n.isQmlObjectNode then n.instanceType else declared)
                && targetName == (if IsEmpty(n.id) then n.simplifiedTypeName else n.id) + "." + value.value.name
    {
      if value.Some? {
        backendValue := value;
        var v := value.value;
        if v.node.Some? {
          var n := v.node.value;
          backendValueTypeName := n.propertyTypeName;
          var nodeId := n.id;
          if IsEmpty(nodeId) {
            nodeId := n.simplifiedTypeName;
          }
          targetName := nodeId + "." + v.name;
          if backendValueTypeName == "alias" || backendValueTypeName == "unknown" {
            if n.isQmlObjectNode {
              backendValueTypeName := n.instanceType;
            }
          }
        }
      }
    }

    /** `setModelNodeBackend`: a null backend is ignored; a model-node proxy's node becomes the model node. */
    method SetModelNodeBackend(backend: Option<BackendObject>)
      modifies this`modelNodeBackend, this`modelNode
      ensures backend.None? ==> modelNodeBackend == old(modelNodeBackend) && modelNode == old(modelNode)
      ensures backend.Some? ==> modelNodeBackend == backend
      ensures backend.Some? && backend.value.Proxy? ==> modelNode == backend.value.node
      ensures backend.Some? && backend.value.NotAProxy? ==> modelNode == old(modelNode)
    {
      if backend.Some? {
        modelNodeBackend := backend;
        if backend.value.Proxy? {
          modelNode := backend.value.node;
        }
      }
    }

    /**
     * `setStateModelNode`: an invalid variant changes nothing; otherwise the
     * node becomes the model node, and a valid one sets the expected type to
     * `bool`, the type of a state's `when` condition.
     */
    method SetStateModelNode(node: Option<ModelNode>)
      modifies this`stateModelNode, this`modelNode, this`backendValueTypeName
      ensures node.None? ==> stateModelNode == old(stateModelNode) && modelNode == old(modelNode)
                             && backendValueTypeName == old(backendValueTypeName)
      ensures node.Some? ==> stateModelNode == node && modelNode == node.value
      ensures node.Some? && node.value.ValidNode? ==> backendValueTypeName == "bool"
      ensures node.Some? && node.value.InvalidNode? ==> backendValueTypeName == old(backendValueTypeName)
    {
      if node.Some? {
        stateModelNode := node;
        modelNode := node.value;
        if modelNode.ValidNode? {
          backendValueTypeName := "bool";
        }
      }
    }

    /** `setStateName`: the target becomes the state's `when` condition, so that `stateName()` gives the name back. */
    method SetStateName(name: string)
      modifies this`targetName
      ensures targetName == WhenTarget(name)
      ensures StateName() == name
    {
      targetName := name;
      targetName := targetName + ".when";
      StateNameRoundTrip(name);
    }

    /** `setModelNode`: only a valid node replaces the model node. */
    method SetModelNode(node: ModelNode)
      modifies this`modelNode
      ensures modelNode == if node.ValidNode? then node else old(modelNode)
    {
      if node.ValidNode? {
        modelNode := node;
      }
    }

    method SetBackendValueTypeName(typeName: string)
      modifies this`backendValueTypeName
      ensures backendValueTypeName == typeName
    {
      backendValueTypeName := typeName;
    }

    method SetTargetName(target: string)
      modifies this`targetName
      ensures targetName == target
    {
      targetName := target;
    }

    /** `stateName()`. */
    function StateName(): (r: string)
      reads this
      ensures EndsWith(targetName, ".when") ==> WhenTarget(r) == targetName
      ensures !EndsWith(targetName, ".when") ==> r == []
    {
      StateNameOf(targetName)
    }

    /**
     * `prepareBindings`: nothing without a valid model node or an expected
     * type; otherwise the candidates of the node's view, when there are any,
     * are handed with the expected type to the dialog, if one is open.
     */
    method PrepareBindings()
      modifies this`dialog
      ensures modelNode.InvalidNode? || IsEmpty(backendValueTypeName) ==> dialog == old(dialog)
      ensures modelNode.ValidNode? && !IsEmpty(backendValueTypeName) ==>
                var bindings := AllBindings(backendValueTypeName, modelNode.view);
                dialog == if bindings != [] && old(dialog).Some?
                          then Some(old(dialog).value.(bindings := bindings, bindingsType := backendValueTypeName))
                          else old(dialog)
    {
      if modelNode.InvalidNode? || IsEmpty(backendValueTypeName) {
        return;
      }
      var view := modelNode.view;
      var bindings := CollectNodeOptions(backendValueTypeName, view.allModelNodes);
      if view.rewriterView.Some? {
        var singletons := CollectSingletonOptions(backendValueTypeName, view.rewriterView.value);
        bindings := bindings + singletons;
      } else {
        assert bindings + [] == bindings;
      }
      assert bindings == AllBindings(backendValueTypeName, view);
      if bindings != [] && dialog.Some? {
        dialog := Some(dialog.value.(bindings := bindings, bindingsType := backendValueTypeName));
      }
    }

    /**
     * `updateWindowName`: with an open dialog and an expected type, the title
     * becomes the default title followed by the target and type in brackets.
     */
    method UpdateWindowName()
      modifies this`dialog
      ensures old(dialog).None? || IsEmpty(backendValueTypeName) ==> dialog == old(dialog)
      ensures old(dialog).Some? && !IsEmpty(backendValueTypeName) ==>
                dialog == Some(old(dialog).value.(windowTitle :=
                  old(dialog).value.defaultTitle + TitleSuffix(targetName, backendValueTypeName)))
    {
      if dialog.Some? && !IsEmpty(backendValueTypeName) {
        var targetString := " [" + (if IsEmpty(targetName) then [] else targetName + ": ") + backendValueTypeName + "]";
        dialog := Some(dialog.value.(windowTitle := dialog.value.defaultTitle + targetString));
      }
    }
  }
}
