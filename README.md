# Qt Creator plugin logic, modelled in Dafny

This project models the decision and translation logic of four Qt Creator
plugins:

- **IncrediBuild** (`BuildConsole` module, `buildconsole.dfy`). The BuildConsole build step maps its
  settings to the command line `BuildConsole.exe` runs. Switches are passed in a fixed order and
  most of them only when their value is set. Windows versions are normalised to BuildConsole's
  spelling.
- **ClangFormat** (`ClangFormat` module, `clangformat.dfy`). The `ClangFormatFile` class is a
  project's `.clang-format` file. It holds the current style, the file's text and a read-only
  flag. The model covers:
  - the YAML document `changeFields` writes;
  - the `# BasedOnStyle` fix-up applied before saving;
  - the read-only guard on every save;
  - both directions of the translation between a clang-format style and the IDE's C++
    code-style and tab settings, with round-trip lemmas.
- **QML Designer binding editor** (`QmlDesigner` module, `bindingeditor.dfy`). The `BindingEditor`
  class keeps the expected type and target of the edited property. `prepareBindings` offers as
  binding candidates the properties of scene nodes and singletons whose types fit.
- **Beautifier** (`Beautifier` module, `beautifier.dfy`). The plugin decides whether a saved
  document is formatted, and with which tool and editor. It also composes the texts of its
  messages.

`wrappers.dfy` holds `Option` and `Result`. `qtstrings.dfy` (module `QtStrings`) holds the QString
and std::string operations the plugins use: find, erase, remove, upper-casing, trimming and
decimal printing.

Host objects are replaced by values or parameters:
- the clang-format library is a record of functions handed to the file object;
- the file on disk is a string field;
- the ClangFormat mode, the current project, the MIME database and the command builder's flag
  are parameters;
- the QML document model is a list of nodes with their properties.

Loops of the source (`changeFields`, the loops of `prepareBindings`, the tool lookup, the
constructor that registers the tools) are methods with loop invariants. Each is proved equal to
a specification function, and the properties are proved about those functions.

## Model

| member | source | states |
|---|---|---|
| QtStrings.Find | src/plugins/clangformat/clangformatfile.cpp:126-127 | `find` gives the first index at which the pattern occurs; npos (None) means it occurs nowhere |
| QtStrings.RemoveAll | src/plugins/incredibuild/buildconsolebuildstep.cpp:28-29 | `QString::remove` never lengthens the text |
| QtStrings.RemoveAllAbsent | src/plugins/incredibuild/buildconsolebuildstep.cpp:28-29 | removing a pattern that does not occur leaves the text unchanged |
| QtStrings.RemoveAllWithoutFirstChar | src/plugins/incredibuild/buildconsolebuildstep.cpp:28-29 | a text lacking the pattern's first character is unchanged by `remove` |
| QtStrings.ToUpper | src/plugins/incredibuild/buildconsolebuildstep.cpp:30 | upper-casing keeps the length |
| QtStrings.ToUpperChars | src/plugins/incredibuild/buildconsolebuildstep.cpp:30 | after `toUpper`, no lower-case letter is left; each lower-case letter becomes its capital; every other character is kept |
| QtStrings.TrimmedSlice | src/plugins/beautifier/beautifierplugin.cpp:167 | `trimmed` is the slice of the input right after its leading white space |
| QtStrings.TrimmedCutsOnlySpace | src/plugins/beautifier/beautifierplugin.cpp:167 | what `trimmed` cuts off on either side is white space only |
| QtStrings.TrimmedEnds | src/plugins/beautifier/beautifierplugin.cpp:167 | the trimmed text neither starts nor ends with white space |
| QtStrings.TrimmedEmpty | src/plugins/beautifier/beautifierplugin.cpp:167 | `trimmed` is empty exactly for a text of white space only |
| QtStrings.TrimmedIdempotent | src/plugins/beautifier/beautifierplugin.cpp:167 | trimming twice is the same as trimming once |
| QtStrings.Decimal | src/plugins/incredibuild/buildconsolebuildstep.cpp:239 | the printed number is a non-empty string of digits, with no leading zero when positive |
| QtStrings.DecimalRoundTrip | src/plugins/incredibuild/buildconsolebuildstep.cpp:239 | reading the printed digits back gives the number |
| BuildConsole.NormalizeWinVerArgument | src/plugins/incredibuild/buildconsolebuildstep.cpp:26-31 | normalising never lengthens the version text |
| BuildConsole.NormalizedIsUpperCase | src/plugins/incredibuild/buildconsolebuildstep.cpp:26-31 | a normalised version holds no lower-case letter |
| BuildConsole.DesktopVersion | src/plugins/incredibuild/buildconsolebuildstep.cpp:26-31 | "Windows " + name becomes the name upper-cased ("Windows Vista" gives "VISTA") |
| BuildConsole.ServerVersion | src/plugins/incredibuild/buildconsolebuildstep.cpp:26-31 | "Windows Server " + year becomes the year alone ("Windows Server 2012" gives "2012") |
| BuildConsole.NormalizedSupportedVersions | src/plugins/incredibuild/buildconsolebuildstep.cpp:33-45 | each of the nine supported versions normalises to "", "7", "8", "10", "VISTA", "XP", "2003", "2008", "2012"; the first, empty option gives the empty text |
| BuildConsole.Arguments | src/plugins/incredibuild/buildconsolebuildstep.cpp:226-287 | the command line always has at least two arguments, and the first is "/Command= " followed by the command builder's full command flag |
| BuildConsole.ArgumentCount | src/plugins/incredibuild/buildconsolebuildstep.cpp:226-287 | the number of arguments is 2, plus one per condition that holds, plus two when "show agents" is set |
| BuildConsole.ScheduleLength | src/plugins/incredibuild/buildconsolebuildstep.cpp:229-245 | the command, profile, avoid-local, CPU and Windows-version appends add 2 plus one per condition that holds |
| BuildConsole.MonitorLength | src/plugins/incredibuild/buildconsolebuildstep.cpp:247-257 | the title, monitor-file, silent and log appends add one argument per condition that holds |
| BuildConsole.DisplayLength | src/plugins/incredibuild/buildconsolebuildstep.cpp:259-272 | the display appends add one per option that is set, and two for "show agents" |
| BuildConsole.ControlLength | src/plugins/incredibuild/buildconsolebuildstep.cpp:274-284 | the environment, stop-on-errors, additional-arguments and monitor appends add one per condition that holds |
| BuildConsole.ArgumentsHead | src/plugins/incredibuild/buildconsolebuildstep.cpp:229-236 | the arguments start with "/Command= " + the full command flag, then the profile when one is set, then "/AvoidLocal=ON" or "/AvoidLocal=OFF" |
| BuildConsole.MaxCpuArgument | src/plugins/incredibuild/buildconsolebuildstep.cpp:229-239 | a positive CPU limit n (at most 65536) is passed as "/MaxCPUs=n", right after the avoid-local switch |
| BuildConsole.ArgumentsTail | src/plugins/incredibuild/buildconsolebuildstep.cpp:280-284 | the arguments end with the additional arguments, passed verbatim as one argument when non-empty, then "/OpenMonitor" when set |
| BuildConsole.ShowTimeIgnored | src/plugins/incredibuild/buildconsolebuildstep.cpp:262-266 | the "show time" option is never read: changing it does not change the command line |
| BuildConsole.SwitchNameShape | src/plugins/incredibuild/buildconsolebuildstep.cpp:226-287 | the switch an argument sets is a prefix of it: the whole argument when it has no `=`, otherwise the text up to its first `=` |
| BuildConsole.ArgumentSwitches | src/plugins/incredibuild/buildconsolebuildstep.cpp:226-287 | each switch is passed once for each append whose condition holds and that writes it, plus once when the additional arguments set it |
| BuildConsole.ScheduleSwitches | src/plugins/incredibuild/buildconsolebuildstep.cpp:229-245 | the same count, over the first six appends |
| BuildConsole.MonitorSwitches | src/plugins/incredibuild/buildconsolebuildstep.cpp:247-257 | the same count, over the title, monitor-file, silent and log appends |
| BuildConsole.DisplaySwitches | src/plugins/incredibuild/buildconsolebuildstep.cpp:259-272 | the same count, over the display appends |
| BuildConsole.ControlSwitches | src/plugins/incredibuild/buildconsolebuildstep.cpp:274-284 | the same count, over the last four appends |
| BuildConsole.AlwaysPassedSwitches | src/plugins/incredibuild/buildconsolebuildstep.cpp:229-236 | "/Command=" and "/AvoidLocal=" are always passed exactly once by the step itself |
| BuildConsole.ScheduleValuesPassed | src/plugins/incredibuild/buildconsolebuildstep.cpp:233-245 | "/Profile=", "/MaxWinVer=" and "/MinWinVer=" are passed iff their setting is non-empty, "/MaxCPUs=" iff the limit is positive; each then carries its value (the profile path, the decimal limit, the normalised Windows version) |
| BuildConsole.TextValuesPassed | src/plugins/incredibuild/buildconsolebuildstep.cpp:247-257 | "/Title=", "/Mon=" and "/Log=" are passed iff their setting is non-empty, and then carry that setting's text |
| BuildConsole.LevelAndEnvironmentPassed | src/plugins/incredibuild/buildconsolebuildstep.cpp:271-275 | "/LogLevel=" and "/SetEnv=" are passed iff their setting is non-empty, and then carry that setting's text |
| BuildConsole.ShowSwitchesFollowShowAgents | src/plugins/incredibuild/buildconsolebuildstep.cpp:262-266 | both "/ShowAgent" and "/ShowTime" are passed exactly when "show agents" is set |
| BuildConsole.StartArguments | src/plugins/incredibuild/buildconsolebuildstep.cpp:227-245 | the first appends build exactly the schedule part of the arguments |
| BuildConsole.AppendMonitorArguments | src/plugins/incredibuild/buildconsolebuildstep.cpp:247-257 | the next appends extend the list by exactly the monitor part |
| BuildConsole.AppendDisplayArguments | src/plugins/incredibuild/buildconsolebuildstep.cpp:259-272 | the next appends extend the list by exactly the display part |
| BuildConsole.AppendControlArguments | src/plugins/incredibuild/buildconsolebuildstep.cpp:274-284 | the last appends extend the list by exactly the control part |
| BuildConsole.ProvideCommandLine | src/plugins/incredibuild/buildconsolebuildstep.cpp:226-287 | the program is always "BuildConsole.exe"; the arguments are the ordered list above, built from the full command flag of the "keep jobs number" option |
| ClangFormat.StyleFileText | src/plugins/clangformat/clangformatfile.cpp:121-131 | the saved text always ends in a newline and is one character longer (nothing uncommented) or one shorter (the two-character "# " removed, a newline added) than the serialisation |
| ClangFormat.StyleFileTextUncommented | src/plugins/clangformat/clangformatfile.cpp:121-131 | a serialisation without "# BasedOnStyle" is saved unchanged apart from one appended newline |
| ClangFormat.StyleFileTextUncomments | src/plugins/clangformat/clangformatfile.cpp:124-129 | at the first "# BasedOnStyle", only the two characters "# " are deleted; everything before and after is kept, the bare "BasedOnStyle" stands there, and one newline ends the text |
| ClangFormat.FieldLinesAppend | src/plugins/clangformat/clangformatfile.cpp:98-100 | the lines of two field lists are the first list's lines followed by the second's, so input order is kept |
| ClangFormat.FieldsText | src/plugins/clangformat/clangformatfile.cpp:93-103 | the document always starts with the YAML document marker line "---", and is only that line for no fields |
| ClangFormat.FieldsTextLines | src/plugins/clangformat/clangformatfile.cpp:93-103 | with single-line keys and values, the document has exactly one line per field after the "---" line |
| ClangFormat.FieldsDocument | src/plugins/clangformat/clangformatfile.cpp:95-100 | the stream loop writes "---\n" followed by "key: value\n" for each field, in order |
| ClangFormat.UnsignedNegationExact | src/plugins/clangformat/clangformatfile.cpp:187 | `-1 * IndentWidth`, computed in 32-bit unsigned arithmetic and stored in the int offset, is exactly the negated width |
| ClangFormat.TabSettingsOf | src/plugins/clangformat/clangformatfile.cpp:230-261 | the project's continuation alignment is kept, the indent and tab sizes are the style's widths, and the policy is Mixed exactly when the style uses tabs neither never nor always |
| ClangFormat.StyleWithTabSettings | src/plugins/clangformat/clangformatfile.cpp:263-283 | the widths are the settings' sizes, the tab use is never ForIndentation or AlignWithSpaces, and every other option of the style is unchanged |
| ClangFormat.TabSettingsRoundTrip | src/plugins/clangformat/clangformatfile.cpp:241-280 | tab settings written into a style and read back give the same policy, tab size and indent size; Mixed goes to ForContinuationAndIndentation and back to Mixed |
| ClangFormat.StyleThroughTabSettings | src/plugins/clangformat/clangformatfile.cpp:244-280 | a style read into tab settings and written back is unchanged iff its tab use is not ForIndentation or AlignWithSpaces |
| ClangFormat.CppSettingsOf | src/plugins/clangformat/clangformatfile.cpp:133-179 | the three settings with no clang-format option are the project's; namespace body and braces agree, the four brace flags agree, the three switch-relative flags agree; extra padding implies aligned assignments; star binding is the project's unless the style derives it while formatting, and then comes in the identifier/right and type-name/left pairs, never both |
| ClangFormat.StyleWithCppSettings | src/plugins/clangformat/clangformatfile.cpp:181-228 | the language and tab options are unchanged; the access-modifier offset is 0 or minus the indent width; namespace indentation is never Inner; braces are Whitesmiths or Custom; outside the formatting mode the pointer alignment is unchanged |
| ClangFormat.NamespaceFlagsRoundTrip | src/plugins/clangformat/clangformatfile.cpp:149-192 | after writing and reading back, the namespace body and braces flags both equal the disjunction of the two written flags |
| ClangFormat.BraceFlagsRoundTrip | src/plugins/clangformat/clangformatfile.cpp:153-198 | after writing and reading back, all four brace flags equal the disjunction of the four written ones |
| ClangFormat.CaseFlagsRoundTrip | src/plugins/clangformat/clangformatfile.cpp:158-205 | switch labels come back unchanged; the three flags relative to switch labels come back as their disjunction |
| ClangFormat.BinaryOperatorsRoundTrip | src/plugins/clangformat/clangformatfile.cpp:172-213 | extra padding goes to BOS_All and comes back; aligned assignments come back set for both BOS_All and BOS_NonAssignment |
| ClangFormat.AccessSpecifierRoundTrip | src/plugins/clangformat/clangformatfile.cpp:147-187 | "not indented" (offset -IndentWidth) comes back false; "indented" (offset 0) comes back true iff IndentWidth != 0 |
| ClangFormat.PointerBindingRoundTrip | src/plugins/clangformat/clangformatfile.cpp:164-225 | in the formatting mode, star binding comes back in pairs, and type-name/left binding wins over identifier/right binding; with no binding set, the project's flags are kept |
| ClangFormat.PointerAlignmentOnlyWhenFormatting | src/plugins/clangformat/clangformatfile.cpp:164-225 | outside the formatting mode, the pointer alignment is never written and star binding is never read |
| ClangFormat.CppSettingsRoundTrip | src/plugins/clangformat/clangformatfile.cpp:133-228 | in the formatting mode, code-style settings written into a style and read back are unchanged iff a clang-format file can express them: shared flags agree, extra padding implies aligned assignments, star binding comes in one pair, and indented access specifiers need a non-zero width |
| ClangFormat.ClangFormatFile.constructor | src/plugins/clangformat/clangformatfile.cpp:16-38 | a missing file is created with the Qt Creator style; an existing file is parsed as C++ over the default style; a file that fails to parse is overwritten with the Qt Creator style; the file starts writable |
| ClangFormat.ClangFormatFile.SetStyle | src/plugins/clangformat/clangformatfile.cpp:49-53 | the style is replaced; the file gets its serialisation unless read-only, and is untouched otherwise |
| ClangFormat.ClangFormatFile.SetIsReadOnly | src/plugins/clangformat/clangformatfile.cpp:60-63 | sets the read-only flag |
| ClangFormat.ClangFormatFile.ResetStyleToQtC | src/plugins/clangformat/clangformatfile.cpp:65-69 | the Qt Creator style is set and written, even when the file is read-only |
| ClangFormat.ClangFormatFile.SetBasedOnStyle | src/plugins/clangformat/clangformatfile.cpp:71-75 | the style becomes the one parsed from a one-field "BasedOnStyle" document over the current style, kept unchanged when that fails to parse; then the style is saved unless read-only |
| ClangFormat.ClangFormatFile.SetStyleText | src/plugins/clangformat/clangformatfile.cpp:77-86 | a text that fails to parse returns the library's message and changes neither style nor file; one that parses becomes the style, is written unchanged unless read-only, and returns "" |
| ClangFormat.ClangFormatFile.ChangeField | src/plugins/clangformat/clangformatfile.cpp:88-91 | the same as SetStyleText on the document of the one field |
| ClangFormat.ClangFormatFile.ChangeFields | src/plugins/clangformat/clangformatfile.cpp:93-103 | the same as SetStyleText on "---\n" followed by one "key: value\n" line per field |
| ClangFormat.ClangFormatFile.SaveNewFormat | src/plugins/clangformat/clangformatfile.cpp:105-111 | a read-only file is untouched; otherwise the file gets the style's saved text |
| ClangFormat.ClangFormatFile.SaveNewFormatText | src/plugins/clangformat/clangformatfile.cpp:113-119 | a read-only file is untouched; otherwise the file gets exactly the given text |
| ClangFormat.ClangFormatFile.SaveStyleToFile | src/plugins/clangformat/clangformatfile.cpp:121-131 | the file gets the library's text with the first "# BasedOnStyle" uncommented and a newline appended |
| ClangFormat.ClangFormatFile.ToCppCodeStyleSettings | src/plugins/clangformat/clangformatfile.cpp:133-179 | if the file fails to parse, the project's settings are returned unchanged; if the file holds the saved style and that reads back, the result is that style's settings over the project's |
| ClangFormat.ClangFormatFile.FromCppCodeStyleSettings | src/plugins/clangformat/clangformatfile.cpp:181-228 | the settings are written into the style (mapping given by StyleWithCppSettings), then saved unless read-only |
| ClangFormat.ClangFormatFile.ToTabSettings | src/plugins/clangformat/clangformatfile.cpp:230-261 | if the file fails to parse, the project's tab settings are returned unchanged; if the file holds the saved style and that reads back, the result is that style's tab settings |
| ClangFormat.ClangFormatFile.FromTabSettings | src/plugins/clangformat/clangformatfile.cpp:263-283 | sizes and policy are written into the style, then saved unless read-only |
| QmlDesigner.Offered | src/plugins/qmldesigner/components/bindingeditor/bindingeditor.cpp:177-195 | a property of the target's own type or of a variant type is offered, any property for a variant target, and a numeric property for a numeric target; nothing else is offered |
| QmlDesigner.OfferedFromSingleton | src/plugins/qmldesigner/components/bindingeditor/bindingeditor.cpp:244-250 | everything offered from a node is offered from a singleton; beyond that only a different colour type for a colour target |
| QmlDesigner.ColorOnlyForSingletons | src/plugins/qmldesigner/components/bindingeditor/bindingeditor.cpp:246-250 | QColor and color are compatible for a singleton's property, never for a scene node's |
| QmlDesigner.StaticNames | src/plugins/qmldesigner/components/bindingeditor/bindingeditor.cpp:189-198 | at most one name per property, and exactly one per property for a variant target |
| QmlDesigner.DynamicNames | src/plugins/qmldesigner/components/bindingeditor/bindingeditor.cpp:200-213 | at most one name per property, and none when no property is dynamic |
| QmlDesigner.SingletonNames | src/plugins/qmldesigner/components/bindingeditor/bindingeditor.cpp:243-253 | at most one name per property, and exactly one per property for a variant target |
| QmlDesigner.StaticNamesMembers | src/plugins/qmldesigner/components/bindingeditor/bindingeditor.cpp:189-198 | a node's static property is offered iff its simplified type equals the target type, is a variant type, or both types are numeric, or the target type is a variant type |
| QmlDesigner.DynamicNamesMembers | src/plugins/qmldesigner/components/bindingeditor/bindingeditor.cpp:200-226 | a binding or variant property is offered iff it is valid, dynamic and its dynamic type is compatible; non-dynamic ones never are |
| QmlDesigner.SingletonNamesMembers | src/plugins/qmldesigner/components/bindingeditor/bindingeditor.cpp:243-253 | a singleton's property is offered iff its full type name is compatible, with colour types included |
| QmlDesigner.VariantTargetOffersAll | src/plugins/qmldesigner/components/bindingeditor/bindingeditor.cpp:184-195 | for an alias/unknown/variant/var target, every property is offered, in order |
| QmlDesigner.NodeOption | src/plugins/qmldesigner/components/bindingeditor/bindingeditor.cpp:187-232 | a node without an id is not listed; a listed node is labelled by its display name and offers at least one property |
| QmlDesigner.SingletonOption | src/plugins/qmldesigner/components/bindingeditor/bindingeditor.cpp:234-262 | a type with an empty name or no meta-information is not listed; a listed singleton is labelled by its type name and offers at least one property |
| QmlDesigner.NodeListed | src/plugins/qmldesigner/components/bindingeditor/bindingeditor.cpp:228-231 | a node is listed iff it has an id and offers a property; it is labelled with its display name |
| QmlDesigner.NodeOptionsMembers | src/plugins/qmldesigner/components/bindingeditor/bindingeditor.cpp:187-232 | the scene's candidates are exactly the options of the listed nodes |
| QmlDesigner.ListedNodesOfferSomething | src/plugins/qmldesigner/components/bindingeditor/bindingeditor.cpp:228-231 | every scene candidate offers a property and belongs to a node with an id |
| QmlDesigner.SingletonOptionsMembers | src/plugins/qmldesigner/components/bindingeditor/bindingeditor.cpp:235-262 | the singleton candidates are exactly the options of the listed singletons |
| QmlDesigner.ListedSingletonsOfferSomething | src/plugins/qmldesigner/components/bindingeditor/bindingeditor.cpp:236-258 | every singleton candidate offers a property, has meta-information, and is labelled by its non-empty type name |
| QmlDesigner.StateNameOf | src/plugins/qmldesigner/components/bindingeditor/bindingeditor.cpp:284-290 | a target ending in ".when" gives the text before it; any other target gives "" |
| QmlDesigner.WhenTarget | src/plugins/qmldesigner/components/bindingeditor/bindingeditor.cpp:144-148 | the target is the state's name followed by ".when" |
| QmlDesigner.StateNameRoundTrip | src/plugins/qmldesigner/components/bindingeditor/bindingeditor.cpp:144-148 | after the target is set from a state name, `stateName` gives that name back |
| QmlDesigner.TitleSuffix | src/plugins/qmldesigner/components/bindingeditor/bindingeditor.cpp:268-277 | the suffix opens with " [", ends with the type name and "]", and names the target followed by ": " when there is one |
| QmlDesigner.WindowTitleParts | src/plugins/qmldesigner/components/bindingeditor/bindingeditor.cpp:271-275 | the title is the default title, then " [", the target with ": " when there is one, the type, and "]" |
| QmlDesigner.CollectStaticNames | src/plugins/qmldesigner/components/bindingeditor/bindingeditor.cpp:189-198 | the loop over meta-information properties collects exactly the offered static names |
| QmlDesigner.CollectDynamicNames | src/plugins/qmldesigner/components/bindingeditor/bindingeditor.cpp:201-213 | the loop over binding (or variant) properties collects exactly the offered dynamic names |
| QmlDesigner.CollectSingletonNames | src/plugins/qmldesigner/components/bindingeditor/bindingeditor.cpp:243-253 | the loop over a singleton's properties collects exactly its offered names |
| QmlDesigner.CollectNodeOptions | src/plugins/qmldesigner/components/bindingeditor/bindingeditor.cpp:187-232 | the loop over the scene's nodes collects exactly the listed nodes' options, in order; each node's names are its static, then dynamic binding, then dynamic variant properties |
| QmlDesigner.CollectSingletonOptions | src/plugins/qmldesigner/components/bindingeditor/bindingeditor.cpp:235-262 | the loop over the rewriter's types collects exactly the listed singletons' options, in order |
| QmlDesigner.BindingEditor.constructor | src/plugins/qmldesigner/components/bindingeditor/bindingeditor.cpp:23-25 | the editor starts without dialog, values, valid node, type or target |
| QmlDesigner.BindingEditor.BindingValue | src/plugins/qmldesigner/components/bindingeditor/bindingeditor.cpp:71-77 | the dialog's expression, or "" when there is no dialog |
| QmlDesigner.BindingEditor.SetBindingValue | src/plugins/qmldesigner/components/bindingeditor/bindingeditor.cpp:79-83 | with a dialog, its expression becomes the text and BindingValue then returns it; without one nothing changes |
| QmlDesigner.BindingEditor.SetBackendValue | src/plugins/qmldesigner/components/bindingeditor/bindingeditor.cpp:85-112 | a null value is ignored. Otherwise it is kept, and for a valid node: the expected type becomes the property's type, replaced by the instance type for alias/unknown on a QML object node; the target becomes (id, or type name when the id is empty) + "." + the property name |
| QmlDesigner.BindingEditor.SetModelNodeBackend | src/plugins/qmldesigner/components/bindingeditor/bindingeditor.cpp:114-129 | a null backend is ignored; a model-node proxy's node becomes the model node; any other object leaves it |
| QmlDesigner.BindingEditor.SetStateModelNode | src/plugins/qmldesigner/components/bindingeditor/bindingeditor.cpp:131-142 | an invalid variant changes nothing; otherwise the node becomes the model node, and a valid one sets the expected type to "bool" |
| QmlDesigner.BindingEditor.SetStateName | src/plugins/qmldesigner/components/bindingeditor/bindingeditor.cpp:144-148 | the target becomes name + ".when", and StateName then returns the name |
| QmlDesigner.BindingEditor.SetModelNode | src/plugins/qmldesigner/components/bindingeditor/bindingeditor.cpp:150-154 | only a valid node replaces the model node |
| QmlDesigner.BindingEditor.SetBackendValueTypeName | src/plugins/qmldesigner/components/bindingeditor/bindingeditor.cpp:156-161 | sets the expected type |
| QmlDesigner.BindingEditor.SetTargetName | src/plugins/qmldesigner/components/bindingeditor/bindingeditor.cpp:163-166 | sets the target |
| QmlDesigner.BindingEditor.StateName | src/plugins/qmldesigner/components/bindingeditor/bindingeditor.cpp:284-290 | the state name whose ".when" target is the current target, or "" when the target does not end in ".when" |
| QmlDesigner.BindingEditor.PrepareBindings | src/plugins/qmldesigner/components/bindingeditor/bindingeditor.cpp:168-266 | no effect for an invalid model node or an empty expected type. Otherwise, when there are candidates (scene nodes, then singletons) and a dialog, the dialog gets them with the expected type |
| QmlDesigner.BindingEditor.UpdateWindowName | src/plugins/qmldesigner/components/bindingeditor/bindingeditor.cpp:268-277 | with a dialog and an expected type, the title becomes the default title plus the bracketed target and type; otherwise it is untouched |
| Beautifier.AnyInheritedExists | src/plugins/beautifier/beautifierplugin.cpp:57-59 | `anyOf` holds iff some allowed type is inherited by the document's type |
| Beautifier.IsAutoFormatApplicable | src/plugins/beautifier/beautifierplugin.cpp:47-60 | only a document can be applicable, and any document is when no MIME type is configured |
| Beautifier.AutoFormatApplicability | src/plugins/beautifier/beautifierplugin.cpp:47-60 | no document is never applicable; with an empty allow-list any document is; otherwise a document is applicable iff its MIME type inherits an allowed type |
| Beautifier.ToolIndex | src/plugins/beautifier/beautifierplugin.cpp:148-151 | the index of the first tool whose id is the configured one; None iff no tool has that id |
| Beautifier.FindTool | src/plugins/beautifier/beautifierplugin.cpp:149-150 | the search over the tools finds exactly the first tool with the id |
| Beautifier.AutoFormatOutcome | src/plugins/beautifier/beautifierplugin.cpp:126-163 | with auto-formatting off nothing is formatted; what is formatted is always the document's first editor, a text editor, with a valid command |
| Beautifier.AutoFormatFormatsExactly | src/plugins/beautifier/beautifierplugin.cpp:126-163 | a save formats iff auto-format is on, the document is applicable, it is in the current project when that is required, a tool has the id, the first such tool handles the document with a valid command, and the first editor is a text editor; then that editor is formatted with that command |
| Beautifier.NoFormatWhenOffOrInapplicable | src/plugins/beautifier/beautifierplugin.cpp:128-132 | with auto-format off, or an inapplicable document, nothing happens |
| Beautifier.NoFormatOutsideCurrentProject | src/plugins/beautifier/beautifierplugin.cpp:135-145 | when only the current project is formatted, nothing happens without a project or for a file outside its source files |
| Beautifier.NoFormatWithoutTool | src/plugins/beautifier/beautifierplugin.cpp:148-151 | when no tool has the configured id, nothing happens |
| Beautifier.ErrorMessage | src/plugins/beautifier/beautifierplugin.cpp:165-168 | the message starts with "Error in Beautifier: " and is no longer than that prefix plus the error |
| Beautifier.ErrorMessageTrims | src/plugins/beautifier/beautifierplugin.cpp:165-168 | the message is the fixed prefix followed by a contiguous piece of the error with only white space cut from either side; that piece neither starts nor ends with white space and is empty iff the error is all white space; a pre-trimmed error gives the same message |
| Beautifier.BeautifierPluginPrivate.constructor | src/plugins/beautifier/beautifierplugin.cpp:106-118 | the tools are Artistic Style, Uncrustify and ClangFormat, in that order; their ids are appended, in that order, to the options of the tool used on save |
| Beautifier.BeautifierPluginPrivate.AutoFormatOnSave | src/plugins/beautifier/beautifierplugin.cpp:126-163 | the guard chain decides the outcome exactly as AutoFormatOutcome, which AutoFormatFormatsExactly characterises |

## Left out

- `src/plugins/vcsbase/commonvcssettings.cpp` is not part of this model. It is a settings page whose only logic is an environment-dependent default.
- File I/O:
  - The file of a `ClangFormatFile` is its `fileContents` string.
  - Creating directories and empty files is not modelled.
  - A file whose contents cannot be read is not modelled (the source then parses an empty text).
- The clang-format library is foreign code. `parseConfiguration`, `configurationAsText`, the Qt Creator style (`qtcStyle`, from clangformatutils, which is not part of this model) and the default style are the fields of `FormatLibrary`.
  - A parse failure is assumed to leave the style it was given unchanged.
  - Only the twelve style options the file object reads or writes are modelled.
- The ClangFormat mode (a global settings singleton in the source) is a parameter.
- Of the `LLVM_VERSION_MAJOR >= 11` conditionals, the branch for LLVM 11 and later is modelled.
- `m_isReadOnly` starts as false (its initialiser is in a header that is not part of this model).
- Widths: `IndentWidth`, `TabWidth` and the tab sizes are taken in 0..2^31-1. There every conversion between `unsigned` and `int` is exact. Negative IDE sizes and widths of 2^31 or more are not modelled.
- `QtStrings.ToUpper`: upper-cases only the ASCII letters, not the whole Unicode case mapping of `QString::toUpper`.
- `QtStrings.RemoveAll`: the contract only bounds the length, and its lemmas cover texts without an occurrence. That no occurrence is left afterwards is not stated: it does not hold in general, because a removal can join a new occurrence.
- UTF-8 and `std::string` conversions are the identity on `string`.
- `Tr::tr` is the identity.
- The user interface is left out:
  - dialog creation, showing and hiding (`prepareDialog`, `showWidget`, `hideWidget`);
  - signals and QML type registration;
  - plain getters;
  - the aspects and widgets of the build step and `setupOutputFormatter`;
  - the beautifier's menus, `updateActions`, `initialize`, `extensionsInitialized`, `aboutToShutdown`, its menu-entry texts, and the message texts `msgCannotGetConfigurationFile` and `msgCommandPromptDialogTitle` (the tools' own code builds them into dialogs and messages).
- The binding-editor dialog is a value held in an `Option` field, so sharing it with other owners is not modelled.
- `setBackendValue` with a non-null value that is not a property-editor value dereferences a null pointer in the source. It is not modelled: a value is always a `PropertyEditorValue`.
- The QML document model is replaced by values:
  - a view is its nodes and the rewriter's singleton types;
  - meta-information lookups are fields;
  - the instance type of the edited property is a field of the edited node.
- The MIME database is an `inherits` relation. The current project is the list of its source-file paths, and the project tree's global "current project" is a parameter.
- A formatting tool's `isApplicable` and command validity are fields of `Tool`. `formatEditor` is the `FormatEditor` outcome; only a text editor's widget can be formatted.
- `CommandBuilderAspect::fullCommandFlag` is defined elsewhere: it is a parameter from the "keep jobs number" option to a text.
- `BuildConsole.CpuCount`: the 0..65536 range of the CPU-limit aspect's editor is built into the type; a stored value outside that range is not modelled.
- `BuildConsole.ProvideCommandLine`: the provider's nineteen appends are split over four helper methods.
- `ClangFormat.ClangFormatFile.SetStyleText` models the `setStyle(QString)` overload; Dafny has no overloading.
