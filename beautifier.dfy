/**
 * The Beautifier plugin's decisions: whether a document may be formatted
 * automatically, which of the three formatting tools (Artistic Style,
 * Uncrustify, ClangFormat) formats it when it is saved, and the texts of
 * its messages.
 *
 * The IDE around the plugin is replaced by values: the MIME database by an
 * inheritance relation between MIME type names, the current project by the
 * list of its source files, an editor by whether it is a text editor, and
 * formatting itself by the outcome that names the editor and the command.
 */
module Beautifier {
  import opened Wrappers
  import opened QtStrings

  /** The MIME database's answer to "does the type named first inherit the type named second?". */
  type Inherits = (string, string) -> bool

  /** An editor showing a document; only a text editor's widget can be formatted. */
  datatype Editor = Editor(id: nat, isTextEditor: bool)

  /** A document about to be saved: its MIME type, its path and the editors showing it, in order. */
  datatype Document = Document(mimeType: string, filePath: string, editors: seq<Editor>)

  /** A formatting command: the executable to run and whether it is valid. */
  datatype Command = Command(executable: string, arguments: seq<string>, isValid: bool)

  /** A formatting tool: its id, which documents it handles, and its configured command. */
  datatype Tool = Tool(id: string, isApplicable: Document -> bool, command: Command)

  /** The current project, as far as the plugin asks: the paths of its source files. */
  datatype Project = Project(sourceFiles: seq<string>)

  /** The general settings the plugin reads. */
  datatype GeneralSettings = GeneralSettings(
    autoFormatOnSave: bool,
    autoFormatOnlyCurrentProject: bool,
    allowedMimeTypes: seq<string>,
    autoFormatToolOptions: seq<string>,
    autoFormatTool: string)

  /** What saving a document leads to: nothing, or formatting an editor's widget with a command. */
  datatype Outcome = Skip | FormatEditor(editor: Editor, command: Command)

  // ---------------------------------------------------------------------
  // Applicability

  /** Some allowed MIME type is inherited by `mime`, as `Utils::anyOf` decides it, front to back. */
  function AnyInherited(inherits: Inherits, mime: string, allowed: seq<string>): bool
  {
    allowed != [] && (inherits(mime, allowed[0]) || AnyInherited(inherits, mime, allowed[1..]))
  }

  lemma {:induction false} AnyInheritedExists(inherits: Inherits, mime: string, allowed: seq<string>)
    ensures AnyInherited(inherits, mime, allowed) <==> exists i :: 0 <= i < |allowed| && inherits(mime, allowed[i])
  {
    if allowed != [] {
      AnyInheritedExists(inherits, mime, allowed[1..]);
      assert forall i :: 1 <= i < |allowed| ==> allowed[i] == allowed[1..][i - 1];
      if inherits(mime, allowed[0]) {
        assert 0 < |allowed| && inherits(mime, allowed[0]);
      }
    }
  }

  /** `isAutoFormatApplicable`. */
  function IsAutoFormatApplicable(document: Option<Document>, allowed: seq<string>, inherits: Inherits): (r: bool)
    ensures r ==> document.Some?
    ensures document.Some? && allowed == [] ==> r
  {
    document.Some? && (allowed == [] || AnyInherited(inherits, document.value.mimeType, allowed))
  }

  /**
   * No document is never applicable; with no allowed types any document is;
   * otherwise a document is applicable exactly when its MIME type inherits
   * at least one allowed type.
   */
  lemma AutoFormatApplicability(document: Option<Document>, allowed: seq<string>, inherits: Inherits)
    ensures document.None? ==> !IsAutoFormatApplicable(document, allowed, inherits)
    ensures document.Some? && allowed == [] ==> IsAutoFormatApplicable(document, allowed, inherits)
    ensures document.Some? && allowed != [] ==>
              (IsAutoFormatApplicable(document, allowed, inherits)
               <==> exists i :: 0 <= i < |allowed| && inherits(document.value.mimeType, allowed[i]))
  {
    if document.Some? {
      AnyInheritedExists(inherits, document.value.mimeType, allowed);
    }
  }

  // ---------------------------------------------------------------------
  // Choosing the tool

  /** The index of the first tool from `k` on whose id is `id`, as `std::find_if` finds it. */
  function ToolIndexFrom(tools: seq<Tool>, id: string, k: nat): (r: Option<nat>)
    ensures r.Some? ==> k <= r.value < |tools| && tools[r.value].id == id
    ensures r.Some? ==> forall j :: k <= j < r.value ==> tools[j].id != id
    ensures r.None? ==> forall j :: k <= j < |tools| ==> tools[j].id != id
    decreases |tools| - k
  {
    if k >= |tools| then None
    else if tools[k].id == id then Some(k)
    else ToolIndexFrom(tools, id, k + 1)
  }

  /** The first tool whose id is `id`, or None when no tool has it. */
  function ToolIndex(tools: seq<Tool>, id: string): (r: Option<nat>)
    ensures r.Some? ==> r.value < |tools| && tools[r.value].id == id
    ensures r.Some? ==> forall j :: 0 <= j < r.value ==> tools[j].id != id
    ensures r.None? ==> forall j :: 0 <= j < |tools| ==> tools[j].id != id
  {
    ToolIndexFrom(tools, id, 0)
  }

  /** The search of `autoFormatOnSave` over the tools. */
  method FindTool(tools: seq<Tool>, id: string) returns (r: Option<nat>)
    ensures r == ToolIndex(tools, id)
  {
    var k := 0;
    while k < |tools|
      invariant 0 <= k <= |tools|
      invariant ToolIndexFrom(tools, id, k) == ToolIndex(tools, id)
    {
      if tools[k].id == id {
        return Some(k);
      }
      k := k + 1;
    }
    return None;
  }

  // ---------------------------------------------------------------------
  // Formatting on save

  /** The document is one of the project's source files. */
  predicate InProject(project: Option<Project>, document: Document)
  {
    project.Some? && document.filePath in project.value.sourceFiles
  }

  /**
   * `autoFormatOnSave`: the guards in the source's order, ending in
   * formatting the document's first editor with the chosen tool's command.
   */
  function AutoFormatOutcome(
    settings: GeneralSettings, tools: seq<Tool>, document: Option<Document>,
    project: Option<Project>, inherits: Inherits): (r: Outcome)
    ensures !settings.autoFormatOnSave ==> r == Skip
    ensures r.FormatEditor? ==>
              && document.Some? && document.value.editors != []
              && r.editor == document.value.editors[0] && r.editor.isTextEditor
              && r.command.isValid
  {
    if !settings.autoFormatOnSave then Skip
    else if !IsAutoFormatApplicable(document, settings.allowedMimeTypes, inherits) then Skip
    else if settings.autoFormatOnlyCurrentProject && !InProject(project, document.value) then Skip
    else
      match ToolIndex(tools, settings.autoFormatTool)
      case None => Skip
      case Some(k) =>
        var tool := tools[k];
        var editors := document.value.editors;
        if !tool.isApplicable(document.value) then Skip
        else if !tool.command.isValid then Skip
        else if editors == [] then Skip
        else if editors[0].isTextEditor then FormatEditor(editors[0], tool.command)
        else Skip
  }

  /**
   * A saved document is formatted exactly when auto-formatting is on, the
   * document is applicable, it belongs to the current project if that is
   * required, a tool has the configured id, and the first such tool handles
   * the document and has a valid command, and the document's first editor is
   * a text editor; it is that editor that is formatted, with that command.
   */
  lemma AutoFormatFormatsExactly(
    settings: GeneralSettings, tools: seq<Tool>, document: Option<Document>,
    project: Option<Project>, inherits: Inherits)
    ensures var outcome := AutoFormatOutcome(settings, tools, document, project, inherits);
            outcome.FormatEditor? <==>
              && settings.autoFormatOnSave
              && IsAutoFormatApplicable(document, settings.allowedMimeTypes, inherits)
              && (settings.autoFormatOnlyCurrentProject ==> InProject(project, document.value))
              && (exists k :: 0 <= k < |tools| && tools[k].id == settings.autoFormatTool)
              && var k := ToolIndex(tools, settings.autoFormatTool).value;
                 && tools[k].isApplicable(document.value)
                 && tools[k].command.isValid
                 && document.value.editors != []
                 && document.value.editors[0].isTextEditor
    ensures var outcome := AutoFormatOutcome(settings, tools, document, project, inherits);
            outcome.FormatEditor? ==>
              && outcome.editor == document.value.editors[0]
              && outcome.command == tools[ToolIndex(tools, settings.autoFormatTool).value].command
  {
    var found := ToolIndex(tools, settings.autoFormatTool);
    if found.Some? {
      assert 0 <= found.value < |tools| && tools[found.value].id == settings.autoFormatTool;
    }
  }

  /** With auto-formatting off, or without an applicable document, saving formats nothing. */
  lemma NoFormatWhenOffOrInapplicable(
    settings: GeneralSettings, tools: seq<Tool>, document: Option<Document>,
    project: Option<Project>, inherits: Inherits)
    requires !settings.autoFormatOnSave || !IsAutoFormatApplicable(document, settings.allowedMimeTypes, inherits)
    ensures AutoFormatOutcome(settings, tools, document, project, inherits) == Skip
  {
  }

  /**
   * When only the current project's files are formatted, a document outside
   * it, or any document while no project is open, is not formatted.
   */
  lemma NoFormatOutsideCurrentProject(
    settings: GeneralSettings, tools: seq<Tool>, document: Document,
    project: Option<Project>, inherits: Inherits)
    requires settings.autoFormatOnlyCurrentProject
    requires project.None? || document.filePath !in project.value.sourceFiles
    ensures AutoFormatOutcome(settings, tools, Some(document), project, inherits) == Skip
  {
  }

  /** When no tool has the configured id, saving formats nothing. */
  lemma NoFormatWithoutTool(
    settings: GeneralSettings, tools: seq<Tool>, document: Option<Document>,
    project: Option<Project>, inherits: Inherits)
    requires forall k :: 0 <= k < |tools| ==> tools[k].id != settings.autoFormatTool
    ensures AutoFormatOutcome(settings, tools, document, project, inherits) == Skip
  {
  }

  // ---------------------------------------------------------------------
  // Messages

  /** `showError`: the error, trimmed, after a fixed prefix. */
  function ErrorMessage(error: string): (r: string)
    ensures StartsWith(r, "Error in Beautifier: ")
    ensures |r| <= |"Error in Beautifier: "| + |error|
  {
    "Error in Beautifier: " + Trimmed(error)
  }

  /**
   * The message shows the error without the white space around it: after
   * the prefix comes a piece of the error, with only white space cut off on
   * either side, that neither starts nor ends with white space, and is the
   * empty text exactly for an error of white space only.
   * An error that is already trimmed gives the same message.
   */
  lemma ErrorMessageTrims(error: string)
    ensures var m := ErrorMessage(error);
            var t := m[|"Error in Beautifier: "|..];
            && StartsWith(m, "Error in Beautifier: ")
            && (t == [] || (!IsSpace(t[0]) && !IsSpace(t[|t| - 1])))
            && (t == [] <==> AllSpace(error))
    ensures var t := ErrorMessage(error)[|"Error in Beautifier: "|..];
            exists i :: 0 <= i && i + |t| <= |error| && t == error[i..i + |t|]
                        && AllSpace(error[..i]) && AllSpace(error[i + |t|..])
    ensures ErrorMessage(Trimmed(error)) == ErrorMessage(error)
  {
    var m := ErrorMessage(error);
    assert m[|"Error in Beautifier: "|..] == Trimmed(error);
    TrimmedSlice(error);
    TrimmedCutsOnlySpace(error);
    var i := LeadingSpaces(error);
    assert 0 <= i && i + |Trimmed(error)| <= |error| && Trimmed(error) == error[i..i + |Trimmed(error)|];
    TrimmedEnds(error);
    TrimmedEmpty(error);
    TrimmedIdempotent(error);
  }

  // ---------------------------------------------------------------------
  // The plugin's private part

  class BeautifierPluginPrivate {
    /** `generalSettings`. */
    var generalSettings: GeneralSettings
    /** `m_tools`: Artistic Style, Uncrustify and ClangFormat, in that order. */
    const tools: seq<Tool>

    /**
     * The constructor offers every tool's id, in the tools' order, as a
     * choice for the tool used on save.
     */
    constructor (settings: GeneralSettings, artisticStyle: Tool, uncrustify: Tool, clangFormat: Tool)
      ensures tools == [artisticStyle, uncrustify, clangFormat]
      ensures generalSettings == settings.(autoFormatToolOptions :=
                settings.autoFormatToolOptions + [artisticStyle.id, uncrustify.id, clangFormat.id])
    {
      var all := [artisticStyle, uncrustify, clangFormat];
      var options := settings.autoFormatToolOptions;
      var i := 0;
      while i < |all|
        invariant 0 <= i <= |all|
        invariant options == settings.autoFormatToolOptions + ToolIds(all[..i])
      {
        assert all[..i + 1][..i] == all[..i];
        options := options + [all[i].id];
        i := i + 1;
      }
      assert all[..i] == all;
      assert all[..2] == [artisticStyle, uncrustify] && all[..2][..1] == [artisticStyle] && [artisticStyle][..0] == [];
      assert ToolIds([artisticStyle]) == [artisticStyle.id];
      assert ToolIds(all[..2]) == [artisticStyle.id, uncrustify.id];
      assert ToolIds(all) == [artisticStyle.id, uncrustify.id, clangFormat.id];
      tools := all;
      generalSettings := settings.(autoFormatToolOptions := options);
    }

    /**
     * `autoFormatOnSave`: what saving `document` leads to, given the current
     * project and the MIME database.
     */
    method AutoFormatOnSave(document: Option<Document>, currentProject: Option<Project>, inherits: Inherits)
      returns (outcome: Outcome)
      ensures outcome == AutoFormatOutcome(generalSettings, tools, document, currentProject, inherits)
    {
      if !generalSettings.autoFormatOnSave {
        return Skip;
      }
      if !IsAutoFormatApplicable(document, generalSettings.allowedMimeTypes, inherits) {
        return Skip;
      }
      if generalSettings.autoFormatOnlyCurrentProject {
        if currentProject.None? || document.value.filePath !in currentProject.value.sourceFiles {
          return Skip;
        }
      }
      var id := generalSettings.autoFormatTool;
      var found := FindTool(tools, id);
      if found.Some? {
        var tool := tools[found.value];
        if !tool.isApplicable(document.value) {
          return Skip;
        }
        var command := tool.command;
        if !command.isValid {
          return Skip;
        }
        var editors := document.value.editors;
        if editors == [] {
          return Skip;
        }
        if editors[0].isTextEditor {
          return FormatEditor(editors[0], command);
        }
      }
      return Skip;
    }
  }

  /** The ids of the tools, in order. */
  function ToolIds(tools: seq<Tool>): (r: seq<string>)
    ensures |r| == |tools|
    ensures forall i :: 0 <= i < |r| ==> r[i] == tools[i].id
  {
    if tools == [] then []
    else
      var init := tools[..|tools| - 1];
      assert forall i :: 0 <= i < |init| ==> init[i] == tools[i];
      ToolIds(init) + [tools[|tools| - 1].id]
  }
}
