/**
 * A project's `.clang-format` file as the ClangFormat plugin keeps it: the
 * style last parsed or set, the text of the file on disk and whether the
 * plugin may write it; and the translations between a clang-format style and
 * the IDE's own C++ code-style and tab settings.
 *
 * The clang-format library (parsing and serialising a style) and the
 * plugin's built-in Qt Creator style are foreign code here: they are the
 * fields of a `FormatLibrary` handed to the file object when it is created.
 */
module ClangFormat {
  import opened Wrappers
  import opened QtStrings

  /**
   * A width in columns. clang-format stores it `unsigned`, the IDE's tab
   * settings `int`; on the range both share every conversion between them
   * is exact.
   */
  type Width = w: int | 0 <= w < 0x8000_0000

  datatype LanguageKind = LK_None | LK_Cpp | LK_CSharp | LK_Java | LK_JavaScript | LK_ObjC | LK_Proto | LK_TableGen | LK_TextProto

  datatype UseTabStyle = UT_Never | UT_ForIndentation | UT_ForContinuationAndIndentation | UT_AlignWithSpaces | UT_Always

  datatype NamespaceIndentationKind = NI_None | NI_Inner | NI_All

  datatype BraceBreakingStyle = BS_Attach | BS_Linux | BS_Mozilla | BS_Stroustrup | BS_Allman | BS_Whitesmiths | BS_GNU | BS_WebKit | BS_Custom

  datatype BinaryOperatorStyle = BOS_None | BOS_NonAssignment | BOS_All

  datatype PointerAlignmentStyle = PAS_Left | PAS_Right | PAS_Middle

  /** The options of a clang-format style that the plugin reads or writes. */
  datatype FormatStyle = FormatStyle(
    language: LanguageKind,
    accessModifierOffset: int,
    indentWidth: Width,
    tabWidth: Width,
    useTab: UseTabStyle,
    namespaceIndentation: NamespaceIndentationKind,
    breakBeforeBraces: BraceBreakingStyle,
    indentCaseLabels: bool,
    indentCaseBlocks: bool,
    breakBeforeBinaryOperators: BinaryOperatorStyle,
    derivePointerAlignment: bool,
    pointerAlignment: PointerAlignmentStyle)

  /**
   * The foreign parts: `parseConfiguration` reads a YAML text over a starting
   * style and yields the new style or the error's message;
   * `configurationAsText` serialises a style; `qtcStyle` is the built-in Qt
   * Creator style; `defaultStyle` is a default-constructed `FormatStyle`.
   */
  datatype FormatLibrary = FormatLibrary(
    parseConfiguration: (string, FormatStyle) -> Result<FormatStyle, string>,
    configurationAsText: FormatStyle -> string,
    qtcStyle: FormatStyle,
    defaultStyle: FormatStyle)

  /** The clang-format mode chosen in the IDE's settings. */
  datatype Mode = Indenting | Formatting | Disable

  /** The IDE's C++ code-style settings that clang-format options stand for, and a few it leaves alone. */
  datatype CppCodeStyleSettings = CppCodeStyleSettings(
    indentBlockBraces: bool,
    indentBlockBody: bool,
    indentClassBraces: bool,
    indentEnumBraces: bool,
    indentNamespaceBraces: bool,
    indentNamespaceBody: bool,
    indentAccessSpecifiers: bool,
    indentDeclarationsRelativeToAccessSpecifiers: bool,
    indentFunctionBody: bool,
    indentFunctionBraces: bool,
    indentSwitchLabels: bool,
    indentStatementsRelativeToSwitchLabels: bool,
    indentBlocksRelativeToSwitchLabels: bool,
    indentControlFlowRelativeToSwitchLabels: bool,
    bindStarToIdentifier: bool,
    bindStarToTypeName: bool,
    bindStarToLeftSpecifier: bool,
    bindStarToRightSpecifier: bool,
    extraPaddingForConditionsIfConfusingAlign: bool,
    alignAssignments: bool)

  datatype TabPolicy = SpacesOnlyTabPolicy | TabsOnlyTabPolicy | MixedTabPolicy

  datatype ContinuationAlignBehavior = NoContinuationAlign | ContinuationAlignWithSpaces | ContinuationAlignWithIndent

  datatype TabSettings = TabSettings(
    tabPolicy: TabPolicy,
    tabSize: Width,
    indentSize: Width,
    continuationAlignBehavior: ContinuationAlignBehavior)

  /** A key and its value, one line of a clang-format file. */
  type Field = (string, string)

  // ---------------------------------------------------------------------
  // The text of the file

  /**
   * `parseConfiguration` as the plugin calls it on a file's contents: over a
   * default-constructed style whose language is set to C++.
   */
  function ParseFile(library: FormatLibrary, text: string): Result<FormatStyle, string>
  {
    library.parseConfiguration(text, library.defaultStyle.(language := LK_Cpp))
  }

  /**
   * The text `saveStyleToFile` writes from the library's serialisation: the
   * comment mark `# ` in front of the first `BasedOnStyle` is removed, and a
   * newline is appended.
   */
  function StyleFileText(text: string): (r: string)
    ensures EndsWith(r, "\n")
    ensures |r| == |text| + 1 || |r| == |text| - 1
  {
    match Find(text, "# BasedOnStyle")
    case None => text + "\n"
    case Some(pos) => Erase(text, pos, 2) + "\n"
  }

  /** The text written for a style. */
  function SavedText(library: FormatLibrary, style: FormatStyle): string
  {
    StyleFileText(library.configurationAsText(style))
  }

  /** The library reads back, from the text saved for `style`, that same style. */
  predicate ReadsBack(library: FormatLibrary, style: FormatStyle)
  {
    ParseFile(library, SavedText(library, style)) == Success(style)
  }

  /**
   * A serialisation without the commented `BasedOnStyle` is written as it is,
   * followed by a newline.
   */
  lemma StyleFileTextUncommented(text: string)
    requires forall j :: !OccursAt(text, "# BasedOnStyle", j)
    ensures StyleFileText(text) == text + "\n"
  {
  }

  /**
   * Where the first `# BasedOnStyle` stands, the written text has the bare
   * `BasedOnStyle`: everything before it and after the two removed
   * characters is kept, and a newline ends the text.
   */
  lemma StyleFileTextUncomments(text: string, pos: nat)
    requires OccursAt(text, "# BasedOnStyle", pos)
    requires forall j :: 0 <= j < pos ==> !OccursAt(text, "# BasedOnStyle", j)
    ensures var r := StyleFileText(text);
            |r| == |text| - 1
            && r[..pos] == text[..pos]
            && OccursAt(r, "BasedOnStyle", pos)
            && r[pos..] == text[pos + 2..] + "\n"
  {
    assert Find(text, "# BasedOnStyle") == Some(pos);
    var r := StyleFileText(text);
    assert r == text[..pos] + text[pos + 2..] + "\n";
    assert text[pos + 2..pos + 14] == "BasedOnStyle" by {
      assert text[pos..pos + 14] == "# BasedOnStyle";
      assert text[pos + 2..pos + 14] == text[pos..pos + 14][2..];
    }
    assert r[pos..pos + 12] == text[pos + 2..pos + 14];
  }

  /** One `key: value` line of the YAML text `changeFields` builds. */
  function FieldLine(field: Field): string
  {
    field.0 + ": " + field.1 + "\n"
  }

  /** The lines of `fields`, in their order. */
  function FieldLines(fields: seq<Field>): string
  {
    if fields == [] then [] else FieldLines(fields[..|fields| - 1]) + FieldLine(fields[|fields| - 1])
  }

  /** The document `changeFields` hands to `setStyle`: a YAML document start, then one line per field. */
  function FieldsText(fields: seq<Field>): (r: string)
    ensures StartsWith(r, "---\n")
    ensures fields == [] ==> r == "---\n"
  {
    "---\n" + FieldLines(fields)
  }

  /** Two lists of fields give the lines of the first followed by the lines of the second. */
  lemma {:induction false} FieldLinesAppend(a: seq<Field>, b: seq<Field>)
    ensures FieldLines(a + b) == FieldLines(a) + FieldLines(b)
    decreases |b|
  {
    if b != [] {
      var b' := b[..|b| - 1];
      assert (a + b)[..|a + b| - 1] == a + b';
      FieldLinesAppend(a, b');
    } else {
      assert a + b == a;
    }
  }

  /** The number of occurrences of `c` in `s`. */
  function Occurrences(s: string, c: char): nat
  {
    if s == [] then 0 else Occurrences(s[..|s| - 1], c) + (if s[|s| - 1] == c then 1 else 0)
  }

  lemma {:induction false} OccurrencesAppend(s: string, t: string, c: char)
    ensures Occurrences(s + t, c) == Occurrences(s, c) + Occurrences(t, c)
    decreases |t|
  {
    if t != [] {
      assert (s + t)[..|s + t| - 1] == s + t[..|t| - 1];
      OccurrencesAppend(s, t[..|t| - 1], c);
    } else {
      assert s + t == s;
    }
  }

  /** A field whose key and value are single-line texts. */
  predicate SingleLine(field: Field)
  {
    '\n' !in field.0 && '\n' !in field.1
  }

  /**
   * With single-line keys and values the document has exactly one line per
   * field after its start line.
   */
  lemma {:induction false} FieldsTextLines(fields: seq<Field>)
    requires forall i :: 0 <= i < |fields| ==> SingleLine(fields[i])
    ensures Occurrences(FieldsText(fields), '\n') == |fields| + 1
  {
    FieldLinesLines(fields);
    OccurrencesAppend("---\n", FieldLines(fields), '\n');
    assert Occurrences("---\n", '\n') == 1 by {
      assert "---\n"[..3] == "---";
      assert "---"[..2] == "--";
      assert "--"[..1] == "-";
      assert "-"[..0] == "";
    }
  }

  lemma {:induction false} FieldLinesLines(fields: seq<Field>)
    requires forall i :: 0 <= i < |fields| ==> SingleLine(fields[i])
    ensures Occurrences(FieldLines(fields), '\n') == |fields|
  {
    if fields != [] {
      var f := fields[|fields| - 1];
      FieldLinesLines(fields[..|fields| - 1]);
      assert SingleLine(f);
      OccurrencesAppend(FieldLines(fields[..|fields| - 1]), FieldLine(f), '\n');
      OccurrencesAppend(f.0 + ": " + f.1, "\n", '\n');
      OccurrencesAppend(f.0 + ": ", f.1, '\n');
      OccurrencesAppend(f.0, ": ", '\n');
      NoOccurrences(f.0, '\n');
      NoOccurrences(f.1, '\n');
      NoOccurrences(": ", '\n');
      assert "\n"[..0] == [];
    }
  }

  lemma {:induction false} NoOccurrences(s: string, c: char)
    requires c !in s
    ensures Occurrences(s, c) == 0
  {
    if s != [] {
      assert forall x :: x in s[..|s| - 1] ==> x in s;
      NoOccurrences(s[..|s| - 1], c);
    }
  }

  /** The loop of `changeFields` that writes the document into a string stream. */
  method FieldsDocument(fields: seq<Field>) returns (content: string)
    ensures content == FieldsText(fields)
  {
    content := "---" + "\n";
    var i := 0;
    while i < |fields|
      invariant 0 <= i <= |fields|
      invariant content == FieldsText(fields[..i])
    {
      assert fields[..i + 1][..i] == fields[..i];
      content := content + fields[i].0 + ": " + fields[i].1 + "\n";
      i := i + 1;
    }
    assert fields[..i] == fields;
  }

  // ---------------------------------------------------------------------
  // Style and IDE settings

  /** An integer reduced to a 32-bit `unsigned`. */
  function Unsigned32(x: int): (u: int)
    ensures 0 <= u < 0x1_0000_0000
  {
    x % 0x1_0000_0000
  }

  /** An `unsigned` value stored in a 32-bit `int` (two's complement). */
  function Int32Of(u: int): int
    requires 0 <= u < 0x1_0000_0000
  {
    if u < 0x8000_0000 then u else u - 0x1_0000_0000
  }

  /**
   * `fromCppCodeStyleSettings` computes `-1 * IndentWidth` in unsigned
   * arithmetic and stores it in the `int` offset; on a width the model allows
   * that is exactly the negated width, which is what StyleWithCppSettings
   * writes.
   */
  lemma UnsignedNegationExact(w: Width)
    ensures Int32Of(Unsigned32(-1 * w)) == -(w as int)
  {
    if w == 0 {
      assert Unsigned32(0) == 0;
    } else {
      assert Unsigned32(-1 * w) == 0x1_0000_0000 - w;
    }
  }

  /** The code-style settings `toCppCodeStyleSettings` derives from a parsed style over the project's own. */
  function CppSettingsOf(project: CppCodeStyleSettings, style: FormatStyle, mode: Mode): (r: CppCodeStyleSettings)
    // the settings clang-format has no option for are the project's
    ensures r.indentBlockBody == project.indentBlockBody
    ensures r.indentDeclarationsRelativeToAccessSpecifiers == project.indentDeclarationsRelativeToAccessSpecifiers
    ensures r.indentFunctionBody == project.indentFunctionBody
    // one option drives each group of settings
    ensures r.indentNamespaceBody == r.indentNamespaceBraces
    ensures r.indentClassBraces == r.indentEnumBraces == r.indentBlockBraces == r.indentFunctionBraces
    ensures r.indentStatementsRelativeToSwitchLabels == r.indentBlocksRelativeToSwitchLabels
                                                     == r.indentControlFlowRelativeToSwitchLabels
    ensures r.extraPaddingForConditionsIfConfusingAlign ==> r.alignAssignments
    // the pointer binding is read only from a style that derives it, when formatting
    ensures !(style.derivePointerAlignment && mode == Formatting) ==>
              && r.bindStarToIdentifier == project.bindStarToIdentifier
              && r.bindStarToTypeName == project.bindStarToTypeName
              && r.bindStarToLeftSpecifier == project.bindStarToLeftSpecifier
              && r.bindStarToRightSpecifier == project.bindStarToRightSpecifier
    ensures style.derivePointerAlignment && mode == Formatting ==>
              && r.bindStarToIdentifier == r.bindStarToRightSpecifier
              && r.bindStarToTypeName == r.bindStarToLeftSpecifier
              && !(r.bindStarToIdentifier && r.bindStarToTypeName)
  {
    var namespaces := style.namespaceIndentation == NI_All;
    var braces := style.breakBeforeBraces == BS_Whitesmiths;
    var s := project.(
      indentAccessSpecifiers := style.accessModifierOffset != -1 * (style.indentWidth as int),
      indentNamespaceBody := namespaces,
      indentNamespaceBraces := namespaces,
      indentClassBraces := braces,
      indentEnumBraces := braces,
      indentBlockBraces := braces,
      indentFunctionBraces := braces,
      indentSwitchLabels := style.indentCaseLabels,
      indentBlocksRelativeToSwitchLabels := style.indentCaseBlocks,
      indentStatementsRelativeToSwitchLabels := style.indentCaseBlocks,
      indentControlFlowRelativeToSwitchLabels := style.indentCaseBlocks,
      extraPaddingForConditionsIfConfusingAlign := style.breakBeforeBinaryOperators == BOS_All,
      alignAssignments := style.breakBeforeBinaryOperators == BOS_All || style.breakBeforeBinaryOperators == BOS_NonAssignment);
    if style.derivePointerAlignment && mode == Formatting then
      s.(
        bindStarToIdentifier := style.pointerAlignment == PAS_Right,
        bindStarToTypeName := style.pointerAlignment == PAS_Left,
        bindStarToLeftSpecifier := style.pointerAlignment == PAS_Left,
        bindStarToRightSpecifier := style.pointerAlignment == PAS_Right)
    else
      s
  }

  /** The style `fromCppCodeStyleSettings` makes of the current one and the given settings. */
  function StyleWithCppSettings(style: FormatStyle, settings: CppCodeStyleSettings, mode: Mode): (r: FormatStyle)
    // the language and the tab options are not code-style settings
    ensures r.language == style.language && r.indentWidth == style.indentWidth
    ensures r.tabWidth == style.tabWidth && r.useTab == style.useTab
    // only some values of each option are ever written
    ensures r.accessModifierOffset == 0 || r.accessModifierOffset == -(style.indentWidth as int)
    ensures r.namespaceIndentation != NI_Inner
    ensures r.breakBeforeBraces == BS_Whitesmiths || r.breakBeforeBraces == BS_Custom
    // the pointer alignment is written only when formatting
    ensures mode != Formatting ==> r.pointerAlignment == style.pointerAlignment
  {
    var s := settings;
    var right := (s.bindStarToIdentifier || s.bindStarToRightSpecifier) && mode == Formatting;
    var left := (s.bindStarToTypeName || s.bindStarToLeftSpecifier) && mode == Formatting;
    style.(
      accessModifierOffset := if s.indentAccessSpecifiers then 0 else -(style.indentWidth as int),
      namespaceIndentation := if s.indentNamespaceBody || s.indentNamespaceBraces then NI_All else NI_None,
      breakBeforeBraces :=
        if s.indentClassBraces || s.indentEnumBraces || s.indentBlockBraces || s.indentFunctionBraces
        then BS_Whitesmiths else BS_Custom,
      indentCaseLabels := s.indentSwitchLabels,
      indentCaseBlocks :=
        s.indentBlocksRelativeToSwitchLabels || s.indentStatementsRelativeToSwitchLabels
        || s.indentControlFlowRelativeToSwitchLabels,
      breakBeforeBinaryOperators :=
        if s.extraPaddingForConditionsIfConfusingAlign then BOS_All
        else if s.alignAssignments then BOS_NonAssignment
        else BOS_None,
      derivePointerAlignment :=
        s.bindStarToIdentifier || s.bindStarToTypeName || s.bindStarToLeftSpecifier || s.bindStarToRightSpecifier,
      pointerAlignment := if left then PAS_Left else if right then PAS_Right else style.pointerAlignment)
  }

  /** The tab settings `toTabSettings` derives from a parsed style over the project's own. */
  function TabSettingsOf(project: TabSettings, style: FormatStyle): (r: TabSettings)
    ensures r.continuationAlignBehavior == project.continuationAlignBehavior
    ensures r.indentSize == style.indentWidth && r.tabSize == style.tabWidth
    ensures r.tabPolicy == MixedTabPolicy <==> !(style.useTab.UT_Never? || style.useTab.UT_Always?)
  {
    project.(
      indentSize := style.indentWidth,
      tabSize := style.tabWidth,
      tabPolicy := match style.useTab
        case UT_AlignWithSpaces => MixedTabPolicy
        case UT_ForIndentation => MixedTabPolicy
        case UT_ForContinuationAndIndentation => MixedTabPolicy
        case UT_Never => SpacesOnlyTabPolicy
        case UT_Always => TabsOnlyTabPolicy)
  }

  /** The style `fromTabSettings` makes of the current one and the given settings. */
  function StyleWithTabSettings(style: FormatStyle, settings: TabSettings): (r: FormatStyle)
    ensures r.indentWidth == settings.indentSize && r.tabWidth == settings.tabSize
    // two of clang-format's tab uses are never written
    ensures !(r.useTab.UT_ForIndentation? || r.useTab.UT_AlignWithSpaces?)
    // nothing but the three tab options changes
    ensures r.(indentWidth := style.indentWidth, tabWidth := style.tabWidth, useTab := style.useTab) == style
  {
    style.(
      indentWidth := settings.indentSize,
      tabWidth := settings.tabSize,
      useTab := match settings.tabPolicy
        case MixedTabPolicy => UT_ForContinuationAndIndentation
        case SpacesOnlyTabPolicy => UT_Never
        case TabsOnlyTabPolicy => UT_Always)
  }

  /** Tab settings written into a style and read back are the same settings, over the project's continuation alignment. */
  lemma TabSettingsRoundTrip(project: TabSettings, style: FormatStyle, settings: TabSettings)
    ensures TabSettingsOf(project, StyleWithTabSettings(style, settings))
         == settings.(continuationAlignBehavior := project.continuationAlignBehavior)
  {
  }

  /**
   * A style survives being read into tab settings and written back exactly
   * when its tab use is one of the three the IDE's policies write.
   */
  lemma StyleThroughTabSettings(project: TabSettings, style: FormatStyle)
    ensures StyleWithTabSettings(style, TabSettingsOf(project, style)) == style
        <==> !(style.useTab.UT_ForIndentation? || style.useTab.UT_AlignWithSpaces?)
  {
  }

  /** Reading back written settings: the namespace body and braces both come back as their disjunction. */
  lemma NamespaceFlagsRoundTrip(project: CppCodeStyleSettings, style: FormatStyle, s: CppCodeStyleSettings, mode: Mode)
    ensures var back := CppSettingsOf(project, StyleWithCppSettings(style, s, mode), mode);
            back.indentNamespaceBody == (s.indentNamespaceBody || s.indentNamespaceBraces)
            && back.indentNamespaceBraces == back.indentNamespaceBody
  {
  }

  /** The four brace-indentation flags all come back as their disjunction. */
  lemma BraceFlagsRoundTrip(project: CppCodeStyleSettings, style: FormatStyle, s: CppCodeStyleSettings, mode: Mode)
    ensures var back := CppSettingsOf(project, StyleWithCppSettings(style, s, mode), mode);
            var any := s.indentClassBraces || s.indentEnumBraces || s.indentBlockBraces || s.indentFunctionBraces;
            back.indentClassBraces == any && back.indentEnumBraces == any
            && back.indentBlockBraces == any && back.indentFunctionBraces == any
  {
  }

  /** Switch labels come back as they were; the three relative flags come back as their disjunction. */
  lemma CaseFlagsRoundTrip(project: CppCodeStyleSettings, style: FormatStyle, s: CppCodeStyleSettings, mode: Mode)
    ensures CppSettingsOf(project, StyleWithCppSettings(style, s, mode), mode).indentSwitchLabels == s.indentSwitchLabels
    ensures var back := CppSettingsOf(project, StyleWithCppSettings(style, s, mode), mode);
            var any := s.indentBlocksRelativeToSwitchLabels || s.indentStatementsRelativeToSwitchLabels
                       || s.indentControlFlowRelativeToSwitchLabels;
            back.indentBlocksRelativeToSwitchLabels == any
            && back.indentStatementsRelativeToSwitchLabels == any
            && back.indentControlFlowRelativeToSwitchLabels == any
  {
    var written := StyleWithCppSettings(style, s, mode);
    assert written.indentCaseLabels == s.indentSwitchLabels;
    assert written.indentCaseBlocks == (s.indentBlocksRelativeToSwitchLabels || s.indentStatementsRelativeToSwitchLabels
                                        || s.indentControlFlowRelativeToSwitchLabels);
  }

  /**
   * Extra padding comes back as it was; aligned assignments come back set
   * whenever extra padding was, since both map to breaking before all
   * binary operators.
   */
  lemma BinaryOperatorsRoundTrip(project: CppCodeStyleSettings, style: FormatStyle, s: CppCodeStyleSettings, mode: Mode)
    ensures var back := CppSettingsOf(project, StyleWithCppSettings(style, s, mode), mode);
            back.extraPaddingForConditionsIfConfusingAlign == s.extraPaddingForConditionsIfConfusingAlign
            && back.alignAssignments == (s.extraPaddingForConditionsIfConfusingAlign || s.alignAssignments)
  {
  }

  /**
   * Indented access specifiers come back as they were, except under an
   * indent width of zero, where the offset 0 of an indented specifier is
   * also the negated width and reads as not indented.
   */
  lemma AccessSpecifierRoundTrip(project: CppCodeStyleSettings, style: FormatStyle, s: CppCodeStyleSettings, mode: Mode)
    ensures var back := CppSettingsOf(project, StyleWithCppSettings(style, s, mode), mode);
            back.indentAccessSpecifiers == (s.indentAccessSpecifiers && style.indentWidth != 0)
  {
  }

  /**
   * In the formatting mode, star binding comes back in pairs: binding to the
   * type name or left specifier wins over binding to the identifier or right
   * specifier; with no binding set the project's flags are kept.
   */
  lemma PointerBindingRoundTrip(project: CppCodeStyleSettings, style: FormatStyle, s: CppCodeStyleSettings)
    ensures var back := CppSettingsOf(project, StyleWithCppSettings(style, s, Formatting), Formatting);
            var left := s.bindStarToTypeName || s.bindStarToLeftSpecifier;
            var right := s.bindStarToIdentifier || s.bindStarToRightSpecifier;
            (left || right ==>
               back.bindStarToTypeName == left && back.bindStarToLeftSpecifier == left
               && back.bindStarToIdentifier == !left && back.bindStarToRightSpecifier == !left)
            && (!left && !right ==>
               back.bindStarToTypeName == project.bindStarToTypeName
               && back.bindStarToLeftSpecifier == project.bindStarToLeftSpecifier
               && back.bindStarToIdentifier == project.bindStarToIdentifier
               && back.bindStarToRightSpecifier == project.bindStarToRightSpecifier)
  {
  }

  /**
   * Outside the formatting mode the style's pointer alignment is never
   * written, and reading settings never touches star binding.
   */
  lemma PointerAlignmentOnlyWhenFormatting(project: CppCodeStyleSettings, style: FormatStyle, s: CppCodeStyleSettings, mode: Mode)
    requires mode != Formatting
    ensures StyleWithCppSettings(style, s, mode).pointerAlignment == style.pointerAlignment
    ensures var back := CppSettingsOf(project, style, mode);
            back.bindStarToTypeName == project.bindStarToTypeName
            && back.bindStarToLeftSpecifier == project.bindStarToLeftSpecifier
            && back.bindStarToIdentifier == project.bindStarToIdentifier
            && back.bindStarToRightSpecifier == project.bindStarToRightSpecifier
  {
  }

  /**
   * Settings a clang-format file can express: flags that share an option
   * agree, extra padding implies aligned assignments, star binding comes in
   * one of the two pairs, and indented access specifiers need a non-zero
   * indent width.
   */
  predicate Expressible(s: CppCodeStyleSettings, indentWidth: Width)
  {
    && s.indentNamespaceBody == s.indentNamespaceBraces
    && s.indentClassBraces == s.indentEnumBraces == s.indentBlockBraces == s.indentFunctionBraces
    && s.indentBlocksRelativeToSwitchLabels == s.indentStatementsRelativeToSwitchLabels
       == s.indentControlFlowRelativeToSwitchLabels
    && (s.extraPaddingForConditionsIfConfusingAlign ==> s.alignAssignments)
    && s.bindStarToIdentifier == s.bindStarToRightSpecifier
    && s.bindStarToTypeName == s.bindStarToLeftSpecifier
    && !(s.bindStarToIdentifier && s.bindStarToTypeName)
    && (s.indentAccessSpecifiers ==> indentWidth != 0)
  }

  /**
   * In the formatting mode, the project's settings written into a style and
   * read back are unchanged exactly when the file can express them.
   */
  lemma CppSettingsRoundTrip(style: FormatStyle, s: CppCodeStyleSettings)
    ensures CppSettingsOf(s, StyleWithCppSettings(style, s, Formatting), Formatting) == s
        <==> Expressible(s, style.indentWidth)
  {
    if Expressible(s, style.indentWidth) {
      ExpressibleSettingsRoundTrip(style, s);
    }
    if CppSettingsOf(s, StyleWithCppSettings(style, s, Formatting), Formatting) == s {
      OnlyExpressibleSettingsRoundTrip(style, s);
    }
  }

  lemma ExpressibleSettingsRoundTrip(style: FormatStyle, s: CppCodeStyleSettings)
    requires Expressible(s, style.indentWidth)
    ensures CppSettingsOf(s, StyleWithCppSettings(style, s, Formatting), Formatting) == s
  {
    var back := CppSettingsOf(s, StyleWithCppSettings(style, s, Formatting), Formatting);
    NamespaceFlagsRoundTrip(s, style, s, Formatting);
    BraceFlagsRoundTrip(s, style, s, Formatting);
    CaseFlagsRoundTrip(s, style, s, Formatting);
    BinaryOperatorsRoundTrip(s, style, s, Formatting);
    AccessSpecifierRoundTrip(s, style, s, Formatting);
    PointerBindingRoundTrip(s, style, s);
    SameSettings(back, s);
  }

  lemma SameSettings(a: CppCodeStyleSettings, b: CppCodeStyleSettings)
    requires a.indentBlockBraces == b.indentBlockBraces && a.indentBlockBody == b.indentBlockBody
    requires a.indentClassBraces == b.indentClassBraces && a.indentEnumBraces == b.indentEnumBraces
    requires a.indentNamespaceBraces == b.indentNamespaceBraces && a.indentNamespaceBody == b.indentNamespaceBody
    requires a.indentAccessSpecifiers == b.indentAccessSpecifiers
    requires a.indentDeclarationsRelativeToAccessSpecifiers == b.indentDeclarationsRelativeToAccessSpecifiers
    requires a.indentFunctionBody == b.indentFunctionBody && a.indentFunctionBraces == b.indentFunctionBraces
    requires a.indentSwitchLabels == b.indentSwitchLabels
    requires a.indentStatementsRelativeToSwitchLabels == b.indentStatementsRelativeToSwitchLabels
    requires a.indentBlocksRelativeToSwitchLabels == b.indentBlocksRelativeToSwitchLabels
    requires a.indentControlFlowRelativeToSwitchLabels == b.indentControlFlowRelativeToSwitchLabels
    requires a.bindStarToIdentifier == b.bindStarToIdentifier && a.bindStarToTypeName == b.bindStarToTypeName
    requires a.bindStarToLeftSpecifier == b.bindStarToLeftSpecifier && a.bindStarToRightSpecifier == b.bindStarToRightSpecifier
    requires a.extraPaddingForConditionsIfConfusingAlign == b.extraPaddingForConditionsIfConfusingAlign
    requires a.alignAssignments == b.alignAssignments
    ensures a == b
  {
  }

  lemma OnlyExpressibleSettingsRoundTrip(style: FormatStyle, s: CppCodeStyleSettings)
    requires CppSettingsOf(s, StyleWithCppSettings(style, s, Formatting), Formatting) == s
    ensures Expressible(s, style.indentWidth)
  {
    NamespaceFlagsRoundTrip(s, style, s, Formatting);
    BraceFlagsRoundTrip(s, style, s, Formatting);
    CaseFlagsRoundTrip(s, style, s, Formatting);
    BinaryOperatorsRoundTrip(s, style, s, Formatting);
    AccessSpecifierRoundTrip(s, style, s, Formatting);
    PointerBindingRoundTrip(s, style, s);
  }

  // ---------------------------------------------------------------------
  // The file object

  class ClangFormatFile {
    const library: FormatLibrary
    /** `m_style`. */
    var style: FormatStyle
    /** The contents of the file at `m_filePath`. */
    var fileContents: string
    /** `m_isReadOnly`. */
    var isReadOnly: bool

    /**
     * Opening the file at the plugin's path: a missing file is created with
     * the Qt Creator style; an existing one is parsed as C++, and one that
     * does not parse is overwritten with the Qt Creator style.
     */
    constructor (library: FormatLibrary, existing: Option<string>)
      ensures this.library == library && !isReadOnly
      ensures existing.None? ==> style == library.qtcStyle && fileContents == SavedText(library, library.qtcStyle)
      ensures existing.Some? && ParseFile(library, existing.value).Success? ==>
                style == ParseFile(library, existing.value).value && fileContents == existing.value
      ensures existing.Some? && ParseFile(library, existing.value).Failure? ==>
                style == library.qtcStyle && fileContents == SavedText(library, library.qtcStyle)
    {
      this.library := library;
      style := library.defaultStyle;
      fileContents := [];
      isReadOnly := false;
      new;
      if existing.None? {
        ResetStyleToQtC();
      } else {
        fileContents := existing.value;
        style := style.(language := LK_Cpp);
        var parsed := library.parseConfiguration(fileContents, style);
        if parsed.Failure? {
          ResetStyleToQtC();
        } else {
          style := parsed.value;
        }
      }
    }

    /** `setStyle(FormatStyle)`: replaces the style and saves it unless the file is read-only. */
    method SetStyle(newStyle: FormatStyle)
      modifies this`style, this`fileContents
      ensures style == newStyle
      ensures isReadOnly ==> fileContents == old(fileContents)
      ensures !isReadOnly ==> fileContents == SavedText(library, newStyle)
    {
      style := newStyle;
      SaveNewFormat();
    }

    method SetIsReadOnly(readOnly: bool)
      modifies this`isReadOnly
      ensures isReadOnly == readOnly
    {
      isReadOnly := readOnly;
    }

    /** `resetStyleToQtC`: the Qt Creator style, written whether or not the file is read-only. */
    method ResetStyleToQtC()
      modifies this`style, this`fileContents
      ensures style == library.qtcStyle
      ensures fileContents == SavedText(library, library.qtcStyle)
    {
      style := library.qtcStyle;
      SaveStyleToFile(style);
    }

    /**
     * `setBasedOnStyle`: the style parsed from a one-field document naming
     * the base style over the current one (kept when that does not parse),
     * then saved unless the file is read-only.
     */
    method SetBasedOnStyle(styleName: string)
      modifies this`style, this`fileContents
      ensures var parsed := library.parseConfiguration(FieldsText([("BasedOnStyle", styleName)]), old(style));
              style == (if parsed.Success? then parsed.value else old(style))
      ensures isReadOnly ==> fileContents == old(fileContents)
      ensures !isReadOnly ==> fileContents == SavedText(library, style)
    {
      var _ := ChangeField(("BasedOnStyle", styleName));
      SaveNewFormat();
    }

    /**
     * `setStyle(QString)`: a text that does not parse leaves style and file
     * alone and yields the library's message; one that parses becomes the
     * style, is written as it is unless the file is read-only, and yields
     * the empty message.
     */
    method SetStyleText(text: string) returns (error: string)
      modifies this`style, this`fileContents
      ensures var parsed := library.parseConfiguration(text, old(style));
              && (parsed.Failure? ==> error == parsed.error && style == old(style) && fileContents == old(fileContents))
              && (parsed.Success? ==> error == "" && style == parsed.value)
              && (parsed.Success? && !isReadOnly ==> fileContents == text)
              && (parsed.Success? && isReadOnly ==> fileContents == old(fileContents))
    {
      var parsed := library.parseConfiguration(text, style);
      if parsed.Failure? {
        return parsed.error;
      }
      style := parsed.value;
      SaveNewFormatText(text);
      return "";
    }

    /** `changeField`: `changeFields` of one field. */
    method ChangeField(field: Field) returns (error: string)
      modifies this`style, this`fileContents
      ensures var parsed := library.parseConfiguration(FieldsText([field]), old(style));
              && (parsed.Failure? ==> error == parsed.error && style == old(style) && fileContents == old(fileContents))
              && (parsed.Success? ==> error == "" && style == parsed.value)
              && (parsed.Success? && !isReadOnly ==> fileContents == FieldsText([field]))
              && (parsed.Success? && isReadOnly ==> fileContents == old(fileContents))
    {
      error := ChangeFields([field]);
    }

    /** `changeFields`: the document of the fields, set as the style's text. */
    method ChangeFields(fields: seq<Field>) returns (error: string)
      modifies this`style, this`fileContents
      ensures var parsed := library.parseConfiguration(FieldsText(fields), old(style));
              && (parsed.Failure? ==> error == parsed.error && style == old(style) && fileContents == old(fileContents))
              && (parsed.Success? ==> error == "" && style == parsed.value)
              && (parsed.Success? && !isReadOnly ==> fileContents == FieldsText(fields))
              && (parsed.Success? && isReadOnly ==> fileContents == old(fileContents))
    {
      var content := FieldsDocument(fields);
      error := SetStyleText(content);
    }

    /** `saveNewFormat()`: writes the current style, unless the file is read-only. */
    method SaveNewFormat()
      modifies this`fileContents
      ensures isReadOnly ==> fileContents == old(fileContents)
      ensures !isReadOnly ==> fileContents == SavedText(library, style)
    {
      if isReadOnly {
        return;
      }
      SaveStyleToFile(style);
    }

    /** `saveNewFormat(QByteArray)`: writes the given text, unless the file is read-only. */
    method SaveNewFormatText(text: string)
      modifies this`fileContents
      ensures isReadOnly ==> fileContents == old(fileContents)
      ensures !isReadOnly ==> fileContents == text
    {
      if isReadOnly {
        return;
      }
      fileContents := text;
    }

    /** `saveStyleToFile`: the library's text for the style, with the base style uncommented. */
    method SaveStyleToFile(st: FormatStyle)
      modifies this`fileContents
      ensures fileContents == SavedText(library, st)
    {
      var styleStr := library.configurationAsText(st);
      var pos := Find(styleStr, "# BasedOnStyle");
      if pos.Some? {
        styleStr := Erase(styleStr, pos.value, 2);
      }
      styleStr := styleStr + "\n";
      fileContents := styleStr;
    }

    /**
     * `toCppCodeStyleSettings`: the settings read from the FILE, over the
     * project's; the project's unchanged when the file does not parse. When
     * the file holds what was last saved and the library reads that back,
     * they are the current style's settings.
     */
    function ToCppCodeStyleSettings(project: CppCodeStyleSettings, mode: Mode): (r: CppCodeStyleSettings)
      reads this
      ensures ParseFile(library, fileContents).Failure? ==> r == project
      ensures fileContents == SavedText(library, style) && ReadsBack(library, style) ==>
                r == CppSettingsOf(project, style, mode)
    {
      match ParseFile(library, fileContents)
      case Failure(_) => project
      case Success(parsed) => CppSettingsOf(project, parsed, mode)
    }

    /** `fromCppCodeStyleSettings`: the settings written into the style, then saved unless the file is read-only. */
    method FromCppCodeStyleSettings(settings: CppCodeStyleSettings, mode: Mode)
      modifies this`style, this`fileContents
      ensures style == StyleWithCppSettings(old(style), settings, mode)
      ensures isReadOnly ==> fileContents == old(fileContents)
      ensures !isReadOnly ==> fileContents == SavedText(library, style)
    {
      style := StyleWithCppSettings(style, settings, mode);
      SaveNewFormat();
    }

    /**
     * `toTabSettings`: the tab settings read from the FILE, over the
     * project's; the project's unchanged when the file does not parse. When
     * the file holds what was last saved and the library reads that back,
     * they are the current style's settings.
     */
    function ToTabSettings(project: TabSettings): (r: TabSettings)
      reads this
      ensures ParseFile(library, fileContents).Failure? ==> r == project
      ensures fileContents == SavedText(library, style) && ReadsBack(library, style) ==>
                r == TabSettingsOf(project, style)
    {
      match ParseFile(library, fileContents)
      case Failure(_) => project
      case Success(parsed) => TabSettingsOf(project, parsed)
    }

    /** `fromTabSettings`: the tab settings written into the style, then saved unless the file is read-only. */
    method FromTabSettings(settings: TabSettings)
      modifies this`style, this`fileContents
      ensures style == StyleWithTabSettings(old(style), settings)
      ensures isReadOnly ==> fileContents == old(fileContents)
      ensures !isReadOnly ==> fileContents == SavedText(library, style)
    {
      style := StyleWithTabSettings(style, settings);
      SaveNewFormat();
    }
  }
}
