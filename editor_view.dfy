/**
 * What the editor pane of src/components/Editor.tsx derives from the store: the text shown
 * for the active file (visitor text first, bundled text second), the line-number count, the
 * unsaved marker, the breadcrumb trail, which of the three views is shown, and the
 * one-element-per-line rendering of the highlighter. The typing handler writes through to
 * the store.
 */
module EditorView {
  import opened Text
  import opened Files
  import opened EditorStore

  /** A JavaScript condition on a `string | null`: false for null and for the empty string. */
  predicate Truthy(s: Option<string>)
  {
    s.Some? && s.value != ""
  }

  /** `getContent`: nothing for no file; the visitor's text when the overlay has the name,
      even when that text is empty; the bundled text or its placeholder otherwise. */
  function GetContent(active: Option<string>, userFiles: map<string, string>, bundled: map<string, string>): (r: string)
    ensures !Truthy(active) ==> r == ""
    ensures Truthy(active) && active.value in userFiles ==> r == userFiles[active.value]
    ensures Truthy(active) && active.value !in userFiles ==> r == GetFileContent(bundled, active.value) && r != ""
  {
    if !Truthy(active) then ""
    else if active.value in userFiles then userFiles[active.value]
    else GetFileContent(bundled, active.value)
  }

  /** The text is empty exactly when there is no file or the visitor's text is empty. */
  lemma ContentEmptyIff(active: Option<string>, userFiles: map<string, string>, bundled: map<string, string>)
    ensures GetContent(active, userFiles, bundled) == "" <==>
              (!Truthy(active) || (active.value in userFiles && userFiles[active.value] == ""))
  {
  }

  /** The line-number gutter: one number per line of the text, never fewer than 20. */
  function LineCount(content: string): (r: nat)
    ensures r >= 20
    ensures r >= Count(content, '\n') + 1
    ensures r == Count(content, '\n') + 1 || r == 20
  {
    SplitLength(content, '\n');
    var n := |Split(content, '\n')|;
    if n > 20 then n else 20
  }

  /** `isUserFile`: there is an active file and the overlay has an entry for it. */
  function IsUserFile(active: Option<string>, userFiles: map<string, string>): (r: bool)
    ensures r <==> Truthy(active) && active.value in userFiles
  {
    if Truthy(active) then active.value in userFiles else false
  }

  /** The first tab showing `name`, if any. */
  function FindTab(tabs: seq<Tab>, name: string): (r: Option<Tab>)
    ensures r.Some? ==> r.value in tabs && r.value.name == name
    ensures r.None? <==> name !in Names(tabs)
  {
    if tabs == [] then None
    else if tabs[0].name == name then Some(tabs[0])
    else
      assert Names(tabs) == [tabs[0].name] + Names(tabs[1..]);
      FindTab(tabs[1..], name)
  }

  /** `find` returns the earliest tab with the name: with distinct names, the only one. */
  lemma {:induction false} FindTabFirst(tabs: seq<Tab>, name: string, i: nat)
    requires i < |tabs| && tabs[i].name == name
    requires forall j :: 0 <= j < i ==> tabs[j].name != name
    ensures FindTab(tabs, name) == Some(tabs[i])
  {
    if i > 0 {
      FindTabFirst(tabs[1..], name, i - 1);
    }
  }

  /** `isDirty`: the unsaved flag of the first tab showing the active file; false when there
      is no active file or no tab shows it. */
  function IsDirty(tabs: seq<Tab>, active: Option<string>): (r: bool)
    ensures r ==> active.Some? && exists i :: 0 <= i < |tabs| && tabs[i].name == active.value && tabs[i].isDirty
    ensures active.Some? && active.value !in Names(tabs) ==> !r
  {
    if active.None? then false
    else match FindTab(tabs, active.value)
      case Some(t) => t.isDirty
      case None => false
  }

  /** With the store's tab invariant, the marker is shown exactly when some tab for the active
      file is unsaved. */
  lemma IsDirtyIff(tabs: seq<Tab>, active: Option<string>)
    requires TabsOk(tabs, active)
    ensures IsDirty(tabs, active) <==>
              active.Some? && exists i :: 0 <= i < |tabs| && tabs[i].name == active.value && tabs[i].isDirty
  {
    if active.Some? && exists i :: 0 <= i < |tabs| && tabs[i].name == active.value && tabs[i].isDirty {
      var i :| 0 <= i < |tabs| && tabs[i].name == active.value && tabs[i].isDirty;
      FindTabFirst(tabs, active.value, i);
    }
  }

  const ProjectRoot: string := "anubhav-portfolio"

  /** The breadcrumb table. */
  const BreadcrumbMap: map<string, seq<string>> := map[
    "README.md" := [ProjectRoot],
    "package.json" := [ProjectRoot],
    ".gitignore" := [ProjectRoot],
    "tsconfig.json" := [ProjectRoot],
    ".env.example" := [ProjectRoot],
    "next.config.js" := [ProjectRoot],
    "about.tsx" := [ProjectRoot, "src", "pages"],
    "projects.tsx" := [ProjectRoot, "src", "pages"],
    "skills.yaml" := [ProjectRoot, "src", "data"],
    "resume.json" := [ProjectRoot, "src", "data"],
    "experience.sql" := [ProjectRoot, "src", "data"],
    "contact.ts" := [ProjectRoot, "src", "api"]
  ]

  /** `getBreadcrumbPath`: the folders listed for a known name, `anubhav-portfolio > src`
      for any other. Every trail starts at the project folder. */
  function BreadcrumbPath(name: string): (r: seq<string>)
    ensures name in BreadcrumbMap ==> r == BreadcrumbMap[name]
    ensures name !in BreadcrumbMap ==> r == [ProjectRoot, "src"]
    ensures 1 <= |r| <= 3 && r[0] == ProjectRoot
  {
    if name in BreadcrumbMap then BreadcrumbMap[name] else [ProjectRoot, "src"]
  }

  /** The whole trail above the text: folders then the file itself, or nothing without a file. */
  function Breadcrumbs(active: Option<string>): (r: seq<string>)
    ensures !Truthy(active) <==> r == []
    ensures Truthy(active) ==> r == BreadcrumbPath(active.value) + [active.value] && r[|r| - 1] == active.value
  {
    if Truthy(active) then BreadcrumbPath(active.value) + [active.value] else []
  }

  datatype Pane = EmptyState | TextArea | Highlighted

  /** No tabs: the empty state, whatever the active file; otherwise a text area while editing
      or for a visitor's file. */
  function PaneShown(tabs: seq<Tab>, isEditing: bool, isUserFile: bool): (r: Pane)
    ensures r == EmptyState <==> tabs == []
    ensures r == TextArea <==> tabs != [] && (isEditing || isUserFile)
  {
    if tabs == [] then EmptyState
    else if isEditing || isUserFile then TextArea
    else Highlighted
  }

  /** The extensions the highlighter has patterns for. */
  const HighlightedExtensions: set<string> := {"ts", "tsx", "js", "jsx", "json", "yaml", "yml", "sql", "md"}

  /** One rendered line: `&nbsp;` for an empty line, the line's text itself when its
      extension has no patterns, the extension's markup otherwise. */
  datatype LineHtml = NonBreakingSpace | Raw(text: string) | Markup(ext: string, source: string)

  function RenderLine(line: string, ext: string): (r: LineHtml)
    ensures r == NonBreakingSpace <==> line == ""
    ensures r.Raw? ==> r.text == line && ext !in HighlightedExtensions
    ensures r.Markup? ==> r.source == line && r.ext == ext && ext in HighlightedExtensions
    ensures line != "" ==> (r.Markup? <==> ext in HighlightedExtensions)
  {
    if line == "" then NonBreakingSpace
    else if ext in HighlightedExtensions then Markup(ext, line)
    else Raw(line)
  }

  /** `highlightSyntax`: one element per line of the text, in order. */
  function HighlightSyntax(content: string, filename: string): (r: seq<LineHtml>)
    ensures |r| == |Split(content, '\n')| == Count(content, '\n') + 1
    ensures Extension(filename) !in HighlightedExtensions ==>
              forall i :: 0 <= i < |r| ==>
                r[i] == (if Split(content, '\n')[i] == "" then NonBreakingSpace else Raw(Split(content, '\n')[i]))
  {
    SplitLength(content, '\n');
    var lines := Split(content, '\n');
    var ext := Extension(filename);
    seq(|lines|, i requires 0 <= i < |lines| => RenderLine(lines[i], ext))
  }

  /** The source line an element was rendered from (an empty line for `&nbsp;`). */
  function Unrender(h: LineHtml): string
  {
    match h
    case NonBreakingSpace => ""
    case Raw(t) => t
    case Markup(_, s) => s
  }

  /** Rendering loses no line: the lines the elements come from, joined, are the text. */
  lemma HighlightKeepsText(content: string, filename: string)
    ensures var r := HighlightSyntax(content, filename);
            Join(seq(|r|, i requires 0 <= i < |r| => Unrender(r[i])), "\n") == content
  {
    var r := HighlightSyntax(content, filename);
    var lines := Split(content, '\n');
    assert seq(|r|, i requires 0 <= i < |r| => Unrender(r[i])) == lines;
    JoinSplit(content, '\n');
  }

  /** Every rendered line gets a number in the gutter. */
  lemma GutterCoversLines(content: string, filename: string)
    ensures |HighlightSyntax(content, filename)| <= LineCount(content)
  {
  }

  /** The editor pane's own state: the text in the text area and whether it has focus. */
  class EditorPane {
    var editableContent: string
    var isEditing: bool

    constructor (initial: string)
      ensures editableContent == initial && !isEditing
    {
      editableContent := initial;
      isEditing := false;
    }

    /** The effect run when the active file changes: the text area is refilled. */
    method Reload(store: EditorState, bundled: map<string, string>)
      modifies this`editableContent
      ensures editableContent == GetContent(store.activeFile, store.userFiles, bundled)
    {
      editableContent := GetContent(store.activeFile, store.userFiles, bundled);
    }

    method Focus()
      modifies this`isEditing
      ensures isEditing
    {
      isEditing := true;
    }

    method Blur()
      modifies this`isEditing
      ensures !isEditing
    {
      isEditing := false;
    }

    /** `handleContentChange`: the text area takes the new text and, when a file is active,
        the store records it as that file's text and marks its tabs unsaved. */
    method HandleContentChange(store: EditorState, value: string)
      requires store.Valid()
      modifies this`editableContent, store`userFiles, store`tabs
      ensures store.Valid()
      ensures editableContent == value
      ensures Truthy(old(store.activeFile)) ==>
                store.userFiles == old(store.userFiles)[old(store.activeFile).value := value]
                && store.tabs == MarkDirty(old(store.tabs), old(store.activeFile).value)
      ensures !Truthy(old(store.activeFile)) ==> store.userFiles == old(store.userFiles) && store.tabs == old(store.tabs)
    {
      editableContent := value;
      if Truthy(store.activeFile) {
        store.UpdateFileContent(store.activeFile.value, value);
      }
    }
  }
}
