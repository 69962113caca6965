/**
 * The command palette of src/components/CommandPalette.tsx: the fixed command list, the
 * case-insensitive filter, the grouping by category (a loop filling a dictionary), the
 * selection cursor moved by the arrow keys, and running the selected command.
 */
module CommandPalette {
  import opened Text
  import opened ThemeStore
  import opened EditorStore

  /** What a command does when run. Opening a browser window is an effect the caller
      performs; the others are store actions. */
  datatype Action =
    | OpenFileAction(file: string)
    | ToggleThemeAction
    | ToggleSidebarAction
    | ToggleTerminalAction
    | ShowPanel(panel: Panel)
    | OpenWindow(url: string)

  datatype Command = Command(id: string, caption: string, shortcut: Option<string>, category: string, action: Action)

  function FileCommand(id: string, file: string): Command
  {
    Command(id, "Open " + file, None, "Files", OpenFileAction(file))
  }

  /** The palette's commands in declaration order; the theme command names the theme it
      switches to. */
  function Commands(theme: Theme): (r: seq<Command>)
    ensures |r| == 18
  {
    [
      FileCommand("open-about", "about.md"),
      FileCommand("open-projects", "projects.json"),
      FileCommand("open-skills", "skills.ts"),
      FileCommand("open-experience", "experience.yaml"),
      FileCommand("open-contact", "contact.jsx"),
      FileCommand("open-readme", "README.md"),
      Command("toggle-theme", "Switch to " + (if theme == Dark then "Light" else "Dark") + " Theme",
              Some("Ctrl+K"), "View", ToggleThemeAction),
      Command("toggle-sidebar", "Toggle Sidebar", Some("Ctrl+B"), "View", ToggleSidebarAction),
      Command("toggle-terminal", "Toggle Terminal", Some("Ctrl+`"), "View", ToggleTerminalAction),
      Command("show-explorer", "Show Explorer", None, "Panels", ShowPanel(Explorer)),
      Command("show-search", "Show Search", None, "Panels", ShowPanel(Search)),
      Command("show-extensions", "Show Extensions", None, "Panels", ShowPanel(Extensions)),
      Command("show-ai", "Show AI Assistant", None, "Panels", ShowPanel(Ai)),
      Command("show-account", "Show Account", None, "Panels", ShowPanel(Account)),
      Command("open-github", "Open GitHub Profile", None, "Links", OpenWindow("https://github.com/anubhav-n-mishra")),
      Command("open-linkedin", "Open LinkedIn Profile", None, "Links", OpenWindow("https://linkedin.com/in/anubhav-mishra0")),
      Command("send-email", "Send Email", None, "Links", OpenWindow("mailto:anubhav09.work@gmail.com")),
      Command("download-resume", "Download Resume", None, "Actions", OpenWindow("/Anubhav_Mishra.pdf"))
    ]
  }

  // ---------------------------------------------------------------- filteredCommands

  /** A command matches when its label or its category contains the query, ignoring case. */
  predicate Matches(c: Command, query: string)
  {
    Contains(Lower(c.caption), Lower(query)) || Contains(Lower(c.category), Lower(query))
  }

  function KeepMatching(cmds: seq<Command>, query: string): (r: seq<Command>)
    ensures |r| <= |cmds|
    ensures forall i :: 0 <= i < |r| ==> r[i] in cmds && Matches(r[i], query)
    ensures forall i :: 0 <= i < |cmds| && Matches(cmds[i], query) ==> cmds[i] in r
  {
    if cmds == [] then []
    else (if Matches(cmds[0], query) then [cmds[0]] else []) + KeepMatching(cmds[1..], query)
  }

  /** `filteredCommands`: every command for an empty query, the matching ones otherwise. */
  function FilteredCommands(cmds: seq<Command>, query: string): (r: seq<Command>)
    ensures query == "" ==> r == cmds
    ensures query != "" ==> r == KeepMatching(cmds, query)
  {
    if query == "" then cmds else KeepMatching(cmds, query)
  }

  lemma {:induction false} SubsequenceRefl<T>(a: seq<T>)
    ensures Subsequence(a, a)
  {
    if a != [] {
      SubsequenceRefl(a[1..]);
    }
  }

  lemma {:induction false} KeepMatchingSubsequence(cmds: seq<Command>, query: string)
    ensures Subsequence(KeepMatching(cmds, query), cmds)
  {
    if cmds != [] {
      KeepMatchingSubsequence(cmds[1..], query);
      var rest := KeepMatching(cmds[1..], query);
      if Matches(cmds[0], query) {
        assert KeepMatching(cmds, query) == [cmds[0]] + rest;
        assert ([cmds[0]] + rest)[1..] == rest;
      } else {
        assert KeepMatching(cmds, query) == rest;
      }
    }
  }

  /** The filter keeps the commands' relative order. */
  lemma FilterIsSubsequence(cmds: seq<Command>, query: string)
    ensures Subsequence(FilteredCommands(cmds, query), cmds)
  {
    if query == "" {
      SubsequenceRefl(cmds);
    } else {
      KeepMatchingSubsequence(cmds, query);
    }
  }

  /** Exactly the matching commands remain, for any query. */
  lemma FilterSoundComplete(cmds: seq<Command>, query: string, c: Command)
    ensures c in FilteredCommands(cmds, query) <==> c in cmds && Matches(c, query)
  {
    if query == "" {
      EverythingMatchesEmpty(c);
    }
  }

  lemma EverythingMatchesEmpty(c: Command)
    ensures Matches(c, "")
  {
    assert Lower("") == "";
    assert StartsWith(Lower(c.caption), "");
  }

  /** The empty-query shortcut changes nothing: filtering by the empty query keeps everything. */
  lemma {:induction false} EmptyQueryKeepsAll(cmds: seq<Command>)
    ensures KeepMatching(cmds, "") == cmds
  {
    if cmds != [] {
      EverythingMatchesEmpty(cmds[0]);
      EmptyQueryKeepsAll(cmds[1..]);
    }
  }

  // ---------------------------------------------------------------- groupedCommands

  /** The commands of one category, in order (defined from the end, the way the loop extends it). */
  function OfCategory(cmds: seq<Command>, cat: string): seq<Command>
  {
    if cmds == [] then [] else
      var last := cmds[|cmds| - 1];
      OfCategory(cmds[..|cmds| - 1], cat) + (if last.category == cat then [last] else [])
  }

  /** The categories in order of first appearance: the key order of the grouping object. */
  function CategoryOrder(cmds: seq<Command>): seq<string>
  {
    if cmds == [] then [] else
      var o := CategoryOrder(cmds[..|cmds| - 1]);
      var cat := cmds[|cmds| - 1].category;
      if cat in o then o else o + [cat]
  }

  /** A group holds exactly the commands of its category: each command is in its own group
      and in no other. */
  lemma {:induction false} OfCategoryMembers(cmds: seq<Command>, cat: string)
    ensures forall c :: c in OfCategory(cmds, cat) <==> c in cmds && c.category == cat
  {
    if cmds != [] {
      var prefix := cmds[..|cmds| - 1];
      OfCategoryMembers(prefix, cat);
      assert cmds == prefix + [cmds[|cmds| - 1]];
    }
  }

  /** The key order lists each category of the commands once. */
  lemma {:induction false} CategoryOrderMembers(cmds: seq<Command>)
    ensures forall cat :: cat in CategoryOrder(cmds) <==> exists c :: c in cmds && c.category == cat
    ensures forall k, l :: 0 <= k < l < |CategoryOrder(cmds)| ==> CategoryOrder(cmds)[k] != CategoryOrder(cmds)[l]
  {
    if cmds != [] {
      var prefix := cmds[..|cmds| - 1];
      CategoryOrderMembers(prefix);
      assert cmds == prefix + [cmds[|cmds| - 1]];
    }
  }

  /** Each group keeps the relative order of its commands. */
  lemma {:induction false} OfCategorySubsequence(cmds: seq<Command>, cat: string)
    ensures Subsequence(OfCategory(cmds, cat), cmds)
  {
    if cmds != [] {
      var prefix := cmds[..|cmds| - 1];
      var last := cmds[|cmds| - 1];
      OfCategorySubsequence(prefix, cat);
      assert cmds == prefix + [last];
      if last.category == cat {
        SubsequenceSnoc(OfCategory(prefix, cat), prefix, last);
      } else {
        assert OfCategory(cmds, cat) == OfCategory(prefix, cat);
        SubsequenceExtend(OfCategory(prefix, cat), prefix, last);
      }
    }
  }

  lemma {:induction false} SubsequenceSnoc<T>(a: seq<T>, b: seq<T>, x: T)
    requires Subsequence(a, b)
    ensures Subsequence(a + [x], b + [x])
    decreases |b|
  {
    if a == [] {
      assert a + [x] == [x];
      SubsequenceOfOne(x, b);
    } else {
      assert (a + [x])[0] == a[0] && (a + [x])[1..] == a[1..] + [x];
      assert (b + [x])[0] == b[0] && (b + [x])[1..] == b[1..] + [x];
      if a[0] == b[0] && Subsequence(a[1..], b[1..]) {
        SubsequenceSnoc(a[1..], b[1..], x);
      } else {
        SubsequenceSnoc(a, b[1..], x);
      }
    }
  }

  lemma {:induction false} SubsequenceOfOne<T>(x: T, b: seq<T>)
    ensures Subsequence([x], b + [x])
    decreases |b|
  {
    if b == [] {
      assert ([x] + [])[1..] == [];
    } else {
      assert (b + [x])[1..] == b[1..] + [x];
      SubsequenceOfOne(x, b[1..]);
    }
  }

  lemma {:induction false} SubsequenceExtend<T>(a: seq<T>, b: seq<T>, x: T)
    requires Subsequence(a, b)
    ensures Subsequence(a, b + [x])
    decreases |b|
  {
    if a != [] {
      assert (b + [x])[0] == b[0] && (b + [x])[1..] == b[1..] + [x];
      if a[0] == b[0] && Subsequence(a[1..], b[1..]) {
        SubsequenceExtend(a[1..], b[1..], x);
      } else {
        SubsequenceExtend(a, b[1..], x);
      }
    }
  }

  lemma OfCategorySnoc(cmds: seq<Command>, x: Command, cat: string)
    ensures OfCategory(cmds + [x], cat) == OfCategory(cmds, cat) + (if x.category == cat then [x] else [])
  {
    assert (cmds + [x])[..|cmds|] == cmds;
  }

  lemma CategoryOrderSnoc(cmds: seq<Command>, x: Command)
    ensures CategoryOrder(cmds + [x]) ==
            (if x.category in CategoryOrder(cmds) then CategoryOrder(cmds) else CategoryOrder(cmds) + [x.category])
  {
    assert (cmds + [x])[..|cmds|] == cmds;
  }

  /** A category absent from the order has no commands. */
  lemma OfMissingCategory(cmds: seq<Command>, cat: string)
    requires cat !in CategoryOrder(cmds)
    ensures OfCategory(cmds, cat) == []
  {
    CategoryOrderMembers(cmds);
    OfCategoryMembers(cmds, cat);
  }

  /** `groups` and `order` are the grouping of `cmds`: one list per category, keyed in order
      of first appearance. */
  ghost predicate Grouped(groups: map<string, seq<Command>>, order: seq<string>, cmds: seq<Command>)
  {
    && order == CategoryOrder(cmds)
    && (forall cat :: cat in groups <==> cat in order)
    && (forall cat :: cat in groups ==> groups[cat] == OfCategory(cmds, cat))
  }

  /** One step of the grouping loop keeps the grouping. */
  lemma GroupedSnoc(groups: map<string, seq<Command>>, order: seq<string>, cmds: seq<Command>, c: Command)
    requires Grouped(groups, order, cmds)
    ensures var sofar := if c.category in groups then groups[c.category] else [];
            Grouped(groups[c.category := sofar + [c]],
                    if c.category in groups then order else order + [c.category],
                    cmds + [c])
  {
    CategoryOrderSnoc(cmds, c);
    forall cat
      ensures OfCategory(cmds + [c], cat) == OfCategory(cmds, cat) + (if c.category == cat then [c] else [])
    {
      OfCategorySnoc(cmds, c, cat);
    }
    if c.category !in groups {
      OfMissingCategory(cmds, c.category);
    }
  }

  /** The `reduce` of the source: one pass that appends each command to its category's list,
      creating the list on the category's first appearance. */
  method GroupCommands(cmds: seq<Command>) returns (groups: map<string, seq<Command>>, order: seq<string>)
    ensures order == CategoryOrder(cmds)
    ensures forall cat :: cat in groups <==> cat in order
    ensures forall cat :: cat in groups ==> groups[cat] == OfCategory(cmds, cat)
  {
    groups, order := map[], [];
    var i := 0;
    while i < |cmds|
      invariant 0 <= i <= |cmds|
      invariant Grouped(groups, order, cmds[..i])
    {
      var c := cmds[i];
      GroupedSnoc(groups, order, cmds[..i], c);
      PrefixSnoc(cmds, i);
      var sofar: seq<Command> := [];
      if c.category in groups {
        sofar := groups[c.category];
      } else {
        order := order + [c.category];
      }
      groups := groups[c.category := sofar + [c]];
      i := i + 1;
    }
    assert cmds[..i] == cmds;
  }

  // ---------------------------------------------------------------- the selection cursor

  /** ArrowDown: one further, but not past the last command (`-1` when there is none). */
  function CursorDown(i: int, n: nat): (r: int)
    ensures r <= i + 1 && r <= n - 1
    ensures r == i + 1 || r == n - 1
  {
    if i + 1 < n - 1 then i + 1 else n - 1
  }

  /** ArrowUp: one back, but not before the first. */
  function CursorUp(i: int): (r: int)
    ensures r >= 0 && r >= i - 1
    ensures r == 0 || r == i - 1
  {
    if i - 1 > 0 then i - 1 else 0
  }

  /** Within a non-empty list the cursor stays in range; on an empty list ArrowDown gives -1. */
  lemma CursorStaysInRange(i: int, n: nat)
    requires 0 <= i < n
    ensures 0 <= CursorDown(i, n) < n && 0 <= CursorUp(i) < n
    ensures i < n - 1 ==> CursorDown(i, n) == i + 1
    ensures i > 0 ==> CursorUp(i) == i - 1
  {
  }

  lemma CursorOnEmptyList(i: int)
    requires i >= -1
    ensures CursorDown(i, 0) == -1
    ensures CursorUp(CursorDown(i, 0)) == 0
  {
  }

  datatype Key = ArrowDown | ArrowUp | Enter | Escape | OtherKey

  /** The palette's local state; whether it is open is held by the layout around it. */
  class Palette {
    var isOpen: bool
    var query: string
    var selectedIndex: int

    constructor ()
      ensures !isOpen && query == "" && selectedIndex == 0
    {
      isOpen, query, selectedIndex := false, "", 0;
    }

    /** Opening resets the query and the selection. */
    method Open()
      modifies this
      ensures isOpen && query == "" && selectedIndex == 0
    {
      isOpen, query, selectedIndex := true, "", 0;
    }

    /** Every change of the query puts the selection back on the first command. */
    method SetQuery(q: string)
      modifies this`query, this`selectedIndex
      ensures query == q && selectedIndex == 0
    {
      query, selectedIndex := q, 0;
    }

    /** A key press in the query box. Enter hands back the selected command's action and
        closes the palette only when the selection addresses a listed command; Escape closes. */
    method KeyDown(key: Key, theme: Theme) returns (run: Option<Action>)
      modifies this`selectedIndex, this`isOpen
      ensures var shown := FilteredCommands(Commands(theme), query);
              && (key == ArrowDown ==> selectedIndex == CursorDown(old(selectedIndex), |shown|) && isOpen == old(isOpen))
              && (key == ArrowUp ==> selectedIndex == CursorUp(old(selectedIndex)) && isOpen == old(isOpen))
              && (key == Enter && 0 <= old(selectedIndex) < |shown| ==>
                    run == Some(shown[old(selectedIndex)].action) && !isOpen)
              && (key == Enter && !(0 <= old(selectedIndex) < |shown|) ==> isOpen == old(isOpen))
              && (key == Escape ==> !isOpen)
              && (key != Enter ==> run == None)
              && (key != ArrowDown && key != ArrowUp ==> selectedIndex == old(selectedIndex))
              && (key == OtherKey ==> isOpen == old(isOpen))
    {
      var shown := FilteredCommands(Commands(theme), query);
      run := None;
      match key {
        case ArrowDown => selectedIndex := CursorDown(selectedIndex, |shown|);
        case ArrowUp => selectedIndex := CursorUp(selectedIndex);
        case Enter =>
          if 0 <= selectedIndex < |shown| {
            run := Some(shown[selectedIndex].action);
            isOpen := false;
          }
        case Escape => isOpen := false;
        case OtherKey =>
      }
    }
  }

  /** Runs a command's action against the stores; a browser-window command hands back the
      address to open. */
  method Perform(a: Action, store: EditorState, look: Appearance) returns (window: Option<string>)
    requires store.Valid()
    modifies store`tabs, store`activeFile, store`sidebarPanel, store`sidebarOpen, store`terminalOpen, look`theme
    ensures store.Valid()
    ensures a.OpenWindow? <==> window.Some?
    ensures a.OpenWindow? ==> window == Some(a.url)
    ensures a.OpenFileAction? ==> store.tabs == OpenTabs(old(store.tabs), a.file) && store.activeFile == Some(a.file)
    ensures !a.OpenFileAction? ==> unchanged(store`tabs, store`activeFile)
    ensures !a.ShowPanel? ==> unchanged(store`sidebarPanel)
    ensures a != ToggleSidebarAction && !a.ShowPanel? ==> unchanged(store`sidebarOpen)
    ensures a != ToggleTerminalAction ==> unchanged(store`terminalOpen)
    ensures a == ToggleThemeAction ==> look.theme == Other(old(look.theme))
    ensures a != ToggleThemeAction ==> look.theme == old(look.theme)
    ensures a == ToggleSidebarAction ==> store.sidebarOpen == !old(store.sidebarOpen)
    ensures a == ToggleTerminalAction ==> store.terminalOpen == !old(store.terminalOpen)
    ensures a.ShowPanel? ==>
              (store.sidebarPanel, store.sidebarOpen) == SelectPanel(old(store.sidebarPanel), old(store.sidebarOpen), a.panel)
  {
    window := None;
    match a {
      case OpenFileAction(f) => store.OpenFile(f);
      case ToggleThemeAction => look.ToggleTheme();
      case ToggleSidebarAction => store.ToggleSidebar();
      case ToggleTerminalAction => store.ToggleTerminal();
      case ShowPanel(p) => store.SetSidebarPanel(p);
      case OpenWindow(u) => window := Some(u);
    }
  }
}
