/**
 * The editor store of src/store/editor.ts: open tabs, the active file, the side bar and
 * terminal panels, the explorer tree, the command palette and simple-browser flags and the
 * text of files the visitor created or edited. The tab bookkeeping is written as functions
 * on the tab list, each paired with the invariant it keeps; the store itself is a class
 * whose methods are the store's actions.
 */
module EditorStore {
  import opened Text
  import opened EditorTree

  datatype Tab = Tab(id: string, name: string, path: string, isActive: bool, isDirty: bool)

  datatype Panel = Explorer | Search | Git | Extensions | Ai | Account

  function Names(tabs: seq<Tab>): (r: seq<string>)
    ensures |r| == |tabs|
    ensures forall i :: 0 <= i < |tabs| ==> r[i] == tabs[i].name
  {
    seq(|tabs|, i requires 0 <= i < |tabs| => tabs[i].name)
  }

  /** No two tabs show the same file. */
  ghost predicate DistinctNames(tabs: seq<Tab>)
  {
    forall i, j :: 0 <= i < j < |tabs| ==> tabs[i].name != tabs[j].name
  }

  /** The invariant the tab actions keep: names are distinct, a tab is highlighted exactly
      when it shows the active file, and there is no active file only when no tab is open. */
  ghost predicate TabsOk(tabs: seq<Tab>, active: Option<string>)
  {
    && DistinctNames(tabs)
    && (forall i :: 0 <= i < |tabs| ==> (tabs[i].isActive <==> active == Some(tabs[i].name)))
    && (active == None ==> tabs == [])
  }

  /** The tab `openFile` adds for a file that has none: its id is the name with every `.`
      replaced by `-`, its path is the name after a slash. */
  function NewTab(name: string): (r: Tab)
    ensures r.name == name && r.path == "/" + name && r.isActive && !r.isDirty
    ensures |r.id| == |name| && '.' !in r.id
    ensures forall i :: 0 <= i < |name| ==> r.id[i] == (if name[i] == '.' then '-' else name[i])
  {
    Tab(ReplaceChar(name, '.', '-'), name, "/" + name, true, false)
  }

  /** Highlights exactly the tabs named `name`, changing nothing else about any tab. */
  function ActivateOnly(tabs: seq<Tab>, name: string): (r: seq<Tab>)
    ensures Names(r) == Names(tabs)
    ensures forall i :: 0 <= i < |r| ==> (r[i].isActive <==> tabs[i].name == name)
    ensures forall i :: 0 <= i < |r| ==> r[i].(isActive := tabs[i].isActive) == tabs[i]
  {
    seq(|tabs|, i requires 0 <= i < |tabs| => tabs[i].(isActive := tabs[i].name == name))
  }

  /** `openFile`: an open file's tab is highlighted; otherwise every tab is dimmed and a new
      highlighted tab is appended. */
  function OpenTabs(tabs: seq<Tab>, name: string): (r: seq<Tab>)
    ensures name in Names(r)
    ensures forall i :: 0 <= i < |r| ==> (r[i].isActive <==> r[i].name == name)
    ensures name in Names(tabs) ==> Names(r) == Names(tabs)
    ensures name !in Names(tabs) ==> Names(r) == Names(tabs) + [name] && r[|tabs|] == NewTab(name)
    ensures forall i :: 0 <= i < |tabs| ==> r[i].(isActive := tabs[i].isActive) == tabs[i]
  {
    if name in Names(tabs) then ActivateOnly(tabs, name)
    else
      var r := ActivateOnly(tabs, name) + [NewTab(name)];
      assert Names(r)[|tabs|] == name;
      r
  }

  /** `tabs.filter(t => t.name !== name)` */
  function RemoveNamed(tabs: seq<Tab>, name: string): (r: seq<Tab>)
    ensures |r| <= |tabs|
    ensures forall i :: 0 <= i < |r| ==> r[i].name != name && r[i] in tabs
    ensures forall i :: 0 <= i < |tabs| && tabs[i].name != name ==> tabs[i] in r
  {
    if tabs == [] then []
    else (if tabs[0].name == name then [] else [tabs[0]]) + RemoveNamed(tabs[1..], name)
  }

  /** `closeFile`: drops the file's tabs. When none remain there is no active file; when the
      closed file was the active one, the last remaining tab becomes active; otherwise the
      active file stays. */
  function CloseTabs(tabs: seq<Tab>, active: Option<string>, name: string): (r: (seq<Tab>, Option<string>))
    ensures name !in Names(r.0)
    ensures Names(r.0) == Names(RemoveNamed(tabs, name))
    ensures r.0 == [] <==> RemoveNamed(tabs, name) == []
    ensures r.0 == [] ==> r.1 == None
    ensures r.0 != [] && active == Some(name) ==>
              r.1 == Some(r.0[|r.0| - 1].name) && r.0 == ActivateOnly(RemoveNamed(tabs, name), r.0[|r.0| - 1].name)
    ensures r.0 != [] && active != Some(name) ==> r == (RemoveNamed(tabs, name), active)
  {
    var kept := RemoveNamed(tabs, name);
    if kept == [] then ([], None)
    else if active == Some(name) then
      var last := kept[|kept| - 1].name;
      (ActivateOnly(kept, last), Some(last))
    else (kept, active)
  }

  /** `updateFileContent` on the tabs: those showing the file are marked unsaved. */
  function MarkDirty(tabs: seq<Tab>, name: string): (r: seq<Tab>)
    ensures Names(r) == Names(tabs)
    ensures forall i :: 0 <= i < |r| ==> r[i].isDirty == (tabs[i].isDirty || tabs[i].name == name)
    ensures forall i :: 0 <= i < |r| ==> r[i].(isDirty := tabs[i].isDirty) == tabs[i]
  {
    seq(|tabs|, i requires 0 <= i < |tabs| => if tabs[i].name == name then tabs[i].(isDirty := true) else tabs[i])
  }

  /** `setSidebarPanel`: choosing the panel already shown in an open side bar closes the
      side bar; any other choice shows that panel in an open side bar. */
  function SelectPanel(current: Panel, open: bool, p: Panel): (r: (Panel, bool))
    ensures r.1 <==> !(current == p && open)
    ensures r.1 ==> r.0 == p
    ensures !r.1 ==> r.0 == current
  {
    if current == p && open then (current, false) else (p, true)
  }

  // ---------------------------------------------------------------- properties of the tab functions

  lemma NewNameKeepsDistinct(tabs: seq<Tab>, name: string)
    requires DistinctNames(tabs) && name !in Names(tabs)
    ensures DistinctNames(tabs + [NewTab(name)])
  {
    var t := tabs + [NewTab(name)];
    forall i, j | 0 <= i < j < |t|
      ensures t[i].name != t[j].name
    {
      if j == |tabs| {
        assert Names(tabs)[i] == t[i].name;
      }
    }
  }

  lemma OpenKeepsOk(tabs: seq<Tab>, active: Option<string>, name: string)
    requires TabsOk(tabs, active)
    ensures TabsOk(OpenTabs(tabs, name), Some(name))
  {
    var r := OpenTabs(tabs, name);
    if name !in Names(tabs) {
      NewNameKeepsDistinct(ActivateOnly(tabs, name), name);
    }
    assert forall i :: 0 <= i < |r| ==> r[i].name == Names(r)[i];
  }

  /** Opening a file whose tab is already shown and highlighted changes nothing. */
  lemma OpenIdempotent(tabs: seq<Tab>, name: string)
    ensures OpenTabs(OpenTabs(tabs, name), name) == OpenTabs(tabs, name)
  {
    var once := OpenTabs(tabs, name);
    var twice := OpenTabs(once, name);
    assert |twice| == |once|;
    forall i | 0 <= i < |once|
      ensures twice[i] == once[i]
    {
      assert once[i].name == Names(once)[i];
    }
  }

  lemma {:induction false} RemoveNamedDistinct(tabs: seq<Tab>, name: string)
    requires DistinctNames(tabs)
    ensures DistinctNames(RemoveNamed(tabs, name))
  {
    if tabs != [] {
      RemoveNamedDistinct(tabs[1..], name);
      var rest := RemoveNamed(tabs[1..], name);
      if tabs[0].name != name {
        forall j | 0 <= j < |rest|
          ensures tabs[0].name != rest[j].name
        {
          var k :| 0 <= k < |tabs[1..]| && tabs[1..][k] == rest[j];
          assert tabs[k + 1] == rest[j];
        }
      }
    }
  }

  /** The filter keeps the remaining tabs in their order. */
  lemma {:induction false} RemoveNamedKeepsOrder(tabs: seq<Tab>, name: string)
    ensures Subsequence(RemoveNamed(tabs, name), tabs)
  {
    if tabs != [] {
      RemoveNamedKeepsOrder(tabs[1..], name);
      var rest := RemoveNamed(tabs[1..], name);
      if tabs[0].name != name {
        assert RemoveNamed(tabs, name) == [tabs[0]] + rest;
        assert ([tabs[0]] + rest)[1..] == rest;
      } else {
        assert RemoveNamed(tabs, name) == rest;
      }
    }
  }

  /** Filtering a concatenation filters each part. */
  lemma {:induction false} RemoveNamedConcat(a: seq<Tab>, b: seq<Tab>, name: string)
    ensures RemoveNamed(a + b, name) == RemoveNamed(a, name) + RemoveNamed(b, name)
  {
    if a == [] {
      assert a + b == b;
    } else {
      assert (a + b)[0] == a[0] && (a + b)[1..] == a[1..] + b;
      RemoveNamedConcat(a[1..], b, name);
    }
  }

  /** `tabs[j]` is the last tab not named `name`. */
  ghost predicate LastOther(tabs: seq<Tab>, name: string, j: int)
  {
    0 <= j < |tabs| && tabs[j].name != name && forall k :: j < k < |tabs| ==> tabs[k].name == name
  }

  /** The last tab the filter keeps is the last tab of the list with another name. */
  lemma {:induction false} RemoveNamedLast(tabs: seq<Tab>, name: string)
    requires RemoveNamed(tabs, name) != []
    ensures var kept := RemoveNamed(tabs, name);
            exists j :: LastOther(tabs, name, j) && kept[|kept| - 1] == tabs[j]
  {
    var kept := RemoveNamed(tabs, name);
    var init, x := tabs[..|tabs| - 1], tabs[|tabs| - 1];
    var front := RemoveNamed(init, name);
    RemoveNamedSnoc(tabs, name);
    if x.name != name {
      assert kept == front + [x];
      assert kept[|kept| - 1] == tabs[|tabs| - 1];
      assert LastOther(tabs, name, |tabs| - 1);
    } else {
      assert kept == front + [];
      assert kept == front;
      RemoveNamedLast(init, name);
      var j :| LastOther(init, name, j) && front[|front| - 1] == init[j];
      LastOtherExtend(tabs, name, j);
    }
  }

  lemma RemoveNamedSnoc(tabs: seq<Tab>, name: string)
    requires tabs != []
    ensures var x := tabs[|tabs| - 1];
            RemoveNamed(tabs, name) == RemoveNamed(tabs[..|tabs| - 1], name) + (if x.name != name then [x] else [])
  {
    var init, x := tabs[..|tabs| - 1], tabs[|tabs| - 1];
    assert tabs == init + [x];
    RemoveNamedConcat(init, [x], name);
    assert [x][1..] == [];
  }

  lemma LastOtherExtend(tabs: seq<Tab>, name: string, j: int)
    requires tabs != [] && LastOther(tabs[..|tabs| - 1], name, j) && tabs[|tabs| - 1].name == name
    ensures LastOther(tabs, name, j) && tabs[j] == tabs[..|tabs| - 1][j]
  {
    var init := tabs[..|tabs| - 1];
    forall k | j < k < |tabs|
      ensures tabs[k].name == name
    {
      if k < |init| {
        assert tabs[k] == init[k];
      }
    }
  }

  /** Closing the active file highlights the last tab that was open with another name. */
  lemma CloseActivatesLastOther(tabs: seq<Tab>, name: string)
    requires RemoveNamed(tabs, name) != []
    ensures exists j :: LastOther(tabs, name, j) && CloseTabs(tabs, Some(name), name).1 == Some(tabs[j].name)
  {
    RemoveNamedLast(tabs, name);
  }

  /** Removing a name no tab has keeps the list as it is. */
  lemma {:induction false} RemoveMissing(tabs: seq<Tab>, name: string)
    requires name !in Names(tabs)
    ensures RemoveNamed(tabs, name) == tabs
  {
    if tabs != [] {
      assert Names(tabs[1..]) == Names(tabs)[1..];
      RemoveMissing(tabs[1..], name);
    }
  }

  /** With distinct names, closing an open file removes exactly one tab. */
  lemma {:induction false} RemoveOneOfDistinct(tabs: seq<Tab>, name: string)
    requires DistinctNames(tabs) && name in Names(tabs)
    ensures |RemoveNamed(tabs, name)| == |tabs| - 1
  {
    if tabs[0].name == name {
      assert forall i :: 0 <= i < |tabs[1..]| ==> tabs[1..][i].name == tabs[i + 1].name;
      RemoveMissing(tabs[1..], name);
    } else {
      assert Names(tabs[1..]) == Names(tabs)[1..];
      RemoveOneOfDistinct(tabs[1..], name);
    }
  }

  lemma CloseKeepsOk(tabs: seq<Tab>, active: Option<string>, name: string)
    requires TabsOk(tabs, active)
    ensures TabsOk(CloseTabs(tabs, active, name).0, CloseTabs(tabs, active, name).1)
  {
    var kept := RemoveNamed(tabs, name);
    RemoveNamedDistinct(tabs, name);
    var r := CloseTabs(tabs, active, name);
    if kept != [] && active != Some(name) {
      forall i | 0 <= i < |kept|
        ensures kept[i].isActive <==> active == Some(kept[i].name)
      {
        var j :| 0 <= j < |tabs| && tabs[j] == kept[i];
      }
    }
    if kept != [] && active == Some(name) {
      var last := kept[|kept| - 1].name;
      forall i | 0 <= i < |r.0|
        ensures r.0[i].isActive <==> r.1 == Some(r.0[i].name)
      {
        assert r.0[i].name == Names(kept)[i];
        if i != |kept| - 1 {
          assert kept[i].name != last;
        }
      }
    }
  }

  /** Closing a file that has no tab and is not the active one changes nothing. */
  lemma CloseMissing(tabs: seq<Tab>, active: Option<string>, name: string)
    requires TabsOk(tabs, active)
    requires tabs != [] && name !in Names(tabs) && active != Some(name)
    ensures CloseTabs(tabs, active, name) == (tabs, active)
  {
    RemoveMissing(tabs, name);
  }

  /** A tab-less file made active with `setActiveFile` and then closed hands the highlight
      to the last tab, although no tab was removed. */
  lemma CloseActiveWithoutTab()
    ensures var tabs := [Tab("readme", "README.md", "/README.md", false, false)];
            CloseTabs(tabs, Some("ghost.md"), "ghost.md")
              == ([Tab("readme", "README.md", "/README.md", true, false)], Some("README.md"))
  {
    var tabs := [Tab("readme", "README.md", "/README.md", false, false)];
    assert Names(tabs) == ["README.md"];
    RemoveMissing(tabs, "ghost.md");
    var want := [Tab("readme", "README.md", "/README.md", true, false)];
    assert ActivateOnly(tabs, "README.md")[0] == want[0];
    assert ActivateOnly(tabs, "README.md") == want;
    assert RemoveNamed(tabs, "ghost.md")[|tabs| - 1].name == "README.md";
  }

  lemma SetActiveKeepsOk(tabs: seq<Tab>, active: Option<string>, name: string)
    requires TabsOk(tabs, active)
    ensures TabsOk(ActivateOnly(tabs, name), Some(name))
  {
    var r := ActivateOnly(tabs, name);
    assert forall i :: 0 <= i < |r| ==> r[i].name == Names(r)[i] == Names(tabs)[i];
  }

  /** `setActiveFile` on a file without a tab leaves no tab highlighted. */
  lemma SetActiveWithoutTab(tabs: seq<Tab>, name: string)
    requires name !in Names(tabs)
    ensures forall i :: 0 <= i < |tabs| ==> !ActivateOnly(tabs, name)[i].isActive
  {
    assert forall i :: 0 <= i < |tabs| ==> tabs[i].name == Names(tabs)[i];
  }

  lemma MarkDirtyKeepsOk(tabs: seq<Tab>, active: Option<string>, name: string)
    requires TabsOk(tabs, active)
    ensures TabsOk(MarkDirty(tabs, name), active)
  {
    var r := MarkDirty(tabs, name);
    assert forall i :: 0 <= i < |r| ==> r[i].name == Names(r)[i] == Names(tabs)[i];
  }

  /** After a panel is chosen it is the current one, and choosing it again flips the side bar
      between open and closed. */
  lemma SelectPanelAgain(current: Panel, open: bool, p: Panel)
    ensures var r := SelectPanel(current, open, p);
            r.0 == p && SelectPanel(r.0, r.1, p) == (p, !r.1)
  {
  }

  // ---------------------------------------------------------------- the store

  const InitialTab: Tab := Tab("readme", "README.md", "/README.md", true, false)

  class EditorState {
    var tabs: seq<Tab>
    var activeFile: Option<string>
    var sidebarPanel: Panel
    var sidebarOpen: bool
    var terminalOpen: bool
    var terminalHeight: int
    var fileTree: seq<TreeNode>
    var commandPaletteOpen: bool
    var simpleBrowserOpen: bool
    var simpleBrowserUrl: string
    var userFiles: map<string, string>

    ghost predicate Valid()
      reads this
    {
      TabsOk(tabs, activeFile) && ForestOk(fileTree)
    }

    /** The store's initial state: the README tab open and highlighted, explorer shown,
        terminal open at 200 pixels, nothing else open, no visitor files. */
    constructor ()
      ensures Valid()
      ensures tabs == [InitialTab] && activeFile == Some("README.md")
      ensures sidebarPanel == Explorer && sidebarOpen && terminalOpen && terminalHeight == 200
      ensures fileTree == InitialFileTree
      ensures !commandPaletteOpen && !simpleBrowserOpen && simpleBrowserUrl == ""
      ensures userFiles == map[]
    {
      tabs := [InitialTab];
      activeFile := Some("README.md");
      sidebarPanel := Explorer;
      sidebarOpen := true;
      terminalOpen := true;
      terminalHeight := 200;
      fileTree := InitialFileTree;
      commandPaletteOpen := false;
      simpleBrowserOpen := false;
      simpleBrowserUrl := "";
      userFiles := map[];
      InitialFileTreeOk();
    }

    method OpenFile(name: string)
      requires Valid()
      modifies this`tabs, this`activeFile
      ensures Valid()
      ensures tabs == OpenTabs(old(tabs), name) && activeFile == Some(name)
      ensures name in Names(tabs)
    {
      OpenKeepsOk(tabs, activeFile, name);
      tabs := OpenTabs(tabs, name);
      activeFile := Some(name);
    }

    method CloseFile(name: string)
      requires Valid()
      modifies this`tabs, this`activeFile
      ensures Valid()
      ensures (tabs, activeFile) == CloseTabs(old(tabs), old(activeFile), name)
      ensures name !in Names(tabs)
    {
      CloseKeepsOk(tabs, activeFile, name);
      var r := CloseTabs(tabs, activeFile, name);
      tabs, activeFile := r.0, r.1;
    }

    method SetActiveFile(name: string)
      requires Valid()
      modifies this`tabs, this`activeFile
      ensures Valid()
      ensures tabs == ActivateOnly(old(tabs), name) && activeFile == Some(name)
    {
      SetActiveKeepsOk(tabs, activeFile, name);
      tabs := ActivateOnly(tabs, name);
      activeFile := Some(name);
    }

    method SetSidebarPanel(p: Panel)
      modifies this`sidebarPanel, this`sidebarOpen
      ensures (sidebarPanel, sidebarOpen) == SelectPanel(old(sidebarPanel), old(sidebarOpen), p)
    {
      var r := SelectPanel(sidebarPanel, sidebarOpen, p);
      sidebarPanel, sidebarOpen := r.0, r.1;
    }

    method ToggleSidebar()
      modifies this`sidebarOpen
      ensures sidebarOpen == !old(sidebarOpen)
    {
      sidebarOpen := !sidebarOpen;
    }

    method ToggleTerminal()
      modifies this`terminalOpen
      ensures terminalOpen == !old(terminalOpen)
    {
      terminalOpen := !terminalOpen;
    }

    /** Stores the height as given: the store itself does not clamp it. */
    method SetTerminalHeight(height: int)
      modifies this`terminalHeight
      ensures terminalHeight == height
    {
      terminalHeight := height;
    }

    method ToggleFolder(path: string)
      requires Valid()
      modifies this`fileTree
      ensures Valid()
      ensures fileTree == ToggleForest(old(fileTree), path)
      ensures Shape(fileTree) == Shape(old(fileTree))
      ensures path !in FolderPaths(old(fileTree)) ==> fileTree == old(fileTree)
    {
      ToggleKeepsOk(fileTree, path);
      ToggleKeepsShape(fileTree, path);
      if path !in FolderPaths(fileTree) {
        ToggleMissing(fileTree, path);
      }
      fileTree := ToggleForest(fileTree, path);
    }

    method OpenCommandPalette()
      modifies this`commandPaletteOpen
      ensures commandPaletteOpen
    {
      commandPaletteOpen := true;
    }

    method CloseCommandPalette()
      modifies this`commandPaletteOpen
      ensures !commandPaletteOpen
    {
      commandPaletteOpen := false;
    }

    method OpenSimpleBrowser(url: string)
      modifies this`simpleBrowserOpen, this`simpleBrowserUrl
      ensures simpleBrowserOpen && simpleBrowserUrl == url
    {
      simpleBrowserOpen, simpleBrowserUrl := true, url;
    }

    method CloseSimpleBrowser()
      modifies this`simpleBrowserOpen, this`simpleBrowserUrl
      ensures !simpleBrowserOpen && simpleBrowserUrl == ""
    {
      simpleBrowserOpen, simpleBrowserUrl := false, "";
    }

    /** `createFile`, with the clock reading `now` as a parameter. The file's text is blanked
        whether or not a folder with the parent path exists, and whether or not the name
        already had text. */
    method CreateFile(path: string, name: string, now: nat)
      requires Valid()
      modifies this`fileTree, this`userFiles
      ensures Valid()
      ensures fileTree == AddToForest(old(fileTree), path, NewFileNode(path, name, now))
      ensures userFiles == old(userFiles)[name := ""]
      ensures path in FolderPaths(old(fileTree)) ==> InForest(NewFileNode(path, name, now), fileTree)
      ensures path !in FolderPaths(old(fileTree)) ==> fileTree == old(fileTree)
    {
      var x := NewFileNode(path, name, now);
      AddKeepsOk(fileTree, path, x);
      if path in FolderPaths(fileTree) {
        AddAppears(fileTree, path, x);
      } else {
        AddMissing(fileTree, path, x);
      }
      fileTree := AddToForest(fileTree, path, x);
      userFiles := userFiles[name := ""];
    }

    method UpdateFileContent(name: string, content: string)
      requires Valid()
      modifies this`userFiles, this`tabs
      ensures Valid()
      ensures userFiles == old(userFiles)[name := content]
      ensures tabs == MarkDirty(old(tabs), name)
    {
      MarkDirtyKeepsOk(tabs, activeFile, name);
      userFiles := userFiles[name := content];
      tabs := MarkDirty(tabs, name);
    }

    /** `createFolder`, with the clock reading `now` as a parameter; `userFiles` is untouched. */
    method CreateFolder(path: string, name: string, now: nat)
      requires Valid()
      modifies this`fileTree
      ensures Valid()
      ensures fileTree == AddToForest(old(fileTree), path, NewFolderNode(path, name, now))
      ensures path in FolderPaths(old(fileTree)) ==> InForest(NewFolderNode(path, name, now), fileTree)
      ensures path !in FolderPaths(old(fileTree)) ==> fileTree == old(fileTree)
    {
      var x := NewFolderNode(path, name, now);
      AddKeepsOk(fileTree, path, x);
      if path in FolderPaths(fileTree) {
        AddAppears(fileTree, path, x);
      } else {
        AddMissing(fileTree, path, x);
      }
      fileTree := AddToForest(fileTree, path, x);
    }
  }
}
