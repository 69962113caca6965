/**
 * The explorer side bar of src/components/Sidebar.tsx: the collapse-all rewrite of the
 * tree, the rows the tree view shows, click routing onto the store, the new-file and
 * new-folder forms, the folder-name extraction of the folder upload, and the drag-resized
 * width.
 */
module Sidebar {
  import opened Text
  import opened EditorTree
  import opened EditorStore

  // ---------------------------------------------------------------- collapseAll

  /** `collapseInTree` on one node: every folder not named `anubhav-portfolio` is closed,
      and the children of every node are rewritten the same way. */
  function CollapseNode(n: TreeNode): (r: TreeNode)
    ensures r.(isOpen := n.isOpen, children := n.children) == n
    ensures |r.children| == |n.children|
    ensures n.kind == Folder && n.name != RootName ==> r.isOpen == Some(false)
    ensures n.kind == File || n.name == RootName ==> r.isOpen == n.isOpen
    decreases n, 1
  {
    if n.kind == Folder && n.name != RootName then
      n.(isOpen := Some(false), children := CollapseForest(n.children))
    else n.(children := CollapseForest(n.children))
  }

  function CollapseForest(ns: seq<TreeNode>): (r: seq<TreeNode>)
    ensures |r| == |ns|
    ensures forall i :: 0 <= i < |ns| ==> r[i].(isOpen := ns[i].isOpen, children := ns[i].children) == ns[i]
    decreases ns, 0
  {
    seq(|ns|, i requires 0 <= i < |ns| => CollapseNode(ns[i]))
  }

  /** No folder not named `anubhav-portfolio` is open, at any depth. */
  ghost predicate CollapsedNode(n: TreeNode)
    decreases n, 1
  {
    (n.kind == Folder && n.name != RootName ==> n.isOpen == Some(false)) && Collapsed(n.children)
  }

  ghost predicate Collapsed(ns: seq<TreeNode>)
    decreases ns, 0
  {
    forall i :: 0 <= i < |ns| ==> CollapsedNode(ns[i])
  }

  lemma {:induction false} CollapseClosesNode(n: TreeNode)
    ensures CollapsedNode(CollapseNode(n))
    decreases n, 1
  {
    CollapseCloses(n.children);
  }

  /** After collapse-all, every folder at any depth whose name is not `anubhav-portfolio`
      is closed. */
  lemma {:induction false} CollapseCloses(ns: seq<TreeNode>)
    ensures Collapsed(CollapseForest(ns))
    decreases ns, 0
  {
    forall i | 0 <= i < |ns|
      ensures CollapsedNode(CollapseForest(ns)[i])
    {
      CollapseClosesNode(ns[i]);
    }
  }

  lemma {:induction false} CollapseFixesCollapsedNode(n: TreeNode)
    requires CollapsedNode(n)
    ensures CollapseNode(n) == n
    decreases n, 1
  {
    CollapseFixesCollapsed(n.children);
  }

  /** A tree that is already collapsed is left as it is. */
  lemma {:induction false} CollapseFixesCollapsed(ns: seq<TreeNode>)
    requires Collapsed(ns)
    ensures CollapseForest(ns) == ns
    decreases ns, 0
  {
    forall i | 0 <= i < |ns|
      ensures CollapseForest(ns)[i] == ns[i]
    {
      CollapseFixesCollapsedNode(ns[i]);
    }
  }

  /** Collapse-all is idempotent. */
  lemma CollapseIdempotent(ns: seq<TreeNode>)
    ensures CollapseForest(CollapseForest(ns)) == CollapseForest(ns)
  {
    CollapseCloses(ns);
    CollapseFixesCollapsed(CollapseForest(ns));
  }

  lemma {:induction false} CollapseKeepsShapeNode(n: TreeNode)
    ensures ShapeNode(CollapseNode(n)) == ShapeNode(n)
    decreases n, 1
  {
    CollapseKeepsShape(n.children);
  }

  /** Names, ids, kinds, paths and child order are kept: only open flags change. */
  lemma {:induction false} CollapseKeepsShape(ns: seq<TreeNode>)
    ensures Shape(CollapseForest(ns)) == Shape(ns)
    decreases ns, 0
  {
    forall i | 0 <= i < |ns|
      ensures Shape(CollapseForest(ns))[i] == Shape(ns)[i]
    {
      CollapseKeepsShapeNode(ns[i]);
    }
  }

  lemma {:induction false} CollapseKeepsOkNode(n: TreeNode)
    requires NodeOk(n)
    ensures NodeOk(CollapseNode(n))
    decreases n, 1
  {
    CollapseKeepsOk(n.children);
  }

  lemma {:induction false} CollapseKeepsOk(ns: seq<TreeNode>)
    requires ForestOk(ns)
    ensures ForestOk(CollapseForest(ns))
    decreases ns, 0
  {
    forall i | 0 <= i < |ns|
      ensures NodeOk(CollapseForest(ns)[i])
    {
      CollapseKeepsOkNode(ns[i]);
    }
  }

  /** The collapse-all button: the store's tree is replaced by its collapsed form. */
  method CollapseAll(store: EditorState)
    requires store.Valid()
    modifies store`fileTree
    ensures store.Valid()
    ensures store.fileTree == CollapseForest(old(store.fileTree))
    ensures Collapsed(store.fileTree) && Shape(store.fileTree) == Shape(old(store.fileTree))
  {
    CollapseKeepsOk(store.fileTree);
    CollapseCloses(store.fileTree);
    CollapseKeepsShape(store.fileTree);
    store.fileTree := CollapseForest(store.fileTree);
  }

  // ---------------------------------------------------------------- the tree view

  /** One line of the tree view: a node and its indentation depth. */
  datatype Row = Row(node: TreeNode, depth: nat)

  /** A node's line followed, for an open folder, by the lines of its children one level in. */
  function NodeRows(n: TreeNode, depth: nat): (r: seq<Row>)
    ensures |r| >= 1 && r[0] == Row(n, depth)
    ensures forall i :: 0 <= i < |r| ==> r[i].depth >= depth
    decreases n, 1
  {
    [Row(n, depth)] + (if n.kind == Folder && IsOpen(n) then Rows(n.children, depth + 1) else [])
  }

  function Rows(ns: seq<TreeNode>, depth: nat): (r: seq<Row>)
    ensures |r| >= |ns|
    ensures ns != [] ==> r[0] == Row(ns[0], depth)
    ensures forall i :: 0 <= i < |r| ==> r[i].depth >= depth
    decreases ns, 0
  {
    if ns == [] then [] else NodeRows(ns[0], depth) + Rows(ns[1..], depth)
  }

  /** The explorer renders the children of the first top-level node, not that node itself. */
  function ExplorerRows(tree: seq<TreeNode>): (r: seq<Row>)
    ensures tree == [] ==> r == []
    ensures tree != [] ==> |r| >= |tree[0].children|
    ensures tree != [] && tree[0].children != [] ==> r[0] == Row(tree[0].children[0], 0)
  {
    if tree == [] then [] else Rows(tree[0].children, 0)
  }

  /** A file line is highlighted when the file is the active one. */
  predicate IsHighlighted(n: TreeNode, active: Option<string>)
  {
    n.kind == File && active == Some(n.name)
  }

  function Size(n: TreeNode): (r: nat)
    ensures r >= 1
    decreases n, 1
  {
    1 + SizeOf(n.children)
  }

  function SizeOf(ns: seq<TreeNode>): nat
    decreases ns, 0
  {
    if ns == [] then 0 else Size(ns[0]) + SizeOf(ns[1..])
  }

  lemma {:induction false} NodeRowsSmaller(n: TreeNode, depth: nat, k: nat)
    requires k < |NodeRows(n, depth)|
    ensures Size(NodeRows(n, depth)[k].node) <= Size(n)
    decreases n, 1
  {
    if k > 0 {
      RowsSmaller(n.children, depth + 1, k - 1);
    }
  }

  /** Each line of a list of nodes shows a node no larger than the whole list. */
  lemma {:induction false} RowsSmaller(ns: seq<TreeNode>, depth: nat, k: nat)
    requires k < |Rows(ns, depth)|
    ensures Size(Rows(ns, depth)[k].node) <= SizeOf(ns)
    decreases ns, 0
  {
    var head := NodeRows(ns[0], depth);
    if k < |head| {
      NodeRowsSmaller(ns[0], depth, k);
    } else {
      RowsSmaller(ns[1..], depth, k - |head|);
    }
  }

  /** The project folder itself never has a line of its own in the explorer. */
  lemma RootNeverRendered(tree: seq<TreeNode>)
    ensures forall k :: 0 <= k < |ExplorerRows(tree)| ==> ExplorerRows(tree)[k].node != tree[0]
  {
    forall k | 0 <= k < |ExplorerRows(tree)|
      ensures ExplorerRows(tree)[k].node != tree[0]
    {
      RowsSmaller(tree[0].children, 0, k);
    }
  }

  /** A closed folder or a file shows one line, whatever lies below it. */
  lemma ClosedShowsOneRow(n: TreeNode, depth: nat)
    requires n.kind == File || !IsOpen(n)
    ensures NodeRows(n, depth) == [Row(n, depth)]
  {
  }

  /** Every file or closed folder at one level shows exactly one line. */
  lemma {:induction false} ClosedLevelRows(ns: seq<TreeNode>, depth: nat)
    requires forall i :: 0 <= i < |ns| ==> ns[i].kind == File || !IsOpen(ns[i])
    ensures |Rows(ns, depth)| == |ns|
  {
    if ns != [] {
      ClosedLevelRows(ns[1..], depth);
    }
  }

  /** After collapse-all the explorer shows one line per entry of the project folder, as
      long as none of those entries is itself a folder named `anubhav-portfolio`. */
  lemma CollapsedExplorerRows(tree: seq<TreeNode>)
    requires tree != []
    requires forall i :: 0 <= i < |tree[0].children| ==>
               tree[0].children[i].kind == File || tree[0].children[i].name != RootName
    ensures |ExplorerRows(CollapseForest(tree))| == |tree[0].children|
  {
    assert CollapseForest(tree)[0] == CollapseNode(tree[0]);
    var top := CollapseForest(tree)[0].children;
    assert top == CollapseForest(tree[0].children);
    ClosedLevelRows(top, 0);
  }

  /** Clicking a line: a folder toggles by its path, a file is opened by its name. */
  method HandleClick(store: EditorState, n: TreeNode)
    requires store.Valid()
    modifies store`fileTree, store`tabs, store`activeFile
    ensures store.Valid()
    ensures n.kind == Folder ==>
              store.fileTree == ToggleForest(old(store.fileTree), n.path) && store.tabs == old(store.tabs)
              && store.activeFile == old(store.activeFile)
    ensures n.kind == File ==>
              store.tabs == OpenTabs(old(store.tabs), n.name) && store.activeFile == Some(n.name)
              && store.fileTree == old(store.fileTree) && IsHighlighted(n, store.activeFile)
  {
    if n.kind == Folder {
      store.ToggleFolder(n.path);
    } else {
      store.OpenFile(n.name);
    }
  }

  // ---------------------------------------------------------------- new file / new folder

  /** The folder the explorer creates files and folders in. */
  const SourceFolder: string := "/src"

  /** The explorer's local form state. */
  class ExplorerPanel {
    var showNewFileInput: bool
    var showNewFolderInput: bool
    var newFileName: string
    var newFolderName: string

    constructor ()
      ensures !showNewFileInput && !showNewFolderInput && newFileName == "" && newFolderName == ""
    {
      showNewFileInput, showNewFolderInput := false, false;
      newFileName, newFolderName := "", "";
    }

    /** The new-file button shows the file form and hides the folder form. */
    method HandleNewFile()
      modifies this`showNewFileInput, this`showNewFolderInput
      ensures showNewFileInput && !showNewFolderInput
    {
      showNewFileInput, showNewFolderInput := true, false;
    }

    method HandleNewFolder()
      modifies this`showNewFileInput, this`showNewFolderInput
      ensures showNewFolderInput && !showNewFileInput
    {
      showNewFolderInput, showNewFileInput := true, false;
    }

    method SetNewFileName(s: string)
      modifies this`newFileName
      ensures newFileName == s
    {
      newFileName := s;
    }

    method SetNewFolderName(s: string)
      modifies this`newFolderName
      ensures newFolderName == s
    {
      newFolderName := s;
    }

    /** Escape in the file form hides it and clears it. */
    method EscapeNewFile()
      modifies this`showNewFileInput, this`newFileName
      ensures !showNewFileInput && newFileName == ""
    {
      showNewFileInput, newFileName := false, "";
    }

    method EscapeNewFolder()
      modifies this`showNewFolderInput, this`newFolderName
      ensures !showNewFolderInput && newFolderName == ""
    {
      showNewFolderInput, newFolderName := false, "";
    }

    /** Submitting the file form: a name of whitespace only does nothing; any other name is
        trimmed, created under `/src`, opened in a tab, and the form is cleared and hidden. */
    method SubmitNewFile(store: EditorState, now: nat)
      requires store.Valid()
      modifies this`newFileName, this`showNewFileInput, store`fileTree, store`userFiles, store`tabs, store`activeFile
      ensures store.Valid()
      ensures AllSpace(old(newFileName)) ==>
                newFileName == old(newFileName) && showNewFileInput == old(showNewFileInput)
                && store.fileTree == old(store.fileTree) && store.tabs == old(store.tabs)
                && store.userFiles == old(store.userFiles) && store.activeFile == old(store.activeFile)
      ensures !AllSpace(old(newFileName)) ==>
                var name := Trim(old(newFileName));
                && store.fileTree == AddToForest(old(store.fileTree), SourceFolder, NewFileNode(SourceFolder, name, now))
                && store.userFiles == old(store.userFiles)[name := ""]
                && store.tabs == OpenTabs(old(store.tabs), name) && store.activeFile == Some(name)
                && newFileName == "" && !showNewFileInput
    {
      TrimEmptyIff(newFileName);
      var name := Trim(newFileName);
      if name != "" {
        store.CreateFile(SourceFolder, name, now);
        store.OpenFile(name);
        newFileName := "";
        showNewFileInput := false;
      }
    }

    /** Submitting the folder form: as for files, but only the folder is created. */
    method SubmitNewFolder(store: EditorState, now: nat)
      requires store.Valid()
      modifies this`newFolderName, this`showNewFolderInput, store`fileTree
      ensures store.Valid()
      ensures AllSpace(old(newFolderName)) ==>
                newFolderName == old(newFolderName) && showNewFolderInput == old(showNewFolderInput)
                && store.fileTree == old(store.fileTree)
      ensures !AllSpace(old(newFolderName)) ==>
                var name := Trim(old(newFolderName));
                && store.fileTree == AddToForest(old(store.fileTree), SourceFolder, NewFolderNode(SourceFolder, name, now))
                && newFolderName == "" && !showNewFolderInput
    {
      TrimEmptyIff(newFolderName);
      var name := Trim(newFolderName);
      if name != "" {
        store.CreateFolder(SourceFolder, name, now);
        newFolderName := "";
        showNewFolderInput := false;
      }
    }
  }

  /** The folder name of a folder upload: the first `/`-separated segment of the first file's
      relative path. */
  function UploadFolderName(relativePath: string): (r: string)
    ensures '/' !in r
    ensures StartsWith(relativePath, r)
    ensures r == relativePath || (|r| < |relativePath| && relativePath[|r|] == '/')
  {
    FirstSegment(relativePath)
  }

  /** The text before the first `/`: the first element of `split('/')`. */
  function FirstSegment(s: string): (r: string)
    ensures r == Split(s, '/')[0]
    ensures '/' !in r
    ensures |r| <= |s| && s[..|r|] == r
    ensures r == s || (|r| < |s| && s[|r|] == '/')
  {
    if s == [] || s[0] == '/' then []
    else [s[0]] + FirstSegment(s[1..])
  }

  /** A folder upload creates the folder under `/src` and then each file under
      `/src/<folder>`: when the tree has a `/src` folder, every uploaded file ends up as a
      child of a folder with exactly that path. */
  lemma UploadedFilesLandInFolder(tree: seq<TreeNode>, relativePath: string, fileName: string, now: nat, later: nat)
    requires SourceFolder in FolderPaths(tree)
    ensures var folderName := UploadFolderName(relativePath);
            var withFolder := AddToForest(tree, SourceFolder, NewFolderNode(SourceFolder, folderName, now));
            var target := SourceFolder + "/" + folderName;
            InFolder(NewFileNode(target, fileName, later), target, AddToForest(withFolder, target, NewFileNode(target, fileName, later)))
  {
    var folder := NewFolderNode(SourceFolder, UploadFolderName(relativePath), now);
    var withFolder := AddToForest(tree, SourceFolder, folder);
    AddAppears(tree, SourceFolder, folder);
    FolderInTreeHasPath(folder, withFolder);
    AddUnderParent(withFolder, folder.path, NewFileNode(folder.path, fileName, later));
  }

  // ---------------------------------------------------------------- width

  /** The side bar width while dragging: the pointer position less the 48-pixel activity bar,
      kept between 180 and 500. Pointer positions are fractional, so the width is a real. */
  function DraggedWidth(clientX: real): (r: real)
    ensures 180.0 <= r <= 500.0
    ensures 180.0 <= clientX - 48.0 <= 500.0 ==> r == clientX - 48.0
    ensures clientX - 48.0 < 180.0 ==> r == 180.0
    ensures clientX - 48.0 > 500.0 ==> r == 500.0
  {
    var w := clientX - 48.0;
    if w > 500.0 then 500.0 else if w < 180.0 then 180.0 else w
  }

  class SidebarFrame {
    var width: real
    var isDragging: bool

    ghost predicate Valid()
      reads this
    {
      180.0 <= width <= 500.0
    }

    constructor ()
      ensures Valid() && width == 260.0 && !isDragging
    {
      width, isDragging := 260.0, false;
    }

    method StartDrag()
      modifies this`isDragging
      ensures isDragging
    {
      isDragging := true;
    }

    method MouseUp()
      modifies this`isDragging
      ensures !isDragging
    {
      isDragging := false;
    }

    /** Pointer moves change the width only while dragging. */
    method MouseMove(clientX: real)
      requires Valid()
      modifies this`width
      ensures Valid()
      ensures isDragging ==> width == DraggedWidth(clientX)
      ensures !isDragging ==> width == old(width)
    {
      if isDragging {
        width := DraggedWidth(clientX);
      }
    }
  }
}
