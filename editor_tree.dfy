/**
 * The explorer's file tree from the editor store (src/store/editor.ts): the `TreeNode`
 * record, the recursive rebuilds behind `toggleFolder`, `createFile` and `createFolder`,
 * and the tree the store starts with.
 *
 * A node's optional `children` array is a sequence here, an absent array being the empty
 * sequence: every operation of the source treats the two alike. The optional `isOpen`
 * flag stays optional, because toggling an absent flag behaves differently from toggling
 * a present one.
 */
module EditorTree {
  import opened Text

  datatype NodeKind = File | Folder

  datatype TreeNode = TreeNode(
    id: string,
    name: string,
    kind: NodeKind,
    path: string,
    children: seq<TreeNode>,
    isOpen: Option<bool>)

  /** How the source reads the flag: an absent one counts as closed. */
  function IsOpen(n: TreeNode): bool
  {
    n.isOpen == Some(true)
  }

  /** The node a tree action addressed by `path` acts on: a folder with that path. */
  predicate IsTarget(n: TreeNode, path: string)
  {
    n.path == path && n.kind == Folder
  }

  /** A well-formed node: folders carry an `isOpen` flag, files have no children. */
  ghost predicate NodeOk(n: TreeNode)
    decreases n, 1
  {
    && (n.kind == Folder ==> n.isOpen.Some?)
    && (n.kind == File ==> n.children == [])
    && ForestOk(n.children)
  }

  ghost predicate ForestOk(ns: seq<TreeNode>)
    decreases ns, 0
  {
    forall i :: 0 <= i < |ns| ==> NodeOk(ns[i])
  }

  /** The paths of all folders at any depth. */
  ghost function FolderPathsNode(n: TreeNode): set<string>
    decreases n, 1
  {
    (if n.kind == Folder then {n.path} else {}) + FolderPaths(n.children)
  }

  ghost function FolderPaths(ns: seq<TreeNode>): set<string>
    decreases ns, 0
  {
    set i, q | 0 <= i < |ns| && q in FolderPathsNode(ns[i]) :: q
  }

  /** `x` occurs somewhere in the tree rooted at `n`. */
  ghost predicate InNode(x: TreeNode, n: TreeNode)
    decreases n, 1
  {
    x == n || InForest(x, n.children)
  }

  ghost predicate InForest(x: TreeNode, ns: seq<TreeNode>)
    decreases ns, 0
  {
    exists i :: 0 <= i < |ns| && InNode(x, ns[i])
  }

  /** The tree with every `isOpen` flag erased: what an open/close action must not change. */
  function ShapeNode(n: TreeNode): TreeNode
    decreases n, 1
  {
    n.(isOpen := None, children := Shape(n.children))
  }

  function Shape(ns: seq<TreeNode>): (r: seq<TreeNode>)
    ensures |r| == |ns|
    decreases ns, 0
  {
    seq(|ns|, i requires 0 <= i < |ns| => ShapeNode(ns[i]))
  }

  // ---------------------------------------------------------------- toggleFolder

  /** `toggleInTree` on one node: a target folder has its flag negated and is not descended
      into; any other node is kept and its children are rebuilt. */
  function ToggleNode(n: TreeNode, path: string): (r: TreeNode)
    ensures IsTarget(n, path) ==> r == n.(isOpen := Some(!IsOpen(n)))
    ensures !IsTarget(n, path) ==> r.(children := n.children) == n && |r.children| == |n.children|
    decreases n, 1
  {
    if IsTarget(n, path) then n.(isOpen := Some(!IsOpen(n)))
    else n.(children := ToggleForest(n.children, path))
  }

  function ToggleForest(ns: seq<TreeNode>, path: string): (r: seq<TreeNode>)
    ensures |r| == |ns|
    ensures forall i :: 0 <= i < |ns| ==> r[i].(isOpen := ns[i].isOpen, children := ns[i].children) == ns[i]
    decreases ns, 0
  {
    seq(|ns|, i requires 0 <= i < |ns| => ToggleNode(ns[i], path))
  }

  /** Toggling the same path twice restores a well-formed tree. */
  lemma {:induction false} ToggleTwiceNode(n: TreeNode, path: string)
    requires NodeOk(n)
    ensures ToggleNode(ToggleNode(n, path), path) == n
    decreases n, 1
  {
    if IsTarget(n, path) {
      var once := ToggleNode(n, path);
      assert once == n.(isOpen := Some(!IsOpen(n)));
      assert IsTarget(once, path) && IsOpen(once) == !IsOpen(n);
      assert n.isOpen.Some?;
      if n.isOpen.value {
        assert n.isOpen == Some(true);
      } else {
        assert n.isOpen == Some(false);
      }
      assert n.(isOpen := Some(IsOpen(n))) == n;
    } else {
      ToggleTwice(n.children, path);
    }
  }

  lemma {:induction false} ToggleTwice(ns: seq<TreeNode>, path: string)
    requires ForestOk(ns)
    ensures ToggleForest(ToggleForest(ns, path), path) == ns
    decreases ns, 0
  {
    forall i | 0 <= i < |ns|
      ensures ToggleForest(ToggleForest(ns, path), path)[i] == ns[i]
    {
      ToggleTwiceNode(ns[i], path);
    }
  }

  /** Where the flag was absent, two toggles leave `false` behind: the involution needs the flags. */
  lemma ToggleTwiceNeedsFlag()
    ensures var n := TreeNode("d", "d", Folder, "/d", [], None);
            ToggleNode(ToggleNode(n, "/d"), "/d") != n
  {
  }

  /** A path that names no folder leaves the tree as it is. */
  lemma {:induction false} ToggleMissingNode(n: TreeNode, path: string)
    requires path !in FolderPathsNode(n)
    ensures ToggleNode(n, path) == n
    decreases n, 1
  {
    ToggleMissing(n.children, path);
  }

  lemma {:induction false} ToggleMissing(ns: seq<TreeNode>, path: string)
    requires path !in FolderPaths(ns)
    ensures ToggleForest(ns, path) == ns
    decreases ns, 0
  {
    forall i | 0 <= i < |ns|
      ensures ToggleForest(ns, path)[i] == ns[i]
    {
      ToggleMissingNode(ns[i], path);
    }
  }

  /** Toggling changes open/closed flags only: names, ids, kinds, paths and order stay. */
  lemma {:induction false} ToggleKeepsShapeNode(n: TreeNode, path: string)
    ensures ShapeNode(ToggleNode(n, path)) == ShapeNode(n)
    decreases n, 1
  {
    if !IsTarget(n, path) {
      ToggleKeepsShape(n.children, path);
    }
  }

  lemma {:induction false} ToggleKeepsShape(ns: seq<TreeNode>, path: string)
    ensures Shape(ToggleForest(ns, path)) == Shape(ns)
    decreases ns, 0
  {
    forall i | 0 <= i < |ns|
      ensures Shape(ToggleForest(ns, path))[i] == Shape(ns)[i]
    {
      ToggleKeepsShapeNode(ns[i], path);
    }
  }

  lemma {:induction false} ToggleKeepsOkNode(n: TreeNode, path: string)
    requires NodeOk(n)
    ensures NodeOk(ToggleNode(n, path))
    decreases n, 1
  {
    if !IsTarget(n, path) {
      ToggleKeepsOk(n.children, path);
    }
  }

  lemma {:induction false} ToggleKeepsOk(ns: seq<TreeNode>, path: string)
    requires ForestOk(ns)
    ensures ForestOk(ToggleForest(ns, path))
    decreases ns, 0
  {
    forall i | 0 <= i < |ns|
      ensures NodeOk(ToggleForest(ns, path)[i])
    {
      ToggleKeepsOkNode(ns[i], path);
    }
  }

  // ---------------------------------------------------------------- createFile / createFolder

  /** `${path}/${name}` */
  function ChildPath(parent: string, name: string): string
  {
    parent + "/" + name
  }

  /** The `id` of a created node, `${Date.now()}-${name}`, with the clock reading as a parameter. */
  function CreatedId(now: nat, name: string): (r: string)
    ensures |r| >= |name| + 2 && r[|r| - |name|..] == name && r[|r| - |name| - 1] == '-'
    ensures '0' <= r[0] <= '9'
  {
    NatToString(now) + "-" + name
  }

  /** The file node `createFile` builds. */
  function NewFileNode(parent: string, name: string, now: nat): (r: TreeNode)
    ensures NodeOk(r) && r.kind == File && r.name == name
  {
    TreeNode(CreatedId(now, name), name, File, ChildPath(parent, name), [], None)
  }

  /** The folder node `createFolder` builds: closed and empty. */
  function NewFolderNode(parent: string, name: string, now: nat): (r: TreeNode)
    ensures NodeOk(r) && r.kind == Folder && r.name == name && !IsOpen(r)
  {
    TreeNode(CreatedId(now, name), name, Folder, ChildPath(parent, name), [], Some(false))
  }

  /** `addToTree` on one node: a target folder gets `x` as its last child and is forced open,
      and is not descended into; any other node is kept and its children are rebuilt. */
  function AddNode(n: TreeNode, path: string, x: TreeNode): (r: TreeNode)
    ensures IsTarget(n, path) ==>
              r.children == n.children + [x] && r.isOpen == Some(true)
              && r.(children := n.children, isOpen := n.isOpen) == n
    ensures !IsTarget(n, path) ==> r.(children := n.children) == n && |r.children| == |n.children|
    decreases n, 1
  {
    if IsTarget(n, path) then n.(isOpen := Some(true), children := n.children + [x])
    else n.(children := AddToForest(n.children, path, x))
  }

  function AddToForest(ns: seq<TreeNode>, path: string, x: TreeNode): (r: seq<TreeNode>)
    ensures |r| == |ns|
    ensures forall i :: 0 <= i < |ns| ==> r[i].(isOpen := ns[i].isOpen, children := ns[i].children) == ns[i]
    decreases ns, 0
  {
    seq(|ns|, i requires 0 <= i < |ns| => AddNode(ns[i], path, x))
  }

  /** When no folder has the parent path the tree is unchanged (the store still writes
      `userFiles`, see `EditorStore`). */
  lemma {:induction false} AddMissingNode(n: TreeNode, path: string, x: TreeNode)
    requires path !in FolderPathsNode(n)
    ensures AddNode(n, path, x) == n
    decreases n, 1
  {
    AddMissing(n.children, path, x);
  }

  lemma {:induction false} AddMissing(ns: seq<TreeNode>, path: string, x: TreeNode)
    requires path !in FolderPaths(ns)
    ensures AddToForest(ns, path, x) == ns
    decreases ns, 0
  {
    forall i | 0 <= i < |ns|
      ensures AddToForest(ns, path, x)[i] == ns[i]
    {
      AddMissingNode(ns[i], path, x);
    }
  }

  /** When some folder has the parent path, the new node is in the tree afterwards. */
  lemma {:induction false} AddAppearsNode(n: TreeNode, path: string, x: TreeNode)
    requires path in FolderPathsNode(n)
    ensures InNode(x, AddNode(n, path, x))
    decreases n, 1
  {
    var r := AddNode(n, path, x);
    if IsTarget(n, path) {
      assert r.children[|n.children|] == x;
      assert InNode(x, r.children[|n.children|]);
    } else {
      AddAppears(n.children, path, x);
    }
  }

  lemma {:induction false} AddAppears(ns: seq<TreeNode>, path: string, x: TreeNode)
    requires path in FolderPaths(ns)
    ensures InForest(x, AddToForest(ns, path, x))
    decreases ns, 0
  {
    var i :| 0 <= i < |ns| && path in FolderPathsNode(ns[i]);
    AddAppearsNode(ns[i], path, x);
    assert InNode(x, AddToForest(ns, path, x)[i]);
  }

  /** `x` is a child of some folder in the tree whose path is `path`. */
  ghost predicate InFolder(x: TreeNode, path: string, ns: seq<TreeNode>)
  {
    exists m :: InForest(m, ns) && IsTarget(m, path) && x in m.children
  }

  lemma {:induction false} AddUnderParentNode(n: TreeNode, path: string, x: TreeNode)
    requires path in FolderPathsNode(n)
    ensures exists m :: InNode(m, AddNode(n, path, x)) && IsTarget(m, path) && x in m.children
    decreases n, 1
  {
    var r := AddNode(n, path, x);
    if IsTarget(n, path) {
      assert r.children[|n.children|] == x;
      assert InNode(r, r) && IsTarget(r, path);
    } else {
      AddUnderParent(n.children, path, x);
      var m :| InForest(m, r.children) && IsTarget(m, path) && x in m.children;
      assert InNode(m, r);
    }
  }

  /** After an add, the new node is a child of a folder with the parent path. */
  lemma {:induction false} AddUnderParent(ns: seq<TreeNode>, path: string, x: TreeNode)
    requires path in FolderPaths(ns)
    ensures InFolder(x, path, AddToForest(ns, path, x))
    decreases ns, 0
  {
    var i :| 0 <= i < |ns| && path in FolderPathsNode(ns[i]);
    AddUnderParentNode(ns[i], path, x);
    var r := AddToForest(ns, path, x);
    var m :| InNode(m, r[i]) && IsTarget(m, path) && x in m.children;
    assert InForest(m, r);
  }

  lemma {:induction false} FolderInNodeHasPath(x: TreeNode, n: TreeNode)
    requires InNode(x, n) && x.kind == Folder
    ensures x.path in FolderPathsNode(n)
    decreases n, 1
  {
    if x != n {
      FolderInTreeHasPath(x, n.children);
    }
  }

  /** A folder anywhere in the tree is addressable by its path. */
  lemma {:induction false} FolderInTreeHasPath(x: TreeNode, ns: seq<TreeNode>)
    requires InForest(x, ns) && x.kind == Folder
    ensures x.path in FolderPaths(ns)
    decreases ns, 0
  {
    var i :| 0 <= i < |ns| && InNode(x, ns[i]);
    FolderInNodeHasPath(x, ns[i]);
  }

  lemma {:induction false} AddKeepsOkNode(n: TreeNode, path: string, x: TreeNode)
    requires NodeOk(n) && NodeOk(x)
    ensures NodeOk(AddNode(n, path, x))
    decreases n, 1
  {
    var r := AddNode(n, path, x);
    if IsTarget(n, path) {
      assert forall i :: 0 <= i < |r.children| ==> r.children[i] == x || r.children[i] == n.children[i];
    } else {
      AddKeepsOk(n.children, path, x);
    }
  }

  lemma {:induction false} AddKeepsOk(ns: seq<TreeNode>, path: string, x: TreeNode)
    requires ForestOk(ns) && NodeOk(x)
    ensures ForestOk(AddToForest(ns, path, x))
    decreases ns, 0
  {
    forall i | 0 <= i < |ns|
      ensures NodeOk(AddToForest(ns, path, x)[i])
    {
      AddKeepsOkNode(ns[i], path, x);
    }
  }

  // ---------------------------------------------------------------- initial tree

  function FileLeaf(id: string, name: string, path: string): TreeNode
  {
    TreeNode(id, name, File, path, [], None)
  }

  function FolderOf(id: string, name: string, path: string, open: bool, children: seq<TreeNode>): TreeNode
  {
    TreeNode(id, name, Folder, path, children, Some(open))
  }

  /** The name of the project folder at the top of the tree. */
  const RootName: string := "anubhav-portfolio"

  /** `initialFileTree`: one root folder holding `src` (with `app` and `components` open,
      `store` and `data` closed) and four top-level files. */
  const InitialFileTree: seq<TreeNode> := [
    FolderOf("root", RootName, "/", true, [
      FolderOf("src", "src", "/src", true, [
        FolderOf("app", "app", "/src/app", true, [
          FileLeaf("page", "page.tsx", "/src/app/page.tsx"),
          FileLeaf("layout", "layout.tsx", "/src/app/layout.tsx"),
          FileLeaf("globals", "globals.css", "/src/app/globals.css")
        ]),
        FolderOf("components", "components", "/src/components", true, [
          FileLeaf("ide-layout", "IDELayout.tsx", "/src/components/IDELayout.tsx"),
          FileLeaf("titlebar", "TitleBar.tsx", "/src/components/TitleBar.tsx"),
          FileLeaf("activitybar", "ActivityBar.tsx", "/src/components/ActivityBar.tsx"),
          FileLeaf("sidebar", "Sidebar.tsx", "/src/components/Sidebar.tsx"),
          FileLeaf("editor", "Editor.tsx", "/src/components/Editor.tsx"),
          FileLeaf("terminal", "Terminal.tsx", "/src/components/Terminal.tsx"),
          FileLeaf("statusbar", "StatusBar.tsx", "/src/components/StatusBar.tsx")
        ]),
        FolderOf("store", "store", "/src/store", false, [
          FileLeaf("editor-store", "editor.ts", "/src/store/editor.ts"),
          FileLeaf("theme-store", "theme.ts", "/src/store/theme.ts")
        ]),
        FolderOf("data", "data", "/src/data", false, [
          FileLeaf("portfolio-data", "portfolio.ts", "/src/data/portfolio.ts")
        ])
      ]),
      FileLeaf("readme", "README.md", "/README.md"),
      FileLeaf("package", "package.json", "/package.json"),
      FileLeaf("tsconfig", "tsconfig.json", "/tsconfig.json"),
      FileLeaf("gitignore", ".gitignore", "/.gitignore")
    ])
  ]

  lemma InitialFileTreeOk()
    ensures ForestOk(InitialFileTree)
  {
    var src := InitialFileTree[0].children[0];
    assert forall i :: 0 <= i < |src.children| ==> NodeOk(src.children[i]);
    assert NodeOk(src);
    assert forall i :: 0 <= i < |InitialFileTree[0].children| ==> NodeOk(InitialFileTree[0].children[i]);
  }
}
