/** The reconstruction of a repository's file tree (services/githubService.ts):
    GitHub lists the tree flat, one item per file or directory with its full
    `/`-separated path, and `buildFileTree` nests the items, synthesising the
    directories it has not seen and falling back to the top level when it
    cannot find a parent.

    The nodes are values here. Where the source pushes a child into the
    children array of the node `findNodeByPath` returned, the model rebuilds
    the tree with the child added at that same node; every node object of the
    source is referenced from exactly one children list, so nothing else can
    observe the difference. */
module FileTree {
  import opened Wrappers
  import opened Strings

  datatype NodeType = Dir | File

  /** A `RepoFile`. The optional `children` key is `hasChildren` together
      with the list, which is empty when the key is absent. File contents are
      not fetched, so the `content` key is not modelled. */
  datatype RepoFile = RepoFile(
    name: string,
    path: string,
    kind: NodeType,
    hasChildren: bool,
    children: seq<RepoFile>,
    sha: Option<string>,
    size: Option<nat>)

  /** An entry of the flat tree GitHub returns; `itemType` is `"tree"` for a
      directory. */
  datatype TreeItem = TreeItem(path: string, itemType: string, sha: Option<string>, size: Option<nat>)

  /** `findNodeByPath` looks into a node's children only when it is a
      directory that has a children list. */
  predicate Descends(n: RepoFile) {
    n.kind == Dir && n.hasChildren
  }

  /** `findNodeByPath`: the first node, searching depth first, whose path is `path`. */
  function FindNodeByPath(nodes: seq<RepoFile>, path: string): (r: Option<RepoFile>)
    decreases nodes
    ensures r.Some? ==> r.value.path == path
  {
    if nodes == [] then None
    else if nodes[0].path == path then Some(nodes[0])
    else
      var inner := if Descends(nodes[0]) then FindNodeByPath(nodes[0].children, path) else None;
      if inner.Some? then inner else FindNodeByPath(nodes[1..], path)
  }

  /** The nodes in the order the search visits them. */
  function Preorder(nodes: seq<RepoFile>): seq<RepoFile>
    decreases nodes
  {
    if nodes == [] then []
    else [nodes[0]] + (if Descends(nodes[0]) then Preorder(nodes[0].children) else []) + Preorder(nodes[1..])
  }

  /** The first node of a list with the given path. */
  function FirstWithPath(s: seq<RepoFile>, path: string): (r: Option<RepoFile>)
    ensures r.None? <==> forall k :: 0 <= k < |s| ==> s[k].path != path
    ensures r.Some? ==> exists k :: 0 <= k < |s| && s[k] == r.value && r.value.path == path
                                    && forall j :: 0 <= j < k ==> s[j].path != path
  {
    if s == [] then None
    else if s[0].path == path then Some(s[0])
    else
      var r := FirstWithPath(s[1..], path);
      assert forall k :: 1 <= k < |s| ==> s[k] == s[1..][k - 1];
      r
  }

  lemma {:induction false} FirstWithPathAppend(a: seq<RepoFile>, b: seq<RepoFile>, path: string)
    ensures FirstWithPath(a + b, path)
            == if FirstWithPath(a, path).Some? then FirstWithPath(a, path) else FirstWithPath(b, path)
  {
    if a != [] {
      assert (a + b)[1..] == a[1..] + b;
      FirstWithPathAppend(a[1..], b, path);
    } else {
      assert a + b == b;
    }
  }

  /** `findNodeByPath` returns the first node of the depth-first pre-order
      whose path is the query, and null when there is none. */
  lemma {:induction false} FindIsPreorderFirst(nodes: seq<RepoFile>, path: string)
    ensures FindNodeByPath(nodes, path) == FirstWithPath(Preorder(nodes), path)
    decreases nodes
  {
    if nodes != [] {
      var n := nodes[0];
      var inside := if Descends(n) then Preorder(n.children) else [];
      var after := Preorder(nodes[1..]);
      assert Preorder(nodes) == [n] + (inside + after);
      if n.path != path {
        assert FirstWithPath(Preorder(nodes), path) == FirstWithPath(inside + after, path);
        FirstWithPathAppend(inside, after, path);
        if Descends(n) {
          FindIsPreorderFirst(n.children, path);
        }
        FindIsPreorderFirst(nodes[1..], path);
      }
    }
  }

  /** The search, as the source writes it: a loop over the list that recurses
      into each directory before moving on. */
  method FindNode(nodes: seq<RepoFile>, path: string) returns (found: Option<RepoFile>)
    ensures found == FindNodeByPath(nodes, path)
    decreases nodes
  {
    var j := 0;
    while j < |nodes|
      invariant 0 <= j <= |nodes|
      invariant FindNodeByPath(nodes, path) == FindNodeByPath(nodes[j..], path)
    {
      var node := nodes[j];
      assert nodes[j..][0] == node && nodes[j..][1..] == nodes[j + 1..];
      if node.path == path {
        return Some(node);
      }
      if node.kind == Dir && node.hasChildren {
        var inner := FindNode(node.children, path);
        if inner.Some? {
          return inner;
        }
      }
      j := j + 1;
    }
    return None;
  }

  // ---------------------------------------------------------------------
  // Attaching a node
  // ---------------------------------------------------------------------

  /** The tree with `child` pushed onto the children of the node the search
      for `path` finds. */
  function AttachAt(nodes: seq<RepoFile>, path: string, child: RepoFile): (r: seq<RepoFile>)
    decreases nodes
    ensures |r| == |nodes|
  {
    if nodes == [] then []
    else
      var n := nodes[0];
      if n.path == path then
        (if n.hasChildren then [n.(children := n.children + [child])] else [n]) + nodes[1..]
      else if Descends(n) && FindNodeByPath(n.children, path).Some? then
        [n.(children := AttachAt(n.children, path, child))] + nodes[1..]
      else [n] + AttachAt(nodes[1..], path, child)
  }

  /** Where a new node goes: at the top level when `top` holds, into the
      children of the node found for `parentPath` when it has a children
      list, and at the top level otherwise. */
  function Attach(root: seq<RepoFile>, top: bool, parentPath: string, node: RepoFile): seq<RepoFile> {
    if top then root + [node]
    else
      match FindNodeByPath(root, parentPath)
      case Some(parent) => if parent.hasChildren then AttachAt(root, parentPath, node) else root + [node]
      case None => root + [node]
  }

  /** A node pushed into its parent is the last child of that parent. */
  lemma {:induction false} AttachAtFinds(nodes: seq<RepoFile>, path: string, child: RepoFile)
    requires FindNodeByPath(nodes, path).Some? && FindNodeByPath(nodes, path).value.hasChildren
    ensures var p := FindNodeByPath(nodes, path).value;
            FindNodeByPath(AttachAt(nodes, path, child), path)
            == Some(p.(children := p.children + [child]))
    decreases nodes
  {
    var n := nodes[0];
    var r := AttachAt(nodes, path, child);
    if n.path == path {
    } else if Descends(n) && FindNodeByPath(n.children, path).Some? {
      AttachAtFinds(n.children, path, child);
      assert r[0].path == n.path && r[0].kind == n.kind;
    } else {
      AttachAtFinds(nodes[1..], path, child);
      assert r[0] == n && r[1..] == AttachAt(nodes[1..], path, child);
    }
  }

  /** Where the parent is found with a children list, the new node goes
      there and the top level keeps its length; otherwise the node is
      appended to the top level. */
  lemma AttachPlacement(root: seq<RepoFile>, top: bool, parentPath: string, node: RepoFile)
    ensures var f := FindNodeByPath(root, parentPath);
            var r := Attach(root, top, parentPath, node);
            if !top && f.Some? && f.value.hasChildren
            then |r| == |root|
                 && FindNodeByPath(r, parentPath) == Some(f.value.(children := f.value.children + [node]))
            else r == root + [node]
  {
    var f := FindNodeByPath(root, parentPath);
    if !top && f.Some? && f.value.hasChildren {
      AttachAtFinds(root, parentPath, node);
    }
  }

  // ---------------------------------------------------------------------
  // What the tree holds
  // ---------------------------------------------------------------------

  /** A node with its children list emptied: what it is, apart from what
      was attached under it. */
  function Header(n: RepoFile): RepoFile {
    n.(children := [])
  }

  /** Only directories carry a children list, all the way down. */
  predicate WellFormed(nodes: seq<RepoFile>)
    decreases nodes
  {
    nodes != [] ==>
      (if nodes[0].hasChildren then nodes[0].kind == Dir && WellFormed(nodes[0].children)
       else nodes[0].children == [])
      && WellFormed(nodes[1..])
  }

  /** A node as it is created: a file without children or a directory with
      an empty children list. */
  predicate NewNode(n: RepoFile) {
    n.children == [] && (n.kind == Dir <==> n.hasChildren)
  }

  /** All the nodes the search can reach, children lists emptied, counted
      with multiplicity. */
  function Contents(nodes: seq<RepoFile>): multiset<RepoFile>
    decreases nodes
  {
    if nodes == [] then multiset{}
    else multiset{Header(nodes[0])}
         + (if Descends(nodes[0]) then Contents(nodes[0].children) else multiset{})
         + Contents(nodes[1..])
  }

  /** There are as many of them as the search visits. */
  lemma {:induction false} ContentsSize(nodes: seq<RepoFile>)
    ensures |Contents(nodes)| == |Preorder(nodes)|
    decreases nodes
  {
    if nodes != [] {
      if Descends(nodes[0]) {
        ContentsSize(nodes[0].children);
      }
      ContentsSize(nodes[1..]);
    }
  }

  lemma ContentsCons(n: RepoFile, rest: seq<RepoFile>)
    ensures Contents([n] + rest)
            == multiset{Header(n)} + (if Descends(n) then Contents(n.children) else multiset{}) + Contents(rest)
  {
    assert ([n] + rest)[0] == n && ([n] + rest)[1..] == rest;
  }

  lemma {:induction false} ContentsAppend(a: seq<RepoFile>, b: seq<RepoFile>)
    ensures Contents(a + b) == Contents(a) + Contents(b)
  {
    if a != [] {
      assert a + b == [a[0]] + (a[1..] + b);
      ContentsAppend(a[1..], b);
      ContentsCons(a[0], a[1..] + b);
    } else {
      assert a + b == b;
    }
  }

  lemma WellFormedCons(n: RepoFile, rest: seq<RepoFile>)
    ensures WellFormed([n] + rest)
            <==> (if n.hasChildren then n.kind == Dir && WellFormed(n.children) else n.children == [])
                 && WellFormed(rest)
  {
    assert ([n] + rest)[0] == n && ([n] + rest)[1..] == rest;
  }

  lemma {:induction false} WellFormedAppend(a: seq<RepoFile>, b: seq<RepoFile>)
    requires WellFormed(a) && WellFormed(b)
    ensures WellFormed(a + b)
  {
    if a != [] {
      assert a + b == [a[0]] + (a[1..] + b);
      WellFormedAppend(a[1..], b);
      WellFormedCons(a[0], a[1..] + b);
    } else {
      assert a + b == b;
    }
  }

  /** A new node on its own is a well-formed list holding just that node. */
  lemma NewNodeAlone(n: RepoFile)
    requires NewNode(n)
    ensures WellFormed([n]) && Contents([n]) == multiset{n}
  {
    assert [n][1..] == [];
  }

  /** Appending a new node to a list adds just that node. */
  lemma AppendNewNode(nodes: seq<RepoFile>, n: RepoFile)
    requires WellFormed(nodes) && NewNode(n)
    ensures WellFormed(nodes + [n]) && Contents(nodes + [n]) == Contents(nodes) + multiset{n}
  {
    NewNodeAlone(n);
    WellFormedAppend(nodes, [n]);
    ContentsAppend(nodes, [n]);
  }

  /** Pushing a new node into a well-formed tree keeps it well formed. */
  lemma {:induction false} AttachAtWellFormed(nodes: seq<RepoFile>, path: string, child: RepoFile)
    requires WellFormed(nodes) && NewNode(child)
    ensures WellFormed(AttachAt(nodes, path, child))
    decreases nodes
  {
    if nodes != [] {
      var n := nodes[0];
      var rest := nodes[1..];
      assert nodes == [n] + rest;
      WellFormedCons(n, rest);
      if n.path == path {
        if n.hasChildren {
          AppendNewNode(n.children, child);
          WellFormedCons(n.(children := n.children + [child]), rest);
        }
      } else if Descends(n) && FindNodeByPath(n.children, path).Some? {
        AttachAtWellFormed(n.children, path, child);
        WellFormedCons(n.(children := AttachAt(n.children, path, child)), rest);
      } else {
        AttachAtWellFormed(rest, path, child);
        WellFormedCons(n, AttachAt(rest, path, child));
      }
    }
  }

  /** Pushing a new node into the parent the search finds adds exactly that
      node to the tree's contents. */
  lemma {:induction false} AttachAtContents(nodes: seq<RepoFile>, path: string, child: RepoFile)
    requires WellFormed(nodes) && NewNode(child)
    requires FindNodeByPath(nodes, path).Some? && FindNodeByPath(nodes, path).value.hasChildren
    ensures Contents(AttachAt(nodes, path, child)) == Contents(nodes) + multiset{child}
    decreases nodes
  {
    var n := nodes[0];
    var rest := nodes[1..];
    assert nodes == [n] + rest;
    WellFormedCons(n, rest);
    ContentsCons(n, rest);
    var h := multiset{Header(n)};
    var x := multiset{child};
    if n.path == path {
      assert FindNodeByPath(nodes, path) == Some(n);
      var m := n.(children := n.children + [child]);
      assert AttachAt(nodes, path, child) == [m] + rest;
      assert Header(m) == Header(n) && Descends(m) && Descends(n);
      AppendNewNode(n.children, child);
      ContentsCons(m, rest);
      AddInside(h, Contents(n.children), Contents(rest), x);
    } else if Descends(n) && FindNodeByPath(n.children, path).Some? {
      assert FindNodeByPath(nodes, path) == FindNodeByPath(n.children, path);
      var m := n.(children := AttachAt(n.children, path, child));
      assert AttachAt(nodes, path, child) == [m] + rest;
      assert Header(m) == Header(n) && Descends(m);
      AttachAtContents(n.children, path, child);
      ContentsCons(m, rest);
      AddInside(h, Contents(n.children), Contents(rest), x);
    } else {
      assert FindNodeByPath(nodes, path) == FindNodeByPath(rest, path);
      assert AttachAt(nodes, path, child) == [n] + AttachAt(rest, path, child);
      AttachAtContents(rest, path, child);
      ContentsCons(n, AttachAt(rest, path, child));
      var d := if Descends(n) then Contents(n.children) else multiset{};
      AddLast(h, d, Contents(rest), x);
    }
  }

  lemma AddInside<T>(h: multiset<T>, a: multiset<T>, r: multiset<T>, x: multiset<T>)
    ensures h + (a + x) + r == h + a + r + x
  {
  }

  lemma AddLast<T>(h: multiset<T>, a: multiset<T>, r: multiset<T>, x: multiset<T>)
    ensures h + a + (r + x) == h + a + r + x
  {
  }

  /** Attaching a new node, wherever it goes, adds exactly that node. */
  lemma AttachContents(root: seq<RepoFile>, top: bool, parentPath: string, node: RepoFile)
    requires WellFormed(root) && NewNode(node)
    ensures WellFormed(Attach(root, top, parentPath, node))
    ensures Contents(Attach(root, top, parentPath, node)) == Contents(root) + multiset{node}
  {
    var f := FindNodeByPath(root, parentPath);
    if !top && f.Some? && f.value.hasChildren {
      AttachAtWellFormed(root, parentPath, node);
      AttachAtContents(root, parentPath, node);
    } else {
      AppendNewNode(root, node);
    }
  }

  // ---------------------------------------------------------------------
  // buildFileTree, specified
  // ---------------------------------------------------------------------

  /** The node made for the last segment of an item's path. */
  function LeafNode(item: TreeItem, name: string): (r: RepoFile)
    ensures r.path == item.path && r.name == name
    ensures r.kind == Dir <==> item.itemType == "tree"
    ensures r.hasChildren <==> item.itemType == "tree"
    ensures NewNode(r)
  {
    var isDir := item.itemType == "tree";
    RepoFile(name, item.path, if isDir then Dir else File, isDir, [], item.sha, item.size)
  }

  /** A directory synthesised for a path prefix not yet in the tree. */
  function DirNode(name: string, path: string): (r: RepoFile)
    ensures NewNode(r) && r.kind == Dir && r.name == name && r.path == path
  {
    RepoFile(name, path, Dir, true, [], None, None)
  }

  /** `pathParts.slice(0, k).join('/')`. */
  function Prefix(parts: seq<string>, k: nat): string
    requires k <= |parts|
  {
    Join(parts[..k], '/')
  }

  /** The inner loop's body for segment `i` of an item. Only at the first
      segment is the list being filled the top level itself; the test on
      the prefix then always holds, since the prefix is empty. */
  function Step(root: seq<RepoFile>, item: TreeItem, parts: seq<string>, i: nat): seq<RepoFile>
    requires i < |parts|
  {
    if i == |parts| - 1 then Attach(root, i == 0, Prefix(parts, i), LeafNode(item, parts[i]))
    else if FindNodeByPath(root, Prefix(parts, i + 1)).Some? then root
    else Attach(root, i == 0, Prefix(parts, i), DirNode(parts[i], Prefix(parts, i + 1)))
  }

  /** The first `i` steps for one item. */
  function Steps(root: seq<RepoFile>, item: TreeItem, parts: seq<string>, i: nat): seq<RepoFile>
    requires i <= |parts|
  {
    if i == 0 then root else Step(Steps(root, item, parts, i - 1), item, parts, i - 1)
  }

  function InsertItem(root: seq<RepoFile>, item: TreeItem): seq<RepoFile> {
    var parts := Split(item.path, '/');
    Steps(root, item, parts, |parts|)
  }

  /** `buildFileTree(tree)`: the items inserted in order into an empty top level. */
  function BuildSpec(tree: seq<TreeItem>): seq<RepoFile> {
    if tree == [] then [] else InsertItem(BuildSpec(tree[..|tree| - 1]), tree[|tree| - 1])
  }

  // ---------------------------------------------------------------------
  // What buildFileTree guarantees
  // ---------------------------------------------------------------------

  /** What a step adds: the item's own node at the last segment, a
      synthesised directory before it when the prefix is not found, and
      nothing when it is. */
  ghost function StepAdded(root: seq<RepoFile>, item: TreeItem, parts: seq<string>, i: nat): multiset<RepoFile>
    requires i < |parts|
  {
    if i == |parts| - 1 then multiset{LeafNode(item, parts[i])}
    else if FindNodeByPath(root, Prefix(parts, i + 1)).None? then multiset{DirNode(parts[i], Prefix(parts, i + 1))}
    else multiset{}
  }

  /** What the first `i` steps add. */
  ghost function StepsAdded(root: seq<RepoFile>, item: TreeItem, parts: seq<string>, i: nat): multiset<RepoFile>
    requires i <= |parts|
  {
    if i == 0 then multiset{} else StepsAdded(root, item, parts, i - 1) + StepAdded(Steps(root, item, parts, i - 1), item, parts, i - 1)
  }

  /** A step adds exactly what `StepAdded` says, and leaves the tree well
      formed; when the prefix is found it changes nothing. */
  lemma StepContents(root: seq<RepoFile>, item: TreeItem, parts: seq<string>, i: nat)
    requires WellFormed(root) && i < |parts|
    ensures WellFormed(Step(root, item, parts, i))
    ensures Contents(Step(root, item, parts, i)) == Contents(root) + StepAdded(root, item, parts, i)
    ensures i < |parts| - 1 && FindNodeByPath(root, Prefix(parts, i + 1)).Some?
            ==> Step(root, item, parts, i) == root
  {
    if i == |parts| - 1 {
      AttachContents(root, i == 0, Prefix(parts, i), LeafNode(item, parts[i]));
    } else if FindNodeByPath(root, Prefix(parts, i + 1)).None? {
      AttachContents(root, i == 0, Prefix(parts, i), DirNode(parts[i], Prefix(parts, i + 1)));
    } else {
      assert Contents(root) + multiset{} == Contents(root);
    }
  }

  lemma AddAssoc<T>(a: multiset<T>, b: multiset<T>, c: multiset<T>)
    ensures a + b + c == a + (b + c)
  {
  }

  /** The steps keep the tree well formed and never lose a node: they add
      exactly what `StepsAdded` collects. */
  lemma {:induction false} StepsContents(root: seq<RepoFile>, item: TreeItem, parts: seq<string>, i: nat)
    requires WellFormed(root) && i <= |parts|
    ensures WellFormed(Steps(root, item, parts, i))
    ensures Contents(Steps(root, item, parts, i)) == Contents(root) + StepsAdded(root, item, parts, i)
  {
    if i == 0 {
      StepsZero(root, item, parts);
    } else {
      var prev := Steps(root, item, parts, i - 1);
      StepsContents(root, item, parts, i - 1);
      StepContents(prev, item, parts, i - 1);
      LastStep(root, item, parts, i, prev, Step(prev, item, parts, i - 1));
    }
  }

  /** No steps add nothing. */
  lemma StepsZero(root: seq<RepoFile>, item: TreeItem, parts: seq<string>)
    requires WellFormed(root)
    ensures WellFormed(Steps(root, item, parts, 0))
    ensures Contents(Steps(root, item, parts, 0)) == Contents(root) + StepsAdded(root, item, parts, 0)
  {
    assert Contents(root) + multiset{} == Contents(root);
  }

  /** The last of `i` steps, with the trees before and after it named. */
  lemma LastStep(root: seq<RepoFile>, item: TreeItem, parts: seq<string>, i: nat, prev: seq<RepoFile>, next: seq<RepoFile>)
    requires 0 < i <= |parts| && prev == Steps(root, item, parts, i - 1) && next == Step(prev, item, parts, i - 1)
    requires WellFormed(next)
    requires Contents(prev) == Contents(root) + StepsAdded(root, item, parts, i - 1)
    requires Contents(next) == Contents(prev) + StepAdded(prev, item, parts, i - 1)
    ensures WellFormed(Steps(root, item, parts, i))
    ensures Contents(Steps(root, item, parts, i)) == Contents(root) + StepsAdded(root, item, parts, i)
  {
    assert Steps(root, item, parts, i) == next;
    AddAssoc(Contents(root), StepsAdded(root, item, parts, i - 1), StepAdded(prev, item, parts, i - 1));
  }

  /** The node an item should end up as: named after the last segment of its path. */
  function ItemNode(item: TreeItem): RepoFile {
    var parts := Split(item.path, '/');
    LeafNode(item, parts[|parts| - 1])
  }

  function ItemNodes(tree: seq<TreeItem>): (r: seq<RepoFile>)
    ensures |r| == |tree|
  {
    if tree == [] then [] else ItemNodes(tree[..|tree| - 1]) + [ItemNode(tree[|tree| - 1])]
  }

  /** Inserting an item keeps every node and adds the item's own node. */
  lemma InsertItemContents(root: seq<RepoFile>, item: TreeItem)
    requires WellFormed(root)
    ensures WellFormed(InsertItem(root, item))
    ensures Contents(root) + multiset{ItemNode(item)} <= Contents(InsertItem(root, item))
  {
    var parts := Split(item.path, '/');
    var n := |parts|;
    var prev := Steps(root, item, parts, n - 1);
    var next := Step(prev, item, parts, n - 1);
    assert InsertItem(root, item) == next;
    StepsContents(root, item, parts, n - 1);
    StepContents(prev, item, parts, n - 1);
    var one := multiset{ItemNode(item)};
    assert StepAdded(prev, item, parts, n - 1) == one;
    Included(Contents(root), Contents(prev), Contents(next), StepsAdded(root, item, parts, n - 1), one);
  }

  lemma AddBoth<T>(x: multiset<T>, y: multiset<T>, one: multiset<T>)
    requires x <= y
    ensures x + one <= y + one
  {
  }

  lemma SubMultisetTrans<T>(a: multiset<T>, b: multiset<T>, c: multiset<T>)
    requires a <= b && b <= c
    ensures a <= c
  {
  }

  lemma Included<T>(start: multiset<T>, middle: multiset<T>, end: multiset<T>, added: multiset<T>, one: multiset<T>)
    requires middle == start + added && end == middle + one
    ensures start + one <= end
  {
  }

  /** Every item of the flat listing has its own node in the built tree,
      with the item's path, the last segment of that path as its name, and
      the directory kind and a children list exactly when the item is a
      tree; items listed twice have a node each. */
  lemma {:induction false} EveryItemHasNode(tree: seq<TreeItem>)
    ensures WellFormed(BuildSpec(tree))
    ensures multiset(ItemNodes(tree)) <= Contents(BuildSpec(tree))
  {
    if tree != [] {
      var init := tree[..|tree| - 1];
      var last := tree[|tree| - 1];
      EveryItemHasNode(init);
      InsertItemContents(BuildSpec(init), last);
      assert multiset(ItemNodes(tree)) == multiset(ItemNodes(init)) + multiset{ItemNode(last)};
      AddBoth(multiset(ItemNodes(init)), Contents(BuildSpec(init)), multiset{ItemNode(last)});
      SubMultisetTrans(multiset(ItemNodes(init)) + multiset{ItemNode(last)},
                       Contents(BuildSpec(init)) + multiset{ItemNode(last)}, Contents(BuildSpec(tree)));
    }
  }

  /** Hence the built tree has at least as many nodes as the listing has items. */
  lemma AtLeastOneNodePerItem(tree: seq<TreeItem>)
    ensures |tree| <= |Preorder(BuildSpec(tree))|
  {
    EveryItemHasNode(tree);
    SubMultisetSize(multiset(ItemNodes(tree)), Contents(BuildSpec(tree)));
    ContentsSize(BuildSpec(tree));
  }

  lemma SubMultisetSize<T>(a: multiset<T>, b: multiset<T>)
    requires a <= b
    ensures |a| <= |b|
  {
    assert b == a + (b - a);
  }

  /** A path without `/` is one segment, and its node is appended to the
      top level. */
  lemma TopLevelItemAppended(root: seq<RepoFile>, item: TreeItem)
    requires '/' !in item.path
    ensures InsertItem(root, item) == root + [LeafNode(item, item.path)]
  {
    SplitNone(item.path, '/');
    var parts := Split(item.path, '/');
    assert parts == [item.path];
    assert Steps(root, item, parts, 1) == Step(root, item, parts, 0);
  }

  /** A listing without nested paths becomes the top level, in listing order. */
  lemma {:induction false} FlatListing(tree: seq<TreeItem>)
    requires forall k :: 0 <= k < |tree| ==> '/' !in tree[k].path
    ensures BuildSpec(tree) == seq(|tree|, k requires 0 <= k < |tree| => LeafNode(tree[k], tree[k].path))
  {
    if tree != [] {
      var init := tree[..|tree| - 1];
      FlatListing(init);
      TopLevelItemAppended(BuildSpec(init), tree[|tree| - 1]);
    }
  }

  lemma SrcFileParts()
    ensures Split("src/a.ts", '/') == ["src", "a.ts"]
  {
    var dir, file := "src", "a.ts";
    assert '/' !in dir && '/' !in file;
    SplitCons(dir, '/', file);
    SplitNone(file, '/');
    assert dir + ['/'] + file == "src/a.ts";
  }

  /** A file listed without its directory: the directory is synthesised at
      the top level, without a sha, and the file goes into it. */
  lemma MissingDirectorySynthesised(sha: Option<string>)
    ensures var file := TreeItem("src/a.ts", "blob", sha, None);
            BuildSpec([file])
            == [RepoFile("src", "src", Dir, true, [LeafNode(file, "a.ts")], None, None)]
  {
    var file := TreeItem("src/a.ts", "blob", sha, None);
    var parts := ["src", "a.ts"];
    SrcFileParts();
    assert Prefix(parts, 1) == "src" by {
      assert parts[..1] == ["src"];
    }
    var dir := DirNode("src", "src");
    var afterDir := Step([], file, parts, 0);
    assert afterDir == [dir];
    assert FindNodeByPath(afterDir, "src") == Some(dir);
    var leaf := LeafNode(file, "a.ts");
    assert AttachAt(afterDir, "src", leaf) == [dir.(children := [leaf])] by {
      assert afterDir[1..] == [] && dir.children + [leaf] == [leaf];
    }
    assert Step(afterDir, file, parts, 1) == [dir.(children := [leaf])];
    assert BuildSpec([file]) == InsertItem([], file) by {
      assert [file][..0] == [];
    }
    assert Steps([], file, parts, 1) == afterDir;
    assert InsertItem([], file) == Steps([], file, parts, 2);
  }

  // ---------------------------------------------------------------------
  // buildFileTree, as the source runs it
  // ---------------------------------------------------------------------

  /** The placement of a new node: the top level, or the children list of
      the parent the search finds, or the top level again as the fallback. */
  method AttachNode(rootFiles: seq<RepoFile>, top: bool, parentPath: string, node: RepoFile)
    returns (r: seq<RepoFile>)
    ensures r == Attach(rootFiles, top, parentPath, node)
  {
    if top {
      r := rootFiles + [node];
    } else {
      var parentNode := FindNode(rootFiles, parentPath);
      if parentNode.Some? && parentNode.value.hasChildren {
        r := AttachAt(rootFiles, parentPath, node);
      } else {
        r := rootFiles + [node];
      }
    }
  }

  /** `buildFileTree(tree)`: an outer loop over the items and an inner loop
      over the segments of each item's path. `parentChildrenList ===
      rootFiles` is tracked as `atRoot`. */
  method BuildFileTree(tree: seq<TreeItem>) returns (rootFiles: seq<RepoFile>)
    ensures rootFiles == BuildSpec(tree)
  {
    rootFiles := [];
    var k := 0;
    while k < |tree|
      invariant 0 <= k <= |tree|
      invariant rootFiles == BuildSpec(tree[..k])
    {
      var item := tree[k];
      var pathParts := Split(item.path, '/');
      var atRoot := true;
      var i := 0;
      assert tree[..k + 1][..k] == tree[..k];
      while i < |pathParts|
        invariant 0 <= i <= |pathParts|
        invariant i < |pathParts| ==> (atRoot <==> i == 0)
        invariant rootFiles == Steps(BuildSpec(tree[..k]), item, pathParts, i)
      {
        var part := pathParts[i];
        var parentPath := Join(pathParts[..i], '/');
        if i == |pathParts| - 1 {
          var repoFile := LeafNode(item, part);
          rootFiles := AttachNode(rootFiles, atRoot && parentPath == "", parentPath, repoFile);
        } else {
          var dirPath := Join(pathParts[..i + 1], '/');
          var dirNode := FindNode(rootFiles, dirPath);
          if dirNode.None? {
            rootFiles := AttachNode(rootFiles, atRoot && parentPath == "", parentPath, DirNode(part, dirPath));
          }
          atRoot := false;
        }
        i := i + 1;
      }
      k := k + 1;
    }
    assert tree[..k] == tree;
  }
}
