/** The nodes of the configuration tree as objects that get_node changes in place, and the rows
    write_node saves for them. */
module ConfigNodes {
  import opened ConfigTree
  import opened Enumeration
  import opened Options

  /** A saved row: the node's own name, its entry, and the id of its parent's row. */
  datatype Row = Row(name: string, entry: Entry, parent: Option<nat>)

  class TreeNode {
    const name: string
    const isDir: bool
    var isLink: bool
    var intermediate: bool
    var content: Content
    var contentValid: bool
    var childs: map<string, TreeNode>
    ghost var tree: Node
    ghost var repr: set<object>

    function EntryOf(): Entry
      reads this
    {
      Entry(isDir, isLink, intermediate, content, contentValid)
    }

    /** The objects below this one form a tree, and tree is its value. */
    ghost predicate Valid()
      reads this, repr
      ensures Valid() ==> this in repr && tree.entry.isDir == isDir && tree.children.Keys == childs.Keys
      decreases repr
    {
      && this in repr
      && tree.entry == EntryOf() && tree.children.Keys == childs.Keys
      && (!isDir ==> childs == map[])
      && (forall k :: k in childs ==> ChildOk(k))
      && (forall j, k :: j in childs && k in childs && j != k ==> childs[j].repr !! childs[k].repr)
    }

    ghost predicate ChildOk(k: string)
      requires k in childs && k in tree.children
      reads this, repr
      decreases repr, 0
    {
      var c := childs[k];
      && c in repr && c.repr <= repr && this !in c.repr && this in repr
      && c.name == k && c.Valid() && c.tree == tree.children[k]
    }

    constructor (name: string, c: Option<Content>, isDir: bool)
      ensures Valid() && fresh(repr) && this.name == name && this.isDir == isDir
      ensures tree == Node(Entry(isDir, false, true, if c.None? then PLACEHOLDER else c.value, c.Some?), map[])
    {
      this.name, this.isDir := name, isDir;
      isLink, intermediate := false, true;
      content, contentValid := if c.None? then PLACEHOLDER else c.value, c.Some?;
      childs, repr := map[], {this};
      tree := Node(Entry(isDir, false, true, if c.None? then PLACEHOLDER else c.value, c.Some?), map[]);
    }

    lemma OpenChild(k: string)
      requires Valid() && k in childs
      ensures childs[k].Valid() && childs[k] in repr && childs[k].repr <= repr && this !in childs[k].repr
      ensures this in repr && k in tree.children && childs[k].tree == tree.children[k] && childs[k].name == k
      ensures tree.entry == EntryOf() && tree.children.Keys == childs.Keys && isDir
    {
      assert ChildOk(k);
    }

    /** Only the subtree under k, the fields tree and repr, and new objects have changed. */
    twostate lemma Rejoin(k: string)
      requires old(Valid()) && k in old(childs)
      requires childs == old(childs) && EntryOf() == old(EntryOf())
      requires childs[k].Valid() && fresh(childs[k].repr - old(childs[k].repr))
      requires forall o :: o in old(repr) && o !in old(childs[k].repr) && o != this ==> unchanged(o)
      requires repr == old(repr) + childs[k].repr
      requires tree == old(tree).(children := old(tree).children[k := childs[k].tree])
      ensures Valid()
    {
      assert old(ChildOk(k));
      forall j | j in childs && j != k
        ensures ChildOk(j) && childs[j].repr == old(childs[j].repr) && childs[j].repr !! childs[k].repr
      {
        assert old(ChildOk(j) && childs[j] in childs[j].repr);
        assert old(childs[j].repr !! childs[k].repr);
      }
    }

    /** Finds or creates the node below this one. */
    method GetNode(p: Path, req: Request) returns (o: Outcome)
      requires Valid()
      modifies repr
      ensures Valid() && fresh(repr - old(repr))
      ensures (tree, o) == TreeGet(old(tree), p, req)
      decreases |p|
    {
      hide Valid, TouchEntry, EntryOf;
      if p == [] {
        o := Touch(req);
      } else if !isDir {
        o := NotADirectory;
      } else {
        if p[0] !in childs {
          AddChild(p, req);
        }
        ghost var child := tree.children[p[0]];
        assert child == ChildOf(old(tree), p, req);
        o := GetInChild(p, req);
        ghost var child' := TreeGet(child, p[1..], req).0;
        assert tree.children == old(tree).children[p[0] := child'];
      }
    }

    method GetInChild(p: Path, req: Request) returns (o: Outcome)
      requires Valid() && p != [] && p[0] in childs
      modifies repr
      ensures Valid() && fresh(repr - old(repr))
      ensures var child := TreeGet(old(tree).children[p[0]], p[1..], req).0;
              tree == old(tree).(children := old(tree).children[p[0] := child])
      ensures o == TreeGet(old(tree).children[p[0]], p[1..], req).1
      decreases |p|, 0
    {
      hide Valid, TreeGet;
      OpenChild(p[0]);
      var child := childs[p[0]];
      o := child.GetNode(p[1..], req);
      repr := repr + child.repr;
      tree := tree.(children := tree.children[p[0] := child.tree]);
      Rejoin(p[0]);
    }

    method TouchFields(req: Request) returns (o: Outcome)
      modifies this`content, this`isLink, this`intermediate
      ensures (EntryOf(), o) == TouchEntry(old(EntryOf()), req)
    {
      if isDir != req.dirNode {
        return TypeClash;
      }
      if contentValid {
        if content.id != req.content.id {
          if !req.useExisting && !req.overwriteExisting {
            return ContentAlreadySet;
          }
          if req.overwriteExisting {
            content := content.(lines := []);
          }
        }
      } else {
        content := req.content;
      }
      if content.cType == 'l' {
        isLink := true;
      }
      intermediate := false;
      o := Found;
    }

    method Touch(req: Request) returns (o: Outcome)
      requires Valid()
      modifies this
      ensures Valid() && repr == old(repr)
      ensures (tree, o) == TreeGet(old(tree), [], req)
    {
      hide TouchEntry;
      o := TouchFields(req);
      tree := tree.(entry := EntryOf());
      assert forall k :: k in childs ==> old(ChildOk(k)) && ChildOk(k);
    }

    method AddChild(p: Path, req: Request)
      requires Valid() && isDir && p != [] && p[0] !in childs
      modifies this
      ensures Valid() && fresh(repr - old(repr)) && p[0] in childs && isDir
      ensures tree == old(tree).(children := old(tree).children[p[0] := NewChild(p, req)])
    {
      var child;
      if |p| == 1 && !req.dirNode {
        child := new TreeNode(p[0], Some(req.content), false);
      } else {
        child := new TreeNode(p[0], None, true);
      }
      childs := childs[p[0] := child];
      repr := repr + child.repr;
      tree := tree.(children := tree.children[p[0] := child.tree]);
      Adopt(p[0]);
    }

    /** A new child was added under k. */
    twostate lemma Adopt(k: string)
      requires old(Valid()) && isDir && k !in old(childs) && k in childs
      requires childs == old(childs)[k := childs[k]] && EntryOf() == old(EntryOf())
      requires fresh(childs[k].repr) && childs[k].Valid() && childs[k].name == k
      requires forall o :: o in old(repr) && o != this ==> unchanged(o)
      requires repr == old(repr) + childs[k].repr
      requires tree == old(tree).(children := old(tree).children[k := childs[k].tree])
      ensures Valid()
    {
      forall j | j in childs && j != k
        ensures ChildOk(j) && childs[j].repr == old(childs[j].repr) && childs[j].repr !! childs[k].repr
      {
        assert old(ChildOk(j));
      }
    }

    /** Saves a row for this node and then its children, in any order; the first row gets the id
        base. The paths say which row is which. */
    method WriteNode(base: nat, parent: Option<nat>, ghost p: Path) returns (rows: seq<Row>, ghost paths: seq<Path>)
      requires Valid()
      ensures rows != [] && rows[0].name == name && Listed(tree, p, base, parent, rows, paths)
      decreases repr
    {
      rows, paths := [Row(name, EntryOf(), parent)], [p];
      hide Listed, Part;
      ListedAlone(tree, p, base, parent, rows[0]);
      var todo := childs.Keys;
      ghost var done: set<string> := {};
      while isDir && todo != {}
        invariant done + todo == childs.Keys && done !! todo
        invariant rows != [] && rows[0].name == name && Listed(Part(tree, done), p, base, parent, rows, paths)
        decreases todo
      {
        var k :| k in todo;
        OpenChild(k);
        var sub, subPaths := childs[k].WriteNode(base + |rows|, Some(base), p + [k]);
        ListedChild(tree, done, k, p, base, parent, rows, paths, sub, subPaths);
        rows, paths := rows + sub, paths + subPaths;
        todo, done := todo - {k}, done + {k};
      }
      PartAll(tree, done);
    }

    /** The rows of a whole tree: parents first, every node once. */
    method WriteTree() returns (rows: seq<Row>)
      requires Valid()
      ensures ParentsFirst(rows) && Stores(rows, tree)
    {
      ghost var paths;
      rows, paths := WriteNode(0, None, []);
      ListedStores(tree, rows, paths);
    }
  }

  // ----- what the rows say -----

  /** The tree with only the given ones of the root's children. */
  ghost function Part(n: Node, names: set<string>): Node {
    Node(n.entry, map k | k in n.children && k in names :: n.children[k])
  }

  /** The row is that of the node at its path. */
  ghost predicate EntriesOk(n: Node, p: Path, rows: seq<Row>, paths: seq<Path>) {
    |rows| == |paths| &&
    forall i :: 0 <= i < |rows| ==> p <= paths[i] && Lookup(n, paths[i][|p|..]) == Some(rows[i].entry)
  }

  ghost predicate AllThere(n: Node, p: Path, paths: seq<Path>) {
    forall q: Path :: Lookup(n, q).Some? ==> p + q in paths
  }

  /** The parent's row comes first. */
  ghost predicate LinksOk(base: nat, rows: seq<Row>, paths: seq<Path>) {
    |rows| == |paths| &&
    forall i :: 0 < i < |rows| ==>
                  && rows[i].parent.Some? && base <= rows[i].parent.value < base + i
                  && paths[i] == paths[rows[i].parent.value - base] + [rows[i].name]
  }

  /** The rows, with ids from base on, are those of the nodes at the given paths: every node of the
      tree below p, once. */
  ghost predicate Listed(n: Node, p: Path, base: nat, parent: Option<nat>, rows: seq<Row>, paths: seq<Path>) {
    && |paths| == |rows| > 0 && paths[0] == p && rows[0].parent == parent
    && EntriesOk(n, p, rows, paths) && AllThere(n, p, paths) && Distinct(paths) && LinksOk(base, rows, paths)
  }

  lemma ListedAlone(n: Node, p: Path, base: nat, parent: Option<nat>, row: Row)
    requires row.entry == n.entry && row.parent == parent
    ensures Listed(Part(n, {}), p, base, parent, [row], [p])
  {
    forall q: Path | Lookup(Part(n, {}), q).Some? ensures p + q in [p] {
      assert q == [];
      assert p + q == p;
    }
    assert p[|p|..] == [];
  }

  lemma PartAll(n: Node, names: set<string>)
    requires n.children.Keys <= names
    ensures Part(n, names) == n
  {
    assert Part(n, names).children == n.children;
  }

  lemma LookupPart(n: Node, names: set<string>, q: Path)
    ensures Lookup(Part(n, names), q) == if q == [] || q[0] in names then Lookup(n, q) else None
  {}

  /** The rows of one more child are appended. */
  lemma ListedChild(n: Node, done: set<string>, k: string, p: Path, base: nat, parent: Option<nat>,
                    rows: seq<Row>, paths: seq<Path>, sub: seq<Row>, subPaths: seq<Path>)
    requires k in n.children && k !in done
    requires Listed(Part(n, done), p, base, parent, rows, paths)
    requires Listed(n.children[k], p + [k], base + |rows|, Some(base), sub, subPaths) && sub[0].name == k
    ensures Listed(Part(n, done + {k}), p, base, parent, rows + sub, paths + subPaths)
  {
    hide EntriesOk, AllThere, Distinct, LinksOk, Part;
    EntriesAppend(n, done, k, p, rows, paths, sub, subPaths);
    AllPresent(n, done, k, p, paths, subPaths);
    PathsDistinct(n, done, k, p, rows, paths, sub, subPaths);
    LinksAppend(base, rows, paths, sub, subPaths, p, k);
  }

  lemma EntriesAppend(n: Node, done: set<string>, k: string, p: Path,
                      rows: seq<Row>, paths: seq<Path>, sub: seq<Row>, subPaths: seq<Path>)
    requires k in n.children && k !in done
    requires EntriesOk(Part(n, done), p, rows, paths) && EntriesOk(n.children[k], p + [k], sub, subPaths)
    ensures EntriesOk(Part(n, done + {k}), p, rows + sub, paths + subPaths)
  {
    var ps, rs := paths + subPaths, rows + sub;
    forall i | 0 <= i < |rs| ensures p <= ps[i] && Lookup(Part(n, done + {k}), ps[i][|p|..]) == Some(rs[i].entry) {
      if i < |rows| {
        LookupPart(n, done, paths[i][|p|..]);
        LookupPart(n, done + {k}, paths[i][|p|..]);
      } else {
        var x := subPaths[i - |rows|];
        assert x[|p|..][0] == (p + [k])[|p|] == k && x[|p|..][1..] == x[|p + [k]|..];
        LookupPart(n, done + {k}, x[|p|..]);
      }
    }
  }

  lemma NamesBelow(p: Path, k: string, paths: seq<Path>)
    ensures forall i :: 0 <= i < |paths| && p + [k] <= paths[i] ==> paths[i][|p|..] != [] && paths[i][|p|..][0] == k
  {
    forall i | 0 <= i < |paths| && p + [k] <= paths[i] ensures paths[i][|p|..] != [] && paths[i][|p|..][0] == k {
      assert paths[i][|p|] == (p + [k])[|p|];
    }
  }

  lemma PathsDistinct(n: Node, done: set<string>, k: string, p: Path,
                      rows: seq<Row>, paths: seq<Path>, sub: seq<Row>, subPaths: seq<Path>)
    requires k in n.children && k !in done && Distinct(paths) && Distinct(subPaths)
    requires EntriesOk(Part(n, done), p, rows, paths) && EntriesOk(n.children[k], p + [k], sub, subPaths)
    ensures Distinct(paths + subPaths)
  {
    NamesBelow(p, k, paths);
    forall i, j | 0 <= i < |paths| && 0 <= j < |subPaths| ensures paths[i] != subPaths[j] {
      LookupPart(n, done, paths[i][|p|..]);
    }
  }

  lemma LinksAppend(base: nat, rows: seq<Row>, paths: seq<Path>, sub: seq<Row>, subPaths: seq<Path>, p: Path, k: string)
    requires LinksOk(base, rows, paths) && rows != [] && paths[0] == p
    requires LinksOk(base + |rows|, sub, subPaths) && sub != [] && subPaths[0] == p + [k]
    requires sub[0].parent == Some(base) && sub[0].name == k
    ensures LinksOk(base, rows + sub, paths + subPaths)
  {
    var ps, rs := paths + subPaths, rows + sub;
    forall i | 0 < i < |rs|
      ensures rs[i].parent.Some? && base <= rs[i].parent.value < base + i
      ensures ps[i] == ps[rs[i].parent.value - base] + [rs[i].name]
    {
      if i >= |rows| {
        assert rs[i] == sub[i - |rows|] && ps[i] == subPaths[i - |rows|];
      }
    }
  }

  lemma AllPresent(n: Node, done: set<string>, k: string, p: Path, paths: seq<Path>, subPaths: seq<Path>)
    requires k in n.children && k !in done
    requires AllThere(Part(n, done), p, paths) && AllThere(n.children[k], p + [k], subPaths)
    ensures AllThere(Part(n, done + {k}), p, paths + subPaths)
  {
    forall q: Path | Lookup(Part(n, done + {k}), q).Some? ensures p + q in paths + subPaths {
      LookupPart(n, done + {k}, q);
      LookupPart(n, done, q);
      if q != [] && q[0] == k {
        assert Lookup(n.children[k], q[1..]).Some?;
        assert p + [k] + q[1..] == p + q;
      }
    }
  }

  ghost predicate ParentsFirst(rows: seq<Row>) {
    rows != [] && rows[0].parent.None? &&
    forall i :: 0 < i < |rows| ==> rows[i].parent.Some? && rows[i].parent.value < i
  }

  /** The path of a row, from the saved names and parent links alone. */
  ghost function PathOf(rows: seq<Row>, i: nat): Path
    requires ParentsFirst(rows) && i < |rows|
  {
    if i == 0 then [] else PathOf(rows, rows[i].parent.value) + [rows[i].name]
  }

  /** The saved rows hold the tree and nothing else, every node once. */
  ghost predicate Stores(rows: seq<Row>, n: Node)
    requires ParentsFirst(rows)
  {
    && (forall i :: 0 <= i < |rows| ==> Lookup(n, PathOf(rows, i)) == Some(rows[i].entry))
    && (forall q: Path :: Lookup(n, q).Some? ==> exists i :: 0 <= i < |rows| && PathOf(rows, i) == q)
    && (forall i, j :: 0 <= i < j < |rows| ==> PathOf(rows, i) != PathOf(rows, j))
  }

  lemma ListedStores(n: Node, rows: seq<Row>, paths: seq<Path>)
    requires Listed(n, [], 0, None, rows, paths)
    ensures ParentsFirst(rows) && Stores(rows, n)
  {
    forall i | 0 <= i < |rows| ensures PathOf(rows, i) == paths[i] && paths[i][0..] == paths[i] {
      PathOfRow(n, rows, paths, i);
    }
    hide Lookup, PathOf;
    forall q: Path | Lookup(n, q).Some? ensures exists i :: 0 <= i < |rows| && PathOf(rows, i) == q {
      assert [] + q == q;
      var i :| 0 <= i < |paths| && paths[i] == q;
      assert PathOf(rows, i) == q;
    }
  }

  lemma {:induction false} PathOfRow(n: Node, rows: seq<Row>, paths: seq<Path>, i: nat)
    requires Listed(n, [], 0, None, rows, paths) && i < |rows|
    ensures ParentsFirst(rows) && PathOf(rows, i) == paths[i]
  {
    if i > 0 { PathOfRow(n, rows, paths, rows[i].parent.value); }
  }

  lemma StoredIn(rows: seq<Row>, m: Node, n: Node, q: Path)
    requires ParentsFirst(rows) && Stores(rows, m) && Stores(rows, n)
    ensures Lookup(m, q).Some? ==> Lookup(n, q) == Lookup(m, q)
  {
    if Lookup(m, q).Some? {
      var i :| 0 <= i < |rows| && PathOf(rows, i) == q;
    }
  }

  /** The rows determine the tree: two trees stored by the same rows have the same entry at every path. */
  lemma RowsDetermineTree(rows: seq<Row>, m: Node, n: Node, q: Path)
    requires ParentsFirst(rows) && Stores(rows, m) && Stores(rows, n)
    ensures Lookup(m, q) == Lookup(n, q)
  {
    StoredIn(rows, m, n, q);
    StoredIn(rows, n, m, q);
  }

  class GeneratedTree {
    const root: TreeNode
    ghost var calls: seq<Call>

    /** The tree is the result of the calls so far. */
    ghost predicate Valid()
      reads this, root, root.repr
    {
      root.Valid() && this !in root.repr && root.tree == RunTree(calls)
    }

    constructor ()
      ensures Valid() && fresh(root.repr) && calls == []
    {
      root := new TreeNode("", None, true);
      calls := [];
    }

    method GetNode(path: string, req: Request) returns (o: Outcome)
      requires Valid() && Normal(path)
      modifies this, root.repr
      ensures Valid() && calls == old(calls) + [Call(Names(path), req)] && fresh(root.repr - old(root.repr))
      ensures o == OutcomeAt(calls, |calls| - 1)
      ensures o == TableGet(RunTable(old(calls)), Names(path), req).1
      ensures Refines(root.tree, RunTable(calls))
    {
      o := root.GetNode(Names(path), req);
      calls := calls + [Call(Names(path), req)];
      assert calls[..|calls| - 1] == old(calls);
      OutcomesAgree(calls, |calls| - 1);
      TreeRefinesTable(calls);
    }
  }
}
