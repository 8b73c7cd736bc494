/** The tree of generated configuration files: get_node finds or creates the node of a path, and
    write_node lists the tree. Told by paths, the tree behaves like a flat table. */
module ConfigTree {
  import opened Options
  import opened Text

  /** A content object; two contents are the same object if their ids agree. */
  datatype Content = Content(id: nat, cType: char, lines: seq<string>)

  const PLACEHOLDER := Content(0, '?', [])

  /** Names below the root; [] is the root itself. */
  type Path = seq<string>

  datatype Entry = Entry(isDir: bool, isLink: bool, intermediate: bool, content: Content, contentValid: bool)

  datatype Node = Node(entry: Entry, children: map<string, Node>)

  datatype Request = Request(content: Content, dirNode: bool, useExisting: bool, overwriteExisting: bool)

  /** TypeClash: the path names a file and a directory is requested, or the other way round;
      NotADirectory: a file lies on the way. Both are exceptions, as is ContentAlreadySet. */
  datatype Outcome = Found | ContentAlreadySet | TypeClash | NotADirectory

  function NewDir(): Entry { Entry(true, false, true, PLACEHOLDER, false) }

  function NewFile(c: Content): Entry { Entry(false, false, true, c, true) }

  /** The node of the path is reached: what happens to its entry. */
  function TouchEntry(e: Entry, req: Request): (Entry, Outcome) {
    if e.isDir != req.dirNode then (e, TypeClash)
    else if e.contentValid && e.content.id != req.content.id && !req.useExisting && !req.overwriteExisting then
      (e, ContentAlreadySet)
    else
      var c := if !e.contentValid then req.content
               else if e.content.id != req.content.id && req.overwriteExisting then e.content.(lines := [])
               else e.content;
      (e.(content := c, isLink := e.isLink || c.cType == 'l', intermediate := false), Found)
  }

  /** The node that is created when nothing of that name exists. */
  function NewChild(p: Path, req: Request): Node
    requires p != []
  {
    if |p| == 1 && !req.dirNode then Node(NewFile(req.content), map[]) else Node(NewDir(), map[])
  }

  function ChildOf(n: Node, p: Path, req: Request): Node
    requires p != []
  {
    if p[0] in n.children then n.children[p[0]] else NewChild(p, req)
  }

  /** get_node below a node: the changed node and the outcome. */
  function TreeGet(n: Node, p: Path, req: Request): (Node, Outcome)
    decreases |p|
  {
    if p == [] then
      var (e, o) := TouchEntry(n.entry, req);
      (n.(entry := e), o)
    else if !n.entry.isDir then (n, NotADirectory)
    else
      var (child, o) := TreeGet(ChildOf(n, p, req), p[1..], req);
      (n.(children := n.children[p[0] := child]), o)
  }

  function Lookup(n: Node, p: Path): Option<Entry>
    decreases |p|
  {
    if p == [] then Some(n.entry)
    else if p[0] in n.children then Lookup(n.children[p[0]], p[1..])
    else None
  }

  // ----- the flat table -----

  type Table = map<Path, Entry>

  function At(t: Table, p: Path): Option<Entry> { if p in t then Some(t[p]) else None }

  /** A file lies on the way to p. */
  ghost predicate Blocked(t: Table, p: Path) {
    exists i :: 0 <= i < |p| && p[..i] in t && !t[p[..i]].isDir
  }

  /** The entry a request for p starts from: the present one, or a new one of the requested type. */
  function Initial(e: Option<Entry>, req: Request): Entry {
    match e
    case Some(v) => v
    case None => if req.dirNode then NewDir() else NewFile(req.content)
  }

  /** The table with the missing ones of the first n proper prefixes of p as directories. */
  function NewParents(t: Table, p: Path, n: nat): Table
    requires n <= |p|
  {
    if n == 0 then t
    else
      var t' := NewParents(t, p, n - 1);
      if p[..n - 1] in t' then t' else t'[p[..n - 1] := NewDir()]
  }

  ghost function TableGet(t: Table, p: Path, req: Request): (Table, Outcome) {
    if Blocked(t, p) then (t, NotADirectory)
    else
      var (e, o) := TouchEntry(Initial(At(t, p), req), req);
      if o.Found? then (NewParents(t, p, |p|)[p := e], o) else (t, o)
  }

  ghost predicate Refines(n: Node, t: Table) {
    forall q: Path :: Lookup(n, q) == At(t, q)
  }

  // ----- one call on the tree -----

  ghost predicate BlockedIn(n: Node, p: Path) {
    exists i :: 0 <= i < |p| && Lookup(n, p[..i]).Some? && !Lookup(n, p[..i]).value.isDir
  }

  lemma FreshFound(req: Request)
    ensures TouchEntry(NewFile(req.content), req).1 == (if req.dirNode then TypeClash else Found)
    ensures TouchEntry(NewDir(), req).1 == (if req.dirNode then Found else TypeClash)
  {}

  /** Below a new directory everything is new, so nothing can go wrong. */
  lemma {:induction false} FreshSucceeds(p: Path, req: Request)
    requires p != []
    ensures TreeGet(Node(NewDir(), map[]), p, req).1 == Found
  {
    FreshFound(req);
    if |p| > 1 {
      FreshSucceeds(p[1..], req);
    }
  }

  lemma BlockedStep(n: Node, p: Path)
    requires p != [] && n.entry.isDir
    ensures p[0] in n.children ==> (BlockedIn(n, p) <==> BlockedIn(n.children[p[0]], p[1..]))
    ensures p[0] !in n.children ==> !BlockedIn(n, p)
  {
    if p[0] in n.children {
      var c := n.children[p[0]];
      if BlockedIn(n, p) {
        var i :| 0 <= i < |p| && Lookup(n, p[..i]).Some? && !Lookup(n, p[..i]).value.isDir;
        assert i > 0 && p[..i][1..] == p[1..][..i - 1];
        assert Lookup(c, p[1..][..i - 1]).Some?;
      }
      if BlockedIn(c, p[1..]) {
        var i :| 0 <= i < |p[1..]| && Lookup(c, p[1..][..i]).Some? && !Lookup(c, p[1..][..i]).value.isDir;
        assert p[..i + 1][1..] == p[1..][..i];
        assert Lookup(n, p[..i + 1]).Some?;
      }
    } else {
      forall i | 0 <= i < |p| ensures !(Lookup(n, p[..i]).Some? && !Lookup(n, p[..i]).value.isDir) {
        assert i > 0 ==> p[..i][0] == p[0];
      }
    }
  }

  /** The outcome of a call, told by what the tree contains; a call that fails changes nothing. */
  lemma {:induction false} OutcomeOf(n: Node, p: Path, req: Request)
    ensures TreeGet(n, p, req).1 ==
            if BlockedIn(n, p) then NotADirectory else TouchEntry(Initial(Lookup(n, p), req), req).1
    ensures TreeGet(n, p, req).1 != Found ==> TreeGet(n, p, req).0 == n
    decreases |p|
  {
    if p == [] {
    } else if !n.entry.isDir {
      assert Lookup(n, p[..0]).Some?;
    } else {
      BlockedStep(n, p);
      FreshFound(req);
      if p[0] in n.children {
        OutcomeOf(n.children[p[0]], p[1..], req);
        var c := TreeGet(n.children[p[0]], p[1..], req).0;
        assert c == n.children[p[0]] ==> n.children[p[0] := c] == n.children;
      } else if |p| > 1 {
        FreshSucceeds(p[1..], req);
      }
    }
  }

  /** What a successful call leaves behind at every path: the requested one is touched, missing
      parents become directories, everything else is as before. */
  lemma {:induction false} LookupAfter(n: Node, p: Path, req: Request, q: Path)
    requires TreeGet(n, p, req).1 == Found
    ensures Lookup(TreeGet(n, p, req).0, q) ==
            if q == p then Some(TouchEntry(Initial(Lookup(n, p), req), req).0)
            else if q < p && Lookup(n, q).None? then Some(NewDir())
            else Lookup(n, q)
    decreases |p|
  {
    if p != [] && q != [] && q[0] == p[0] {
      var child := ChildOf(n, p, req);
      LookupAfter(child, p[1..], req, q[1..]);
      assert q[1..] == p[1..] <==> q == p by {
        assert q == [q[0]] + q[1..] && p == [p[0]] + p[1..];
      }
      assert q < p <==> q[1..] < p[1..];
      if p[0] !in n.children {
        assert q[1..] != [] ==> Lookup(child, q[1..]).None?;
      }
    }
  }

  // ----- the tree refines the table -----

  lemma {:induction false} ParentsAt(t: Table, p: Path, n: nat, q: Path)
    requires n <= |p|
    ensures At(NewParents(t, p, n), q) ==
            if q <= p && |q| < n && q !in t then Some(NewDir()) else At(t, q)
  {
    if n > 0 {
      ParentsAt(t, p, n - 1, q);
      ParentsAt(t, p, n - 1, p[..n - 1]);
      assert q <= p && |q| == n - 1 <==> q == p[..n - 1];
    }
  }

  lemma SameBlocked(n: Node, t: Table, p: Path)
    requires Refines(n, t)
    ensures BlockedIn(n, p) <==> Blocked(t, p)
  {
    forall i | 0 <= i <= |p| ensures Lookup(n, p[..i]) == At(t, p[..i]) {}
  }

  /** One call on the tree is one call on the table: same outcome, and the same entry at every path. */
  lemma StepRefines(n: Node, t: Table, p: Path, req: Request)
    requires Refines(n, t)
    ensures TreeGet(n, p, req).1 == TableGet(t, p, req).1
    ensures Refines(TreeGet(n, p, req).0, TableGet(t, p, req).0)
  {
    SameBlocked(n, t, p);
    OutcomeOf(n, p, req);
    hide TouchEntry, BlockedIn, Blocked;
    assert Lookup(n, p) == At(t, p);
    if TreeGet(n, p, req).1 == Found {
      forall q: Path ensures Lookup(TreeGet(n, p, req).0, q) == At(TableGet(t, p, req).0, q) {
        LookupAfter(n, p, req, q);
        ParentsAt(t, p, |p|, q);
        assert q < p <==> q <= p && |q| < |p|;
      }
    }
  }

  datatype Call = Call(path: Path, req: Request)

  function Root(): Node { Node(NewDir(), map[]) }

  function RootTable(): Table { map[[] := NewDir()] }

  function RunTree(calls: seq<Call>): Node {
    if calls == [] then Root()
    else TreeGet(RunTree(calls[..|calls| - 1]), calls[|calls| - 1].path, calls[|calls| - 1].req).0
  }

  ghost function RunTable(calls: seq<Call>): Table {
    if calls == [] then RootTable()
    else TableGet(RunTable(calls[..|calls| - 1]), calls[|calls| - 1].path, calls[|calls| - 1].req).0
  }

  /** The outcome of call number i in the run. */
  function OutcomeAt(calls: seq<Call>, i: nat): Outcome
    requires i < |calls|
  {
    TreeGet(RunTree(calls[..i]), calls[i].path, calls[i].req).1
  }

  /** After every sequence of calls the tree holds what the flat table holds. */
  lemma {:induction false} TreeRefinesTable(calls: seq<Call>)
    ensures Refines(RunTree(calls), RunTable(calls))
  {
    hide TreeGet, TableGet, Lookup;
    if calls == [] {
      RootRefines();
    } else {
      var c := calls[|calls| - 1];
      TreeRefinesTable(calls[..|calls| - 1]);
      StepRefines(RunTree(calls[..|calls| - 1]), RunTable(calls[..|calls| - 1]), c.path, c.req);
    }
  }

  lemma RootRefines()
    ensures Refines(Root(), RootTable())
  {}

  /** ... so call for call the outcomes agree. */
  lemma OutcomesAgree(calls: seq<Call>, i: nat)
    requires i < |calls|
    ensures OutcomeAt(calls, i) == TableGet(RunTable(calls[..i]), calls[i].path, calls[i].req).1
  {
    TreeRefinesTable(calls[..i]);
    StepRefines(RunTree(calls[..i]), RunTable(calls[..i]), calls[i].path, calls[i].req);
  }

  // ----- the code's cases, spelled out -----

  /** The outcome of a call: a file on the way, the wrong type, another content that is neither to be
      used nor to be overwritten, and otherwise success. */
  lemma OutcomeExact(n: Node, p: Path, req: Request)
    ensures var e, o := Lookup(n, p), TreeGet(n, p, req).1;
            if BlockedIn(n, p) then o == NotADirectory
            else if e.Some? && e.value.isDir != req.dirNode then o == TypeClash
            else if e.Some? && e.value.contentValid && e.value.content.id != req.content.id &&
                    !req.useExisting && !req.overwriteExisting then o == ContentAlreadySet
            else o == Found
  {
    OutcomeOf(n, p, req);
    hide BlockedIn, Lookup, TreeGet;
  }

  /** The content after a success: that of the request if there was none, and otherwise the old object,
      whose lines are dropped exactly if another content is to overwrite it. */
  ghost predicate ContentAfter(before: Option<Entry>, req: Request, c: Content) {
    if before.None? || !before.value.contentValid then c == req.content
    else
      && c.id == before.value.content.id && c.cType == before.value.content.cType
      && (if c.id != req.content.id && req.overwriteExisting then c.lines == []
          else c.lines == before.value.content.lines)
  }

  /** The requested entry after a success. */
  lemma EntryExact(n: Node, p: Path, req: Request)
    requires TreeGet(n, p, req).1 == Found
    ensures var before, after := Lookup(n, p), Lookup(TreeGet(n, p, req).0, p);
            && after.Some? && ContentAfter(before, req, after.value.content)
            && after.value.isDir == req.dirNode && !after.value.intermediate
            && after.value.contentValid == (if before.Some? then before.value.contentValid else !req.dirNode)
            && (after.value.isLink <==> (before.Some? && before.value.isLink) || after.value.content.cType == 'l')
  {
    OutcomeOf(n, p, req);
    LookupAfter(n, p, req, p);
    hide BlockedIn, Lookup, TreeGet;
  }

  /** A parent that was missing is an intermediate directory without content. */
  lemma ParentExact(n: Node, p: Path, req: Request, q: Path)
    requires TreeGet(n, p, req).1 == Found && q < p && Lookup(n, q).None?
    ensures var e := Lookup(TreeGet(n, p, req).0, q);
            e.Some? && e.value.isDir && e.value.intermediate && !e.value.isLink && !e.value.contentValid
  {
    LookupAfter(n, p, req, q);
    hide Lookup, TreeGet;
  }

  /** A call that does not overwrite the content at p with another one. */
  ghost predicate Spares(c: Call, p: Path, id: nat) {
    c.path == p && c.req.overwriteExisting ==> c.req.content.id == id
  }

  lemma SparedStep(n: Node, c: Call, p: Path)
    requires Lookup(n, p).Some? && Lookup(n, p).value.contentValid && Spares(c, p, Lookup(n, p).value.content.id)
    ensures var e := Lookup(TreeGet(n, c.path, c.req).0, p);
            e.Some? && e.value.contentValid && e.value.content == Lookup(n, p).value.content
  {
    OutcomeOf(n, c.path, c.req);
    if TreeGet(n, c.path, c.req).1 == Found {
      LookupAfter(n, c.path, c.req, p);
      if c.path == p { EntryExact(n, p, c.req); }
    }
    hide BlockedIn, Lookup, TreeGet, TouchEntry;
  }

  /** Over every sequence of calls: the content of a file, its lines too, survives all later calls at
      any path, until one overwrites it with another content. */
  lemma {:induction false} ContentSurvives(calls: seq<Call>, later: seq<Call>, p: Path)
    requires Lookup(RunTree(calls), p).Some? && Lookup(RunTree(calls), p).value.contentValid
    requires forall c :: c in later ==> Spares(c, p, Lookup(RunTree(calls), p).value.content.id)
    ensures var e := Lookup(RunTree(calls + later), p);
            e.Some? && e.value.contentValid && e.value.content == Lookup(RunTree(calls), p).value.content
  {
    hide TreeGet, Lookup, Spares;
    if later == [] {
      assert calls + later == calls;
    } else {
      var init, c := later[..|later| - 1], later[|later| - 1];
      assert later == init + [c] && c in later;
      ContentSurvives(calls, init, p);
      assert (calls + later)[..|calls + later| - 1] == calls + init;
      SparedStep(RunTree(calls + init), c, p);
    }
  }

  // ----- what every sequence of calls keeps -----

  ghost predicate Requested(calls: seq<Call>, p: Path) {
    exists i :: 0 <= i < |calls| && calls[i].path == p && OutcomeAt(calls, i) == Found
  }

  /** Everything in the tree lies below directories; an entry is intermediate exactly if its path
      was never requested with success. */
  ghost predicate PathOk(calls: seq<Call>, n: Node, q: Path) {
    Lookup(n, q).Some? ==>
      && (forall i :: 0 <= i < |q| ==> Lookup(n, q[..i]).Some? && Lookup(n, q[..i]).value.isDir)
      && (Lookup(n, q).value.intermediate <==> !Requested(calls, q))
  }

  lemma RequestedSnoc(calls: seq<Call>, c: Call, q: Path)
    ensures Requested(calls + [c], q) <==>
            Requested(calls, q) || (c.path == q && TreeGet(RunTree(calls), q, c.req).1 == Found)
  {
    hide TreeGet, RunTree;
    var all := calls + [c];
    forall i | 0 <= i < |calls| ensures OutcomeAt(all, i) == OutcomeAt(calls, i) && all[i] == calls[i] {
      assert all[..i] == calls[..i];
    }
    assert all[..|calls|] == calls && all[|calls|] == c;
  }

  lemma PathOkStep(calls: seq<Call>, c: Call, q: Path)
    requires forall p: Path :: PathOk(calls, RunTree(calls), p)
    ensures PathOk(calls + [c], RunTree(calls + [c]), q)
  {
    var n, all := RunTree(calls), calls + [c];
    assert all[..|calls|] == calls;
    var m, o := TreeGet(n, c.path, c.req).0, TreeGet(n, c.path, c.req).1;
    RequestedSnoc(calls, c, q);
    OutcomeOf(n, c.path, c.req);
    assert PathOk(calls, n, q);
    if o == Found {
      if Lookup(m, q).Some? { StillDirectories(calls, n, c, q); }
      LookupAfter(n, c.path, c.req, q);
      if q < c.path && Lookup(n, q).None? && Requested(calls, q) {
        RequestedPresent(calls, q);
      }
      if q == c.path { TouchedEntry(Initial(Lookup(n, q), c.req), c.req); }
    }
  }

  lemma TouchedEntry(e: Entry, req: Request)
    requires TouchEntry(e, req).1 == Found
    ensures !TouchEntry(e, req).0.intermediate && TouchEntry(e, req).0.isDir == e.isDir
  {}

  /** A successful call leaves every proper prefix of an existing path a directory. */
  lemma StillDirectories(calls: seq<Call>, n: Node, c: Call, q: Path)
    requires forall p: Path :: PathOk(calls, n, p)
    requires TreeGet(n, c.path, c.req).1 == Found && Lookup(TreeGet(n, c.path, c.req).0, q).Some?
    ensures forall i :: 0 <= i < |q| ==> var e := Lookup(TreeGet(n, c.path, c.req).0, q[..i]); e.Some? && e.value.isDir
  {
    hide TouchEntry, TreeGet;
    OutcomeOf(n, c.path, c.req);
    LookupAfter(n, c.path, c.req, q);
    forall i | 0 <= i < |q|
      ensures var e := Lookup(TreeGet(n, c.path, c.req).0, q[..i]); e.Some? && e.value.isDir
    {
      LookupAfter(n, c.path, c.req, q[..i]);
      assert PathOk(calls, n, q);
      if Lookup(n, q).None? {
        assert q <= c.path;
        assert q[..i] == c.path[..i];
      } else if q[..i] == c.path {
        TouchedEntry(Initial(Lookup(n, c.path), c.req), c.req);
      }
    }
  }

  lemma RequestedPresent(calls: seq<Call>, q: Path)
    requires Requested(calls, q)
    ensures Lookup(RunTree(calls), q).Some?
  {
    var i :| 0 <= i < |calls| && calls[i].path == q && OutcomeAt(calls, i) == Found;
    assert calls[..i + 1][..i] == calls[..i];
    assert RunTree(calls[..i + 1]) == TreeGet(RunTree(calls[..i]), q, calls[i].req).0;
    hide TreeGet, Lookup, RunTree, Requested;
    LookupAfter(RunTree(calls[..i]), q, calls[i].req, q);
    StaysPresent(calls, i + 1, q);
  }

  /** Nothing is ever removed. */
  lemma {:induction false} StaysPresent(calls: seq<Call>, k: nat, q: Path)
    requires k <= |calls| && Lookup(RunTree(calls[..k]), q).Some?
    ensures Lookup(RunTree(calls), q).Some?
    decreases |calls|
  {
    hide TreeGet, Lookup;
    if k == |calls| {
      assert calls[..k] == calls;
    } else {
      var before, c := calls[..|calls| - 1], calls[|calls| - 1];
      assert before[..k] == calls[..k];
      StaysPresent(before, k, q);
      OutcomeOf(RunTree(before), c.path, c.req);
      if TreeGet(RunTree(before), c.path, c.req).1 == Found {
        LookupAfter(RunTree(before), c.path, c.req, q);
      }
    }
  }

  /** Over every sequence of calls. */
  lemma {:induction false} WellPlaced(calls: seq<Call>, q: Path)
    ensures PathOk(calls, RunTree(calls), q)
  {
    if calls == [] {
      assert q != [] ==> Lookup(Root(), q).None?;
    } else {
      var before, c := calls[..|calls| - 1], calls[|calls| - 1];
      forall p: Path ensures PathOk(before, RunTree(before), p) {
        WellPlaced(before, p);
      }
      PathOkStep(before, c, q);
      assert before + [c] == calls;
    }
  }

  // ----- paths as text -----

  /** The names in an absolute path. */
  function Names(path: string): Path { Split(path, '/')[1..] }

  predicate ProperName(s: string) { s != "" && s != "." && s != ".." }

  /** An absolute path below the root that os.path.normpath does not change. */
  predicate Normal(path: string) {
    path != "" && path[0] == '/' && Names(path) != [] && forall s :: s in Names(path) ==> ProperName(s)
  }

  function OsJoin(a: string, b: string): string {
    if b != "" && b[0] == '/' then b
    else if a == "" || a[|a| - 1] == '/' then a + b
    else a + "/" + b
  }

  /** get_path of the node below the root (whose own name is empty) with the given names. */
  function GetPath(p: Path): string {
    if p == [] then "" else OsJoin(GetPath(p[..|p| - 1]), p[|p| - 1])
  }

  ghost predicate GoodNames(p: Path) { forall s :: s in p ==> ProperName(s) && '/' !in s }

  lemma {:induction false} JoinSnoc(p: Path, s: string, c: char)
    requires p != []
    ensures Join(p + [s], c) == Join(p, c) + [c] + s
  {
    if |p| > 1 {
      JoinSnoc(p[1..], s, c);
      assert (p + [s])[1..] == p[1..] + [s];
    } else {
      assert (p + [s])[1..] == [s];
    }
  }

  lemma {:induction false} GetPathJoins(p: Path)
    requires GoodNames(p)
    ensures GetPath(p) == Join(p, '/')
    ensures p != [] ==> GetPath(p) != "" && GetPath(p)[|GetPath(p)| - 1] != '/'
  {
    if p != [] {
      var before, s := p[..|p| - 1], p[|p| - 1];
      assert p == before + [s] && s in p && s[|s| - 1] in s;
      assert GoodNames(before) by { assert forall x :: x in before ==> x in p; }
      GetPathJoins(before);
      if before != [] { JoinSnoc(before, s, '/'); }
      assert s[0] in s;
    }
  }

  /** A node is found again under a slash and its get_path, which has none at the beginning. */
  lemma PathRoundTrip(p: Path)
    requires p != [] && GoodNames(p)
    ensures Normal("/" + GetPath(p)) && Names("/" + GetPath(p)) == p
    ensures GetPath(p) != "" && GetPath(p)[0] != '/'
  {
    GetPathJoins(p);
    SplitJoinExact(p, '/');
    SplitAppend("", Join(p, '/'), '/');
    SplitNone("", '/');
    assert "/" + GetPath(p) == "" + ['/'] + Join(p, '/');
    JoinFirst(p);
  }

  lemma JoinFirst(p: Path)
    requires p != [] && GoodNames(p)
    ensures Join(p, '/') != "" && Join(p, '/')[0] != '/'
  {
    assert p[0] in p && p[0][0] in p[0];
  }
}
