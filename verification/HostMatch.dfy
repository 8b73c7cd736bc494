/** Aggregation, who belongs where: hosts known to collectd by uuid and name are matched to the
    devices of the database, and the matched ones are divided among the device groups. */
module HostMatch {
  import opened Enumeration
  import opened Text

  datatype Device = Device(name: string, uuid: string, group: string)

  /** One aggregate to build: the group, the name it is sent under, the hosts to sum up. */
  datatype Part = Part(uuid: string, sendName: string, members: seq<string>)

  function ShortName(name: string): string { Split(name, '.')[0] }

  // ----- the look-up table: one dictionary for names, uuids and short names -----

  function PutDevice(m: map<string, Device>, d: Device): map<string, Device> {
    m[d.name := d][d.uuid := d][ShortName(d.name) := d]
  }

  function LutOf(ds: seq<Device>): map<string, Device> {
    if ds == [] then map[] else PutDevice(LutOf(ds[..|ds| - 1]), ds[|ds| - 1])
  }

  function ShortNames(ds: seq<Device>): set<string> { set d | d in ds :: ShortName(d.name) }

  /** Short names that were already taken when a device was added. */
  function Shared(ds: seq<Device>): set<string> {
    if ds == [] then {}
    else
      var before, s := ds[..|ds| - 1], ShortName(ds[|ds| - 1].name);
      Shared(before) + if s in ShortNames(before) then {s} else {}
  }

  /** The device added last under a short name. */
  function LastShort(ds: seq<Device>, s: string): Device
    requires s in ShortNames(ds)
  {
    var before, d := ds[..|ds| - 1], ds[|ds| - 1];
    assert ds == before + [d];
    if ShortName(d.name) == s then d else LastShort(before, s)
  }

  lemma ShortNamesSnoc(ds: seq<Device>)
    requires ds != []
    ensures ShortNames(ds) == ShortNames(ds[..|ds| - 1]) + {ShortName(ds[|ds| - 1].name)}
    ensures forall d :: d in ds <==> d in ds[..|ds| - 1] || d == ds[|ds| - 1]
  {
    hide ShortName;
    assert ds == ds[..|ds| - 1] + [ds[|ds| - 1]];
  }

  lemma {:induction false} SharedExact(ds: seq<Device>, s: string)
    ensures s in Shared(ds) <==> exists i, j :: 0 <= i < j < |ds| && ShortName(ds[i].name) == s == ShortName(ds[j].name)
  {
    hide ShortName;
    if ds != [] {
      var before, d := ds[..|ds| - 1], ds[|ds| - 1];
      SharedExact(before, s);
      if s in Shared(before) {
        var i, j :| 0 <= i < j < |before| && ShortName(before[i].name) == s == ShortName(before[j].name);
        assert ds[i] == before[i] && ds[j] == before[j];
      } else if s in ShortNames(before) && ShortName(d.name) == s {
        var e :| e in before && ShortName(e.name) == s;
        var i :| 0 <= i < |before| && before[i] == e;
        assert ds[i] == e && ds[|ds| - 1] == d;
      }
      if i, j :| 0 <= i < j < |ds| && ShortName(ds[i].name) == s == ShortName(ds[j].name) {
        assert before[i] == ds[i] && before[i] in before;
        if j < |ds| - 1 { assert before[j] == ds[j]; }
      }
    }
  }

  lemma {:induction false} FirstPiece(s: string, c: char)
    ensures c !in Split(s, c)[0]
    ensures c !in s ==> Split(s, c)[0] == s
  {
    if s != [] {
      FirstPiece(s[1..], c);
      assert s == [s[0]] + s[1..];
    }
  }

  lemma ShortOf(name: string, f: string)
    ensures ShortName(name) == f ==> '.' !in f
    ensures '.' !in f && name == f ==> ShortName(name) == f
  {
    FirstPiece(name, '.');
  }

  /** An undotted name that is no uuid leads to the device added last under this short name. */
  lemma {:induction false} UndottedIsShort(ds: seq<Device>, f: string)
    requires '.' !in f && forall d :: d in ds ==> d.uuid != f
    ensures f in LutOf(ds) <==> f in ShortNames(ds)
    ensures f in LutOf(ds) ==> LutOf(ds)[f] == LastShort(ds, f)
  {
    hide ShortName;
    if ds != [] {
      ShortNamesSnoc(ds);
      UndottedIsShort(ds[..|ds| - 1], f);
      ShortOf(ds[|ds| - 1].name, f);
    }
  }

  /** A dotted name that is no uuid leads to a device of that name. */
  lemma {:induction false} DottedIsFull(ds: seq<Device>, f: string)
    requires '.' in f && forall d :: d in ds ==> d.uuid != f
    ensures f in LutOf(ds) <==> exists d :: d in ds && d.name == f
    ensures f in LutOf(ds) ==> LutOf(ds)[f].name == f
  {
    hide ShortName;
    if ds != [] {
      ShortNamesSnoc(ds);
      DottedIsFull(ds[..|ds| - 1], f);
      ShortOf(ds[|ds| - 1].name, f);
    }
  }

  /** Matching by full name finds a device of that name exactly if the name has a domain or the
      device added last under this short name bears it: an undotted name is a short name too, and
      the table keeps one device for both. */
  lemma FullNameExact(ds: seq<Device>, f: string)
    requires exists d :: d in ds && d.name == f
    requires forall d :: d in ds ==> d.uuid != f
    ensures f in LutOf(ds) && ('.' !in f ==> f in ShortNames(ds))
    ensures LutOf(ds)[f].name == f <==> '.' in f || LastShort(ds, f).name == f
  {
    hide ShortName;
    var d :| d in ds && d.name == f;
    ShortOf(d.name, f);
    if '.' in f {
      DottedIsFull(ds, f);
    } else {
      assert ShortName(d.name) in ShortNames(ds);
      UndottedIsShort(ds, f);
    }
  }

  /** A device "a" of group g1 and a device "a.b" of group g2: the host that is called "a" finds
      the second one, and is summed up in its group. */
  lemma FullNameTaken(g1: string, g2: string)
    ensures var ds := [Device("a", "u1", g1), Device("a.b", "u2", g2)];
            "a" in LutOf(ds) && LutOf(ds)["a"] == ds[1]
  {
    AShort();
    hide ShortName;
  }

  lemma AShort()
    ensures ShortName("a") == "a" && ShortName("a.b") == "a"
  {
    SplitAppend("a", "b", '.');
    SplitNone("a", '.');
    hide Split;
    assert "a.b" == "a" + ['.'] + "b";
  }

  /** In the groups: a host "h" that is called "a" is matched to the device of g2 and summed up in its
      part, although a device of g1 has its name. */
  lemma HostInOtherGroup(g1: string, g2: string, matched: set<string>, after: map<string, Device>,
                         parts: seq<Part>, names: map<string, string>)
    requires var ds := [Device("a", "u1", g1), Device("a.b", "u2", g2)];
             MatchOk(map["h" := "a"], {g1, g2}, Uuids(ds), FullNames(ds), ShortNames(ds) - Shared(ds), {}, matched,
                     LutOf(ds), after)
    requires g1 != "h" && g2 != "h" && Partition(parts, {"h"} * matched, GroupOf(after), names)
    ensures "h" in matched && "h" in after && after["h"] == Device("a.b", "u2", g2)
    ensures exists i :: 0 <= i < |parts| && parts[i].uuid == g2 && "h" in parts[i].members
  {
    var ds, h := [Device("a", "u1", g1), Device("a.b", "u2", g2)], map["h" := "a"];
    FullNameTaken(g1, g2);
    TwoDevices(g1, g2);
    var uuids, fqdns, safe := Uuids(ds), FullNames(ds), ShortNames(ds) - Shared(ds);
    var um := h.Keys - {} - {g1, g2};
    assert um == {"h"} && matched - {} == matched;
    hide LutOf, Uuids, FullNames, ShortNames, Shared, ShortName;
    assert KnownHost(h, "h", uuids, fqdns, safe);
    assert UniqueNames(h, um);
    assert "h" in matched;
    assert h.Keys !! fqdns + safe;
    assert after["h"] == LutOf(ds)["a"];
    assert {"h"} * matched == {"h"};
    var i :| 0 <= i < |parts| && parts[i].uuid == GroupOf(after)["h"];
    assert PartOk(parts[i], {"h"} * matched, GroupOf(after), names);
  }

  lemma TwoDevices(g1: string, g2: string)
    ensures var ds := [Device("a", "u1", g1), Device("a.b", "u2", g2)];
            && Uuids(ds) == {"u1", "u2"} && FullNames(ds) == {"a", "a.b"} && ShortNames(ds) == {"a"}
  {
    var one, two := Device("a", "u1", g1), Device("a.b", "u2", g2);
    AShort();
    hide ShortName, Split, LutOf, PutDevice, Shared;
    SnocTables([one], two);
    SnocTables([], one);
    assert [one] + [two] == [one, two] && [] + [one] == [one];
    assert Uuids([]) == {} && FullNames([]) == {} && ShortNames([]) == {};
  }

  /** A short name that is not shared leads to the only device that has it. */
  lemma ShortNameSafe(ds: seq<Device>, s: string)
    requires s in ShortNames(ds) && s !in Shared(ds)
    requires forall d :: d in ds ==> d.uuid != s
    ensures s in LutOf(ds) && ShortName(LutOf(ds)[s].name) == s
    ensures forall d :: d in ds && ShortName(d.name) == s ==> d == LutOf(ds)[s]
  {
    hide ShortName;
    var d :| d in ds && ShortName(d.name) == s;
    ShortOf(d.name, s);
    UndottedIsShort(ds, s);
    SharedExact(ds, s);
    LastShortIn(ds, s);
    hide LutOf, Shared, ShortNames;
    var last := LutOf(ds)[s];
    forall e | e in ds && ShortName(e.name) == s ensures e == last {
      var i :| 0 <= i < |ds| && ds[i] == e;
      var j :| 0 <= j < |ds| && ds[j] == last;
      assert i == j;
    }
  }

  lemma {:induction false} LastShortIn(ds: seq<Device>, s: string)
    requires s in ShortNames(ds)
    ensures LastShort(ds, s) in ds && ShortName(LastShort(ds, s).name) == s
  {
    hide ShortName;
    ShortNamesSnoc(ds);
    if ShortName(ds[|ds| - 1].name) != s { LastShortIn(ds[..|ds| - 1], s); }
  }

  // ----- dividing the hosts -----

  /** The parts are the groups that have a host, and every host is in the part of its group. */
  ghost predicate Partition(parts: seq<Part>, valid: set<string>, groupOf: map<string, string>,
                            names: map<string, string>) {
    && valid <= groupOf.Keys
    && (forall i, j :: 0 <= i < j < |parts| ==> parts[i].uuid != parts[j].uuid)
    && (forall i :: 0 <= i < |parts| ==> PartOk(parts[i], valid, groupOf, names))
    && (forall u :: u in valid ==> exists i :: 0 <= i < |parts| && parts[i].uuid == groupOf[u])
  }

  ghost predicate PartOk(p: Part, valid: set<string>, groupOf: map<string, string>, names: map<string, string>)
    requires valid <= groupOf.Keys
  {
    && p.members != [] && p.uuid in names && p.sendName == names[p.uuid]
    && (forall u :: u in p.members <==> u in valid && groupOf[u] == p.uuid)
    && Distinct(p.members)
  }

  function Members(parts: seq<Part>): seq<string> {
    if parts == [] then [] else Members(parts[..|parts| - 1]) + parts[|parts| - 1].members
  }

  lemma {:induction false} MembersIn(parts: seq<Part>, u: string)
    ensures u in Members(parts) <==> exists i :: 0 <= i < |parts| && u in parts[i].members
  {
    if parts != [] {
      var before := parts[..|parts| - 1];
      MembersIn(before, u);
      if i :| 0 <= i < |before| && u in before[i].members {
        assert parts[i] == before[i];
      }
      if i :| 0 <= i < |parts| && u in parts[i].members {
        assert i < |before| ==> before[i] == parts[i];
      }
    }
  }

  /** Hosts of the first n parts. */
  lemma {:induction false} MembersDistinct(parts: seq<Part>, n: nat, valid: set<string>, groupOf: map<string, string>,
                                           names: map<string, string>)
    requires Partition(parts, valid, groupOf, names) && n <= |parts|
    ensures Distinct(Members(parts[..n]))
  {
    if n > 0 {
      MembersDistinct(parts, n - 1, valid, groupOf, names);
      assert parts[..n][..n - 1] == parts[..n - 1];
      var before, last := Members(parts[..n - 1]), parts[n - 1];
      assert PartOk(last, valid, groupOf, names);
      assert Members(parts[..n]) == before + last.members;
      forall u | u in before ensures u !in last.members {
        MembersIn(parts[..n - 1], u);
        var i :| 0 <= i < |parts[..n - 1]| && u in parts[..n - 1][i].members;
        assert PartOk(parts[i], valid, groupOf, names) && parts[i].uuid != last.uuid;
      }
      DistinctAppend(before, last.members);
    }
  }

  /** Every valid host is in exactly one list, and there once; nothing else is. */
  lemma PartitionExact(parts: seq<Part>, valid: set<string>, groupOf: map<string, string>, names: map<string, string>)
    requires Partition(parts, valid, groupOf, names)
    ensures Distinct(Members(parts)) && forall u :: u in Members(parts) <==> u in valid
    ensures multiset(Members(parts)) == multiset(valid)
  {
    assert parts[..|parts|] == parts;
    MembersDistinct(parts, |parts|, valid, groupOf, names);
    forall u ensures u in Members(parts) <==> u in valid {
      MembersIn(parts, u);
      if u in valid {
        var i :| 0 <= i < |parts| && parts[i].uuid == groupOf[u];
        assert PartOk(parts[i], valid, groupOf, names);
      }
      if i :| 0 <= i < |parts| && u in parts[i].members {
        assert PartOk(parts[i], valid, groupOf, names);
      }
    }
    DistinctMultiset(Members(parts), valid);
  }

  lemma {:induction false} DistinctMultiset(s: seq<string>, valid: set<string>)
    requires Distinct(s) && forall u :: u in s <==> u in valid
    ensures multiset(s) == multiset(valid)
  {
    if s == [] {
      assert valid == {};
    } else {
      var init, x := s[..|s| - 1], s[|s| - 1];
      assert s == init + [x];
      DistinctMultiset(init, valid - {x});
      assert multiset(valid) == multiset(valid - {x}) + multiset{x};
    }
  }

  // ----- the code -----

  /** fqdns and snames in match: for each name one of the hosts that have it. */
  ghost predicate Indexes(index: map<string, string>, hosts: set<string>, nameOf: map<string, string>)
    requires hosts <= nameOf.Keys
  {
    && (forall n :: n in index ==> index[n] in hosts && nameOf[index[n]] == n)
    && (forall u :: u in hosts ==> nameOf[u] in index)
  }

  method IndexByName(hosts: set<string>, nameOf: map<string, string>) returns (index: map<string, string>)
    requires hosts <= nameOf.Keys
    ensures Indexes(index, hosts, nameOf)
  {
    index := map[];
    var todo := hosts;
    while todo != {}
      invariant todo <= hosts && Indexes(index, hosts - todo, nameOf)
      decreases todo
    {
      var u :| u in todo;
      index := index[nameOf[u] := u];
      todo := todo - {u};
    }
    assert hosts - {} == hosts;
  }

  function Taken(index: map<string, string>, names: set<string>): set<string> {
    set n | n in index && n in names :: index[n]
  }

  ghost predicate GroupsKnown(lut: map<string, Device>, names: map<string, string>) {
    forall x :: x in lut ==> lut[x].group in names
  }

  /** The taken hosts were added to the table; if no host is called like a known name, each of them
      got the device of its name. */
  ghost predicate Extended(before: map<string, Device>, after: map<string, Device>, taken: set<string>,
                           nameOf: map<string, string>, separate: bool)
  {
    && after.Keys == before.Keys + taken
    && (forall x :: x in before && x !in taken ==> after[x] == before[x])
    && (separate ==> forall x :: x in taken ==> x in nameOf && nameOf[x] in before && after[x] == before[nameOf[x]])
  }

  /** The round by uuid. */
  ghost predicate FirstRound(h: map<string, string>, um: set<string>, rest: set<string>, groups: set<string>,
                             uuids: set<string>, matched0: set<string>, matched: set<string>)
  {
    um == h.Keys - matched0 - groups && rest == um - uuids && matched == matched0 + um * uuids
  }

  /** One round of matching by name. */
  ghost predicate RoundOk(um: set<string>, rest: set<string>, index: map<string, string>, known: set<string>,
                          nameOf: map<string, string>, matched0: set<string>, matched: set<string>,
                          before: map<string, Device>, after: map<string, Device>)
  {
    && um <= nameOf.Keys && Indexes(index, um, nameOf)
    && matched == matched0 + Taken(index, known) && rest == um - Taken(index, known)
    && Extended(before, after, Taken(index, known), nameOf, um !! known)
  }

  lemma ExtendedOne(before: map<string, Device>, after: map<string, Device>, taken: set<string>,
                    nameOf: map<string, string>, separate: bool, n: string, u: string)
    requires Extended(before, after, taken, nameOf, separate) && n in before
    requires u in nameOf && nameOf[u] == n && (separate ==> n !in taken)
    ensures n in after && Extended(before, after[u := after[n]], taken + {u}, nameOf, separate)
  {}

  lemma TakenOne(index: map<string, string>, names: set<string>, n: string)
    requires n in index
    ensures Taken(index, names + {n}) == Taken(index, names) + {index[n]}
  {}

  function Uuids(ds: seq<Device>): set<string> { set d | d in ds :: d.uuid }

  function FullNames(ds: seq<Device>): set<string> { set d | d in ds :: d.name }

  lemma PutKeys(m: map<string, Device>, d: Device)
    ensures PutDevice(m, d).Keys == m.Keys + {d.name, d.uuid, ShortName(d.name)}
  {}

  /** The keys of the table. */
  lemma {:induction false} LutKeys(ds: seq<Device>, x: string)
    ensures x in LutOf(ds) <==> x in Uuids(ds) || x in FullNames(ds) || x in ShortNames(ds)
  {
    if ds != [] {
      var before, d := ds[..|ds| - 1], ds[|ds| - 1];
      LutKeys(before, x);
      SnocTables(before, d);
      assert ds == before + [d];
      PutKeys(LutOf(before), d);
      hide ShortName, Uuids, FullNames, ShortNames, LutOf, PutDevice;
      assert x in LutOf(ds).Keys <==> x in LutOf(before).Keys || x in {d.name, d.uuid, ShortName(d.name)};
    }
  }

  /** The same, except for the matched hosts. */
  ghost predicate Agrees(lut: map<string, Device>, of: map<string, Device>, matched: set<string>) {
    of.Keys + matched == lut.Keys && forall x :: x in lut && x !in matched ==> lut[x] == of[x]
  }

  lemma AgreesSnoc(lut: map<string, Device>, of: map<string, Device>, matched: set<string>,
                   names: map<string, string>, d: Device)
    requires Agrees(lut, of, matched) && GroupsKnown(lut, names) && d.group in names
    ensures Agrees(PutDevice(lut, d), PutDevice(of, d), matched) && GroupsKnown(PutDevice(lut, d), names)
  {
    PutKeys(lut, d);
    PutKeys(of, d);
  }

  lemma SnocTables(ds: seq<Device>, d: Device)
    ensures Uuids(ds + [d]) == Uuids(ds) + {d.uuid} && FullNames(ds + [d]) == FullNames(ds) + {d.name}
    ensures LutOf(ds + [d]) == PutDevice(LutOf(ds), d)
    ensures ShortNames(ds + [d]) == ShortNames(ds) + {ShortName(d.name)}
    ensures Shared(ds + [d]) == Shared(ds) + if ShortName(d.name) in ShortNames(ds) then {ShortName(d.name)} else {}
  {
    hide ShortName;
    assert (ds + [d])[..|ds|] == ds;
    ShortNamesSnoc(ds + [d]);
  }

  class AgStruct {
    var groupNames: map<string, string>
    var lut: map<string, Device>
    var uuids: set<string>
    var fqdns: set<string>
    var snames: set<string>
    var probSnames: set<string>
    var matched: set<string>
    ghost var devices: seq<Device>

    ghost predicate NamesOk()
      reads `uuids, `fqdns, `snames, `probSnames, `devices
    {
      && uuids == Uuids(devices) && fqdns == FullNames(devices)
      && snames == ShortNames(devices) && probSnames == Shared(devices)
    }

    /** The sets tell what was added; the table is that of the added devices, except for the hosts
        matched since. */
    ghost predicate Valid()
      reads this
    {
      && NamesOk()
      && Agrees(lut, LutOf(devices), matched) && GroupsKnown(lut, groupNames)
    }

    constructor ()
      ensures Valid() && devices == [] && matched == {} && groupNames == map[]
    {
      groupNames, lut, devices := map[], map[], [];
      uuids, fqdns, snames, probSnames, matched := {}, {}, {}, {}, {};
    }

    method AddGroup(uuid: string, sendName: string)
      requires Valid()
      modifies this`groupNames
      ensures Valid() && groupNames == old(groupNames)[uuid := sendName]
    {
      groupNames := groupNames[uuid := sendName];
    }

    /** add_lut */
    method AddDevice(d: Device)
      requires Valid() && d.group in groupNames
      modifies this
      ensures Valid() && devices == old(devices) + [d]
      ensures groupNames == old(groupNames) && matched == old(matched)
    {
      hide ShortName, LutOf, Shared, ShortNames, Uuids, FullNames, Agrees, GroupsKnown;
      SnocTables(devices, d);
      AgreesSnoc(lut, LutOf(devices), matched, groupNames, d);
      lut := lut[d.name := d];
      lut := lut[d.uuid := d];
      uuids := uuids + {d.uuid};
      fqdns := fqdns + {d.name};
      var s := ShortName(d.name);
      if s in snames {
        probSnames := probSnames + {s};
      }
      snames := snames + {s};
      lut := lut[s := d];
      assert lut == PutDevice(old(lut), d);
      devices := devices + [d];
    }

    /** The unmatched hosts, then those whose uuid is a device's. */
    method MatchUuids(h: map<string, string>) returns (ghost um: set<string>, rest: set<string>)
      modifies this`matched
      ensures FirstRound(h, um, rest, groupNames.Keys, uuids, old(matched), matched) && rest <= h.Keys
    {
      var hosts := h.Keys - matched - groupNames.Keys;
      um, rest := hosts, hosts;
      var todo := hosts * uuids;
      while todo != {}
        invariant todo <= um * uuids && matched == old(matched) + (um * uuids - todo)
        invariant rest == um - (um * uuids - todo)
        decreases todo
      {
        var u :| u in todo;
        matched := matched + {u};
        rest := rest - {u};
        todo := todo - {u};
      }
    }

    /** Hosts whose name is known: for each name one host gets the entry of the name. */
    method MatchNames(index: map<string, string>, known: set<string>, um: set<string>,
                      ghost nameOf: map<string, string>)
      returns (rest: set<string>)
      requires known <= lut.Keys && um <= nameOf.Keys && Indexes(index, um, nameOf) && GroupsKnown(lut, groupNames)
      modifies this`matched, this`lut
      ensures RoundOk(um, rest, index, known, nameOf, old(matched), matched, old(lut), lut)
      ensures GroupsKnown(lut, groupNames)
    {
      rest := um;
      var todo := index.Keys * known;
      ghost var done: set<string> := {};
      TakenNone(index, lut, nameOf, um !! known);
      hide Taken, Extended, GroupsKnown, Indexes;
      while todo != {}
        invariant done + todo == index.Keys * known && done !! todo && GroupsKnown(lut, groupNames)
        invariant matched == old(matched) + Taken(index, done) && rest == um - Taken(index, done)
        invariant Extended(old(lut), lut, Taken(index, done), nameOf, um !! known)
        decreases todo
      {
        var n :| n in todo;
        var u := index[n];
        TakenOne(index, done, n);
        TakenWithin(index, um, nameOf, done, n);
        ExtendedOne(old(lut), lut, Taken(index, done), nameOf, um !! known, n, u);
        GroupsStay(lut, groupNames, n, u);
        matched := matched + {u};
        rest := rest - {u};
        lut := lut[u := lut[n]];
        todo, done := todo - {n}, done + {n};
      }
      TakenAll(index, known);
    }

    lemma Parts()
      requires Valid()
      ensures NamesOk() && Agrees(lut, LutOf(devices), matched) && GroupsKnown(lut, groupNames)
      ensures uuids <= LutOf(devices).Keys && uuids <= lut.Keys && fqdns <= lut.Keys && snames - probSnames <= lut.Keys
    {
      forall x | x in uuids + fqdns + snames ensures x in LutOf(devices) {
        LutKeys(devices, x);
      }
    }

    lemma Whole()
      requires NamesOk() && Agrees(lut, LutOf(devices), matched) && GroupsKnown(lut, groupNames)
      ensures Valid()
    {}

    /** Matches the hosts that collectd knows (by uuid, with their full names) and divides those that
        are alive and matched among the groups. */
    method Match(h: map<string, string>) returns (parts: seq<Part>)
      requires Valid()
      modifies this`matched, this`lut
      ensures Valid()
      ensures MatchOk(h, groupNames.Keys, uuids, fqdns, snames - probSnames, old(matched), matched, old(lut), lut)
      ensures Partition(parts, h.Keys * matched, GroupOf(lut), groupNames)
    {
      hide MatchOk, Partition, GroupOf, NamesOk, LutOf, GroupsKnown;
      MatchHosts(h);
      MatchedInLut(lut, LutOf(devices), matched);
      parts := Divide(h.Keys * matched);
    }

    /** One round by name: index the hosts, then match those whose name is known. */
    method MatchRound(known: set<string>, um: set<string>, nameOf: map<string, string>)
      returns (rest: set<string>, ghost index: map<string, string>)
      requires known <= lut.Keys && um <= nameOf.Keys && GroupsKnown(lut, groupNames)
      modifies this`matched, this`lut
      ensures RoundOk(um, rest, index, known, nameOf, old(matched), matched, old(lut), lut)
      ensures GroupsKnown(lut, groupNames)
    {
      hide RoundOk, GroupsKnown, Indexes;
      var names := IndexByName(um, nameOf);
      index := names;
      rest := MatchNames(names, known, um, nameOf);
    }

    /** The rounds by full name and by short name. */
    method MatchByName(h: map<string, string>, full: set<string>, safe: set<string>, um: set<string>)
      returns (ghost rest: (set<string>, set<string>), ghost names: map<string, string>,
               ghost shorts: map<string, string>, ghost mid: Snapshot)
      requires full <= lut.Keys && safe <= lut.Keys && um <= h.Keys && GroupsKnown(lut, groupNames)
      modifies this`matched, this`lut
      ensures RoundOk(um, rest.0, names, full, h, old(matched), mid.matched, old(lut), mid.lut)
      ensures RoundOk(rest.0, rest.1, shorts, safe, ShortsOf(h), mid.matched, matched, mid.lut, lut)
      ensures GroupsKnown(lut, groupNames)
    {
      ShortsOfKeys(h);
      hide RoundOk, GroupsKnown, ShortsOf;
      var um2, um3;
      um2, names := MatchRound(full, um, h);
      mid := Snapshot(matched, lut);
      RoundKeys(um, um2, names, full, h, old(matched), matched, old(lut), lut);
      um3, shorts := MatchRound(safe, um2, ShortsOf(h));
      rest := (um2, um3);
    }

    /** The three rounds: by uuid, by full name, by short name; problematic short names are left alone. */
    method MatchHosts(h: map<string, string>)
      requires Valid()
      modifies this`matched, this`lut
      ensures Valid()
      ensures MatchOk(h, groupNames.Keys, uuids, fqdns, snames - probSnames, old(matched), matched, old(lut), lut)
    {
      hide *;
      Parts();
      ghost var known, of, lut0, m0 := uuids, LutOf(devices), lut, matched;
      var full, safe, groups := fqdns, snames - probSnames, groupNames.Keys;
      ghost var um;
      var um1;
      um, um1 := MatchUuids(h);
      ghost var m1 := matched;
      ghost var rest, names, shorts, mid := MatchByName(h, full, safe, um1);
      MatchResult(h, um, um1, rest.0, rest.1, groups, known, full, safe, names, shorts,
                  lut0, mid.lut, lut, m0, m1, mid.matched, matched, of);
      Whole();
    }

    /** The list of aggregates to build, in any order. */
    method Divide(valid: set<string>) returns (parts: seq<Part>)
      requires valid <= lut.Keys && GroupsKnown(lut, groupNames)
      ensures Partition(parts, valid, GroupOf(lut), groupNames)
    {
      var comp: map<string, seq<string>> := map[];
      var todo := valid;
      while todo != {}
        invariant todo <= valid && Divided(comp, valid - todo, GroupOf(lut))
        invariant forall g :: g in comp ==> g in groupNames
        decreases todo
      {
        var u :| u in todo;
        var g := lut[u].group;
        DividedOne(comp, valid - todo, GroupOf(lut), u);
        comp := comp[g := (if g in comp then comp[g] else []) + [u]];
        assert valid - (todo - {u}) == valid - todo + {u};
        todo := todo - {u};
      }
      assert valid - {} == valid;
      parts := [];
      var left := comp.Keys;
      while left != {}
        invariant left <= comp.Keys && PartsOf(parts, comp, comp.Keys - left, groupNames)
        decreases left
      {
        hide Divided;
        var g :| g in left;
        PartsOfOne(parts, comp, comp.Keys - left, groupNames, g);
        parts := parts + [Part(g, groupNames[g], comp[g])];
        assert comp.Keys - (left - {g}) == comp.Keys - left + {g};
        left := left - {g};
      }
      assert comp.Keys - {} == comp.Keys;
      PartsPartition(parts, comp, valid, GroupOf(lut), groupNames);
    }
  }

  function ShortsOf(h: map<string, string>): map<string, string> { map u | u in h :: ShortName(h[u]) }

  lemma ShortsOfKeys(h: map<string, string>)
    ensures ShortsOf(h).Keys == h.Keys
  {}

  function GroupOf(lut: map<string, Device>): map<string, string> { map x | x in lut :: lut[x].group }

  // ----- who is matched -----

  ghost predicate KnownHost(h: map<string, string>, u: string, uuids: set<string>, fqdns: set<string>,
                            safe: set<string>)
    requires u in h
  {
    u in uuids || h[u] in fqdns || ShortName(h[u]) in safe
  }

  /** No two of the hosts share a short name (and so no two share a name). */
  ghost predicate UniqueNames(h: map<string, string>, um: set<string>)
    requires um <= h.Keys
  {
    forall u, v :: u in um && v in um && ShortName(h[u]) == ShortName(h[v]) ==> u == v
  }

  /** Only known hosts are matched, and all of them if their names are unique. */
  ghost predicate MatchedExactly(h: map<string, string>, um: set<string>, taken: set<string>,
                                 uuids: set<string>, fqdns: set<string>, safe: set<string>)
    requires um <= h.Keys
  {
    && taken <= um
    && (forall u :: u in taken ==> KnownHost(h, u, uuids, fqdns, safe))
    && (UniqueNames(h, um) ==> forall u :: u in um && KnownHost(h, u, uuids, fqdns, safe) ==> u in taken)
  }

  /** Every matched host got the device of its uuid, else of its full name, else of its short name. */
  ghost predicate DevicesFound(h: map<string, string>, taken: set<string>, uuids: set<string>, fqdns: set<string>,
                               before: map<string, Device>, after: map<string, Device>)
  {
    forall u :: u in taken ==>
                  u in h && u in after &&
                  var key := if u in uuids then u else if h[u] in fqdns then h[u] else ShortName(h[u]);
                  key in before && after[u] == before[key]
  }

  /** What a call of match does: hosts that were matched stay matched and keep their device. */
  ghost predicate MatchOk(h: map<string, string>, groups: set<string>, uuids: set<string>, fqdns: set<string>,
                          safe: set<string>, matched0: set<string>, matched: set<string>,
                          before: map<string, Device>, after: map<string, Device>)
  {
    var um, new' := h.Keys - matched0 - groups, matched - matched0;
    && matched0 <= matched && MatchedExactly(h, um, new', uuids, fqdns, safe)
    && (forall x :: x in before && x !in new' ==> x in after && after[x] == before[x])
    && (UniqueNames(h, um) && h.Keys !! fqdns + safe ==> DevicesFound(h, new', uuids, fqdns, before, after))
  }

  datatype Snapshot = Snapshot(matched: set<string>, lut: map<string, Device>)

  /** The states between calls of match with the hosts hs[0], hs[1], ... */
  ghost predicate Calls(states: seq<Snapshot>, hs: seq<map<string, string>>, groups: set<string>, uuids: set<string>,
                        fqdns: set<string>, safe: set<string>)
  {
    && |states| == |hs| + 1
    && forall i :: 0 <= i < |hs| ==>
                     MatchOk(hs[i], groups, uuids, fqdns, safe, states[i].matched, states[i + 1].matched,
                             states[i].lut, states[i + 1].lut)
  }

  /** Over any number of calls a matched host stays matched to the same device, in the same group. */
  lemma {:induction false} KeepsDevice(states: seq<Snapshot>, hs: seq<map<string, string>>, groups: set<string>,
                                       uuids: set<string>, fqdns: set<string>, safe: set<string>, i: nat, j: nat,
                                       u: string)
    requires Calls(states, hs, groups, uuids, fqdns, safe) && i <= j < |states|
    requires u in states[i].matched && u in states[i].lut
    ensures u in states[j].matched && u in states[j].lut && states[j].lut[u] == states[i].lut[u]
    decreases j
  {
    if i < j {
      hide MatchedExactly, UniqueNames, DevicesFound;
      KeepsDevice(states, hs, groups, uuids, fqdns, safe, i, j - 1, u);
      assert MatchOk(hs[j - 1], groups, uuids, fqdns, safe, states[j - 1].matched, states[j].matched,
                     states[j - 1].lut, states[j].lut);
    }
  }

  lemma RoundKeys(um: set<string>, rest: set<string>, index: map<string, string>, known: set<string>,
                  nameOf: map<string, string>, matched0: set<string>, matched: set<string>,
                  before: map<string, Device>, after: map<string, Device>)
    requires RoundOk(um, rest, index, known, nameOf, matched0, matched, before, after)
    ensures before.Keys <= after.Keys && rest <= um
  {}

  lemma MatchResult(h: map<string, string>, um: set<string>, um1: set<string>, um2: set<string>, um3: set<string>,
                    groups: set<string>, uuids: set<string>, fqdns: set<string>, safe: set<string>,
                    names: map<string, string>, shortNames: map<string, string>,
                    lut0: map<string, Device>, lut1: map<string, Device>, lut2: map<string, Device>,
                    matched0: set<string>, m1: set<string>, m2: set<string>, matched: set<string>,
                    of: map<string, Device>)
    requires FirstRound(h, um, um1, groups, uuids, matched0, m1)
    requires RoundOk(um1, um2, names, fqdns, h, m1, m2, lut0, lut1)
    requires RoundOk(um2, um3, shortNames, safe, ShortsOf(h), m2, matched, lut1, lut2)
    requires uuids <= of.Keys && uuids <= lut0.Keys && safe <= lut0.Keys && Agrees(lut0, of, matched0)
    ensures MatchOk(h, groups, uuids, fqdns, safe, matched0, matched, lut0, lut2) && Agrees(lut2, of, matched)
  {
    hide Taken, Indexes, UniqueNames, MatchedExactly, DevicesFound, Extended, Agrees, ShortName, ShortsOf;
    var t0, t1, t2, shorts := um * uuids, Taken(names, fqdns), Taken(shortNames, safe), ShortsOf(h);
    var sep1, sep2 := um1 !! fqdns, um2 !! safe;
    AgreesUuids(lut0, of, matched0, t0);
    AgreesExtended(lut0, lut1, of, m1, t1, h, sep1);
    AgreesExtended(lut1, lut2, of, m2, t2, shorts, sep2);
    assert MatchOk(h, groups, uuids, fqdns, safe, matched0, matched, lut0, lut2) by {
      assert MatchedExactly(h, um, t0 + t1 + t2, uuids, fqdns, safe) by {
        Phases(h, um, uuids, fqdns, safe, names, shortNames, shorts);
      }
      TakenFrom(um, matched0, h, groups, t0 + t1 + t2, uuids, fqdns, safe);
      ExtendedTwice(lut0, lut1, lut2, t1, t2, h, shorts, sep1, sep2);
      assert matched == matched0 + (t0 + t1 + t2);
      if UniqueNames(h, um) && h.Keys !! fqdns + safe {
        Separated(h.Keys, um, um1, fqdns + safe, fqdns);
        Separated(h.Keys, um, um2, fqdns + safe, safe);
        Found(h, um, uuids, fqdns, safe, names, shortNames, shorts, lut0, lut1, lut2);
      }
    }
  }

  lemma Separated(a: set<string>, b: set<string>, c: set<string>, x: set<string>, y: set<string>)
    requires a !! x && b <= a && c <= b && y <= x
    ensures c !! y
  {}

  lemma TakenFrom(um: set<string>, matched0: set<string>, h: map<string, string>, groups: set<string>,
                  taken: set<string>,
                  uuids: set<string>, fqdns: set<string>, safe: set<string>)
    requires um == h.Keys - matched0 - groups && MatchedExactly(h, um, taken, uuids, fqdns, safe)
    ensures (matched0 + taken) - matched0 == taken
  {}

  lemma MatchedInLut(lut: map<string, Device>, of: map<string, Device>, matched: set<string>)
    requires Agrees(lut, of, matched)
    ensures matched <= lut.Keys
  {}

  lemma Phases(h: map<string, string>, um: set<string>, uuids: set<string>, fqdns: set<string>, safe: set<string>,
               names: map<string, string>, shortNames: map<string, string>, shorts: map<string, string>)
    requires um <= h.Keys && shorts == ShortsOf(h)
    requires Indexes(names, um - uuids, h)
    requires Indexes(shortNames, um - uuids - Taken(names, fqdns), shorts)
    ensures var t0, t1, t2 := um * uuids, Taken(names, fqdns), Taken(shortNames, safe);
            && MatchedExactly(h, um, t0 + t1 + t2, uuids, fqdns, safe)
            && t1 !! t2 && t0 !! t1 && t0 !! t2
            && (forall u :: u in t1 ==> h[u] in fqdns) && (forall u :: u in t2 ==> ShortName(h[u]) in safe)
            && (UniqueNames(h, um) ==> forall u :: u in t2 ==> h[u] !in fqdns)
  {
    hide ShortName;
    var t0, t1, t2 := um * uuids, Taken(names, fqdns), Taken(shortNames, safe);
    forall u | u in um - uuids && h[u] in fqdns && UniqueNames(h, um) ensures u in t1 {
      assert ShortName(h[u]) == ShortName(h[names[h[u]]]);
    }
    forall u | u in um - uuids - t1 && ShortName(h[u]) in safe && UniqueNames(h, um) ensures u in t2 {
      assert shorts[u] in shortNames;
    }
  }

  lemma Found(h: map<string, string>, um: set<string>, uuids: set<string>, fqdns: set<string>, safe: set<string>,
              names: map<string, string>, shortNames: map<string, string>, shorts: map<string, string>,
              lut0: map<string, Device>, lut1: map<string, Device>, lut2: map<string, Device>)
    requires um <= h.Keys && shorts == ShortsOf(h)
    requires Indexes(names, um - uuids, h) && Indexes(shortNames, um - uuids - Taken(names, fqdns), shorts)
    requires UniqueNames(h, um) && h.Keys !! fqdns + safe && uuids <= lut0.Keys && safe <= lut0.Keys
    requires Extended(lut0, lut1, Taken(names, fqdns), h, true)
    requires Extended(lut1, lut2, Taken(shortNames, safe), shorts, true)
    ensures DevicesFound(h, um * uuids + Taken(names, fqdns) + Taken(shortNames, safe), uuids, fqdns, lut0, lut2)
  {
    Phases(h, um, uuids, fqdns, safe, names, shortNames, shorts);
    hide Taken, Indexes, UniqueNames, ShortName;
  }

  lemma AgreesUuids(lut: map<string, Device>, of: map<string, Device>, matched: set<string>, more: set<string>)
    requires Agrees(lut, of, matched) && more <= of.Keys
    ensures Agrees(lut, of, matched + more)
  {}

  lemma AgreesExtended(before: map<string, Device>, after: map<string, Device>, of: map<string, Device>,
                       matched: set<string>, taken: set<string>, nameOf: map<string, string>, separate: bool)
    requires Agrees(before, of, matched) && Extended(before, after, taken, nameOf, separate)
    ensures Agrees(after, of, matched + taken)
  {}

  lemma ExtendedTwice(lut0: map<string, Device>, lut1: map<string, Device>, lut2: map<string, Device>,
                      t1: set<string>, t2: set<string>, h: map<string, string>, shorts: map<string, string>,
                      sep1: bool, sep2: bool)
    requires Extended(lut0, lut1, t1, h, sep1) && Extended(lut1, lut2, t2, shorts, sep2)
    ensures forall x :: x in lut0 && x !in t1 && x !in t2 ==> x in lut2 && lut2[x] == lut0[x]
  {}

  // ----- building the lists -----

  ghost predicate Divided(comp: map<string, seq<string>>, hosts: set<string>, groupOf: map<string, string>) {
    && hosts <= groupOf.Keys
    && (forall g :: g in comp ==> comp[g] != [] && Distinct(comp[g]) &&
                                  forall u :: u in comp[g] <==> u in hosts && groupOf[u] == g)
    && (forall u :: u in hosts ==> groupOf[u] in comp)
  }

  lemma DividedOne(comp: map<string, seq<string>>, hosts: set<string>, groupOf: map<string, string>, u: string)
    requires Divided(comp, hosts, groupOf) && u in groupOf && u !in hosts
    ensures var g := groupOf[u];
            Divided(comp[g := (if g in comp then comp[g] else []) + [u]], hosts + {u}, groupOf)
  {
    var g := groupOf[u];
    var list := if g in comp then comp[g] else [];
    assert u !in list;
    DistinctAppend(list, [u]);
  }

  ghost predicate PartsOf(parts: seq<Part>, comp: map<string, seq<string>>, groups: set<string>,
                          names: map<string, string>) {
    && (forall i :: 0 <= i < |parts| ==> parts[i].uuid in groups && parts[i].uuid in comp && parts[i].uuid in names &&
                                         parts[i] == Part(parts[i].uuid, names[parts[i].uuid], comp[parts[i].uuid]))
    && (forall i, j :: 0 <= i < j < |parts| ==> parts[i].uuid != parts[j].uuid)
    && (forall g :: g in groups ==> exists i :: 0 <= i < |parts| && parts[i].uuid == g)
  }

  lemma PartsOfOne(parts: seq<Part>, comp: map<string, seq<string>>, groups: set<string>, names: map<string, string>,
                   g: string)
    requires PartsOf(parts, comp, groups, names) && g !in groups && g in comp && g in names
    ensures PartsOf(parts + [Part(g, names[g], comp[g])], comp, groups + {g}, names)
  {
    var parts' := parts + [Part(g, names[g], comp[g])];
    forall x | x in groups + {g} ensures exists i :: 0 <= i < |parts'| && parts'[i].uuid == x {
      if x == g {
        assert parts'[|parts|].uuid == x;
      } else {
        var i :| 0 <= i < |parts| && parts[i].uuid == x;
        assert parts'[i].uuid == x;
      }
    }
  }

  lemma PartsPartition(parts: seq<Part>, comp: map<string, seq<string>>, valid: set<string>,
                       groupOf: map<string, string>, names: map<string, string>)
    requires PartsOf(parts, comp, comp.Keys, names) && Divided(comp, valid, groupOf)
    ensures Partition(parts, valid, groupOf, names)
  {}

  lemma TakenNone(index: map<string, string>, lut: map<string, Device>, nameOf: map<string, string>, separate: bool)
    ensures Taken(index, {}) == {} && Extended(lut, lut, Taken(index, {}), nameOf, separate)
  {}

  lemma TakenAll(index: map<string, string>, known: set<string>)
    ensures Taken(index, index.Keys * known) == Taken(index, known)
  {}

  lemma TakenWithin(index: map<string, string>, um: set<string>, nameOf: map<string, string>, names: set<string>,
                    n: string)
    requires um <= nameOf.Keys && Indexes(index, um, nameOf) && n in index
    ensures Taken(index, names) <= um && index[n] in um && nameOf[index[n]] == n
  {}

  lemma GroupsStay(lut: map<string, Device>, names: map<string, string>, n: string, u: string)
    requires GroupsKnown(lut, names) && n in lut
    ensures GroupsKnown(lut[u := lut[n]], names)
  {}
}
