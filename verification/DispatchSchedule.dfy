/** Discovery dispatcher, constraint stage: planned runs are delayed one after the other, in
    presorted order (not in time order), so that sources, devices and intervals are respected. */
module DispatchSchedule {
  import opened ListSort
  import opened DispatchPlan

  /** A run with its expected dates. */
  datatype Placed = Placed(item: Item, run: int, finish: int) {
    function Setting(): Setting { item.setting }
    function Device(): nat { item.setting.device }
    function Source(): Source { item.setting.source }
  }

  function FinishKey(): Placed -> Key { (p: Placed) => (p.finish, 0) }
  function RunKey(): Placed -> Key { (p: Placed) => (p.run, 0) }

  function OfSource(src: Source): Placed -> bool { (p: Placed) => p.Source() == src }
  function OfDevice(dev: nat): Placed -> bool { (p: Placed) => p.Device() == dev }
  function OfSetting(s: Setting): Placed -> bool { (p: Placed) => p.Setting() == s }

  // The three lists of _ScheduleInfo, each sorted by expected finish date.
  function BySource(ps: seq<Placed>, src: Source): seq<Placed> { StableSort(Filter(ps, OfSource(src)), FinishKey()) }
  function ByDevice(ps: seq<Placed>, dev: nat): seq<Placed> { StableSort(Filter(ps, OfDevice(dev)), FinishKey()) }
  function BySetting(ps: seq<Placed>, s: Setting): seq<Placed> { StableSort(Filter(ps, OfSetting(s)), FinishKey()) }

  function SourceDate(bySource: seq<Placed>, n: nat, d: int): int
    requires n >= 1
  {
    if |bySource| >= n then Max(d, bySource[|bySource| - n].finish) else d
  }

  function DeviceDate(byDevice: seq<Placed>, d: int): int {
    if byDevice != [] then Max(d, byDevice[|byDevice| - 1].finish) else d
  }

  function SettingDate(bySetting: seq<Placed>, interval: Interval, d: int): int {
    if bySetting != [] then Max(d, Later(bySetting[|bySetting| - 1].run, interval)) else d
  }

  function RunDate(ps: seq<Placed>, x: Item): int {
    var s := x.setting;
    SettingDate(BySetting(ps, s), s.interval,
                DeviceDate(ByDevice(ps, s.device),
                           SourceDate(BySource(ps, s.source), MaxConcurrent(s.source), x.planned)))
  }

  /** Average duration of earlier runs, one minute without history. */
  function Duration(db: Database, src: Source, dev: nat): int {
    if (src, dev) in db.durations then db.durations[(src, dev)] else 60
  }

  function PlaceOne(db: Database, ps: seq<Placed>, x: Item): Placed {
    var d := RunDate(ps, x);
    Placed(x, d, d + Duration(db, x.setting.source, x.setting.device))
  }

  function Place(db: Database, items: seq<Item>): (ps: seq<Placed>)
    ensures |ps| == |items|
  {
    if items == [] then []
    else
      var ps := Place(db, items[..|items| - 1]);
      ps + [PlaceOne(db, ps, items[|items| - 1])]
  }

  function RunsBefore(end: int): Placed -> bool { (p: Placed) => p.run < end }

  function CutOff(ps: seq<Placed>, end: int): seq<Placed> {
    StableSort(Filter(ps, RunsBefore(end)), RunKey())
  }

  function AllPlaced(db: Database, start: int, end: int): seq<Placed>
    requires Valid(db)
  {
    Place(db, Presorted(NaiveRuns(db, |db.settings|, start, end)))
  }

  function Schedule(db: Database, start: int, end: int): seq<Placed>
    requires Valid(db)
  {
    CutOff(AllPlaced(db, start, end), end)
  }

  // ----- the code -----

  function Entries<K>(m: map<K, seq<Placed>>, k: K): seq<Placed> {
    if k in m then m[k] else []
  }

  class ScheduleInfo {
    var byDevice: map<nat, seq<Placed>>
    var bySource: map<Source, seq<Placed>>
    var bySetting: map<Setting, seq<Placed>>

    /** The dictionaries hold exactly the items placed so far. */
    ghost predicate Holds(ps: seq<Placed>)
      reads this
    {
      && (forall d: nat :: Entries(byDevice, d) == ByDevice(ps, d))
      && (forall s: Source :: Entries(bySource, s) == BySource(ps, s))
      && (forall s: Setting :: Entries(bySetting, s) == BySetting(ps, s))
    }

    constructor ()
      ensures Holds([])
    {
      byDevice, bySource, bySetting := map[], map[], map[];
    }

    method AddItem(p: Placed, ghost ps: seq<Placed>)
      requires Holds(ps)
      modifies this
      ensures Holds(ps + [p])
    {
      byDevice := byDevice[p.Device() := Insert(Entries(byDevice, p.Device()), p, FinishKey())];
      bySource := bySource[p.Source() := Insert(Entries(bySource, p.Source()), p, FinishKey())];
      bySetting := bySetting[p.Setting() := Insert(Entries(bySetting, p.Setting()), p, FinishKey())];
      forall d: nat ensures Entries(byDevice, d) == ByDevice(ps + [p], d) {
        assert Entries(old(byDevice), d) == ByDevice(ps, d);
        SelectAppend(ps, p, OfDevice(d));
      }
      forall s: Source ensures Entries(bySource, s) == BySource(ps + [p], s) {
        assert Entries(old(bySource), s) == BySource(ps, s);
        SelectAppend(ps, p, OfSource(s));
      }
      forall s: Setting ensures Entries(bySetting, s) == BySetting(ps + [p], s) {
        assert Entries(old(bySetting), s) == BySetting(ps, s);
        SelectAppend(ps, p, OfSetting(s));
      }
    }
  }

  lemma SelectAppend(ps: seq<Placed>, p: Placed, sel: Placed -> bool)
    ensures var old', new' := StableSort(Filter(ps, sel), FinishKey()), StableSort(Filter(ps + [p], sel), FinishKey());
            new' == if sel(p) then Insert(old', p, FinishKey()) else old'
  {
    assert (ps + [p])[..|ps|] == ps;
    if sel(p) {
      assert Filter(ps + [p], sel)[..|Filter(ps, sel)|] == Filter(ps, sel);
    }
  }

  method ExpectedDates(db: Database, info: ScheduleInfo, item: Item, ghost ps: seq<Placed>) returns (p: Placed)
    requires info.Holds(ps)
    ensures p == PlaceOne(db, ps, item)
  {
    var s := item.setting;
    var date := item.planned;
    // the source: fewer than its limit may still be running
    var bySource := Entries(info.bySource, s.source);
    var limit := MaxConcurrent(s.source);
    if |bySource| >= limit {
      date := Max(date, bySource[|bySource| - limit].finish);
    }
    // the device: its last run has finished
    var byDevice := Entries(info.byDevice, s.device);
    if byDevice != [] {
      date := Max(date, byDevice[|byDevice| - 1].finish);
    }
    // the setting: its interval has passed
    var bySetting := Entries(info.bySetting, s);
    if bySetting != [] {
      date := Max(date, Later(bySetting[|bySetting| - 1].run, s.interval));
    }
    p := Placed(item, date, date + Duration(db, s.source, s.device));
  }

  method HandleConstraints(db: Database, presorted: seq<Item>, end: int) returns (r: seq<Placed>)
    ensures r == CutOff(Place(db, presorted), end)
  {
    hide PlaceOne;
    var info := new ScheduleInfo();
    var placed: seq<Placed> := [];
    for i := 0 to |presorted|
      invariant placed == Place(db, presorted[..i]) && info.Holds(placed)
      invariant fresh(info)
    {
      var p := ExpectedDates(db, info, presorted[i], placed);
      assert presorted[..i + 1][..i] == presorted[..i];
      info.AddItem(p, placed);
      placed := placed + [p];
    }
    assert presorted[..|presorted|] == presorted;
    r := CutOff(placed, end);
  }

  method Calculate(db: Database, start: int, end: int) returns (r: Result<seq<Placed>>)
    requires Valid(db)
    ensures r == if end < start then ValueError else Success(Schedule(db, start, end))
  {
    var naive := GetNextPlannedRunTimes(db, start, end);
    if naive.ValueError? {
      return ValueError;
    }
    var presorted := PresortList(naive.value);
    var runs := HandleConstraints(db, presorted, end);
    return Success(runs);
  }

  // ----- the constraints, stated without sorted lists -----

  /** Runs of the source that are still going on after t. */
  function FinishesAfter(src: Source, t: int): Placed -> bool {
    (p: Placed) => p.Source() == src && p.finish > t
  }

  /** t is an admissible start for x next to the runs ps. */
  ghost predicate Admissible(ps: seq<Placed>, x: Item, t: int) {
    && x.planned <= t
    && |Filter(ps, FinishesAfter(x.setting.source, t))| < (if x.setting.source.ASU? then 1 else 5)
    && (forall p :: p in ps && p.Device() == x.setting.device ==> p.finish <= t)
    && (forall p :: p in ps && p.Setting() == x.setting ==> Later(p.run, x.setting.interval) <= t)
  }

  /** Every run was admissible when it was placed. */
  ghost predicate Legal(ps: seq<Placed>) {
    ps == [] ||
    var before, p := ps[..|ps| - 1], ps[|ps| - 1];
    Legal(before) && Admissible(before, p.item, p.run) && p.run <= p.finish
  }

  ghost predicate OneAfterOther(a: Placed, b: Placed) {
    && a.run <= a.finish && b.run <= b.finish && (a.Device() == b.Device() ==> a.finish <= b.run)
    && (a.Setting() == b.Setting() ==> Later(a.run, a.Setting().interval) <= b.run)
  }

  /** No two runs on one device overlap; runs of one setting keep its interval. */
  ghost predicate Compatible(a: Placed, b: Placed) {
    && (a.Device() == b.Device() ==> a.finish <= b.run || b.finish <= a.run)
    && (a.Setting() == b.Setting() ==>
          Later(a.run, a.Setting().interval) <= b.run || Later(b.run, a.Setting().interval) <= a.run)
  }

  lemma {:induction false} LegalChain(ps: seq<Placed>)
    requires Legal(ps)
    ensures Pairwise(ps, OneAfterOther) && Pairwise(ps, Compatible)
    ensures forall p :: p in ps ==> p.run <= p.finish
  {
    if ps != [] {
      var before, p := ps[..|ps| - 1], ps[|ps| - 1];
      LegalChain(before);
      forall q | q in before ensures OneAfterOther(q, p) && Compatible(q, p) {}
      PairwiseAppend(before, p, OneAfterOther);
      PairwiseAppend(before, p, Compatible);
      assert ps == before + [p];
    }
  }

  lemma PairwiseAppend(ps: seq<Placed>, p: Placed, r: (Placed, Placed) -> bool)
    requires Pairwise(ps, r) && forall q :: q in ps ==> r(q, p)
    ensures Pairwise(ps + [p], r)
  {}

  /** Consulting the n-th largest finish date decides how many runs finish later. */
  lemma {:induction false} NthLargest(l: seq<Placed>, src: Source, n: nat, t: int)
    requires n >= 1 && SortedBy(l, FinishKey()) && forall p :: p in l ==> p.Source() == src
    ensures |Filter(l, FinishesAfter(src, t))| < n <==> |l| < n || l[|l| - n].finish <= t
  {
    if l != [] {
      var l', x := l[..|l| - 1], l[|l| - 1];
      if x.finish <= t {
        forall p | p in l ensures p.finish <= t {
          var i :| 0 <= i < |l| && l[i] == p;
          assert i < |l| - 1 ==> KeyLeq(FinishKey()(l[i]), FinishKey()(x));
        }
        FilterNone(l, FinishesAfter(src, t));
        assert |l| >= n ==> l[|l| - n] in l;
      } else if n > 1 {
        NthLargest(l', src, n - 1, t);
      }
    }
  }

  lemma SourceDateExact(ps: seq<Placed>, src: Source, n: nat, t: int)
    requires n >= 1
    ensures var l := BySource(ps, src);
            |Filter(ps, FinishesAfter(src, t))| < n <==> |l| < n || l[|l| - n].finish <= t
  {
    var f := Filter(ps, OfSource(src));
    SortFacts(f, FinishKey());
    FilterElements(ps, OfSource(src));
    NthLargest(BySource(ps, src), src, n, t);
    FilterSort(f, FinishKey(), FinishesAfter(src, t));
    FilterTwice(ps, FinishesAfter(src, t), OfSource(src));
  }

  lemma DeviceDateExact(ps: seq<Placed>, dev: nat, t: int)
    ensures var l := ByDevice(ps, dev);
            (forall p :: p in ps && p.Device() == dev ==> p.finish <= t) <==> l == [] || l[|l| - 1].finish <= t
  {
    var f, l := Filter(ps, OfDevice(dev)), ByDevice(ps, dev);
    SortFacts(f, FinishKey());
    FilterElements(ps, OfDevice(dev));
    if l != [] {
      assert l[|l| - 1] in l;
      forall p | p in l ensures p.finish <= l[|l| - 1].finish {
        var i :| 0 <= i < |l| && l[i] == p;
        assert i < |l| - 1 ==> KeyLeq(FinishKey()(l[i]), FinishKey()(l[|l| - 1]));
      }
    }
  }

  /** Because runs of one device never overlap, the run of a setting that finishes last started last
      too, an interval or more after all others. (A later start alone would not do: a month after it
      may be earlier.) */
  lemma SettingDateExact(ps: seq<Placed>, s: Setting, t: int)
    requires Legal(ps)
    ensures var l := BySetting(ps, s);
            (forall p :: p in ps && p.Setting() == s ==> Later(p.run, s.interval) <= t)
            <==> l == [] || Later(l[|l| - 1].run, s.interval) <= t
  {
    hide Later;
    var l := Filter(ps, OfSetting(s));
    LegalChain(ps);
    PairwiseFilter(ps, OfSetting(s), OneAfterOther);
    FilterElements(ps, OfSetting(s));
    assert SortedBy(l, FinishKey()) by {
      forall i, j | 0 <= i < j < |l| ensures KeyLeq(FinishKey()(l[i]), FinishKey()(l[j])) {
        assert l[i] in l && l[j] in l && OneAfterOther(l[i], l[j]);
      }
    }
    SortIdentity(l, FinishKey());
    if l != [] {
      var last := l[|l| - 1];
      assert last in l;
      LaterIsLater(last.run, s.interval);
      forall p | p in l ensures Later(p.run, s.interval) <= Later(last.run, s.interval) {
        var i :| 0 <= i < |l| && l[i] == p;
        assert i < |l| - 1 ==> OneAfterOther(l[i], last);
      }
    }
  }

  /** Greedy exactness: the run date is the least admissible one. */
  lemma RunDateExact(ps: seq<Placed>, x: Item, t: int)
    requires Legal(ps)
    ensures Admissible(ps, x, t) <==> RunDate(ps, x) <= t
  {
    hide Later, Legal, BySource, ByDevice, BySetting, Filter, FinishesAfter;
    SourceDateExact(ps, x.setting.source, MaxConcurrent(x.setting.source), t);
    DeviceDateExact(ps, x.setting.device, t);
    SettingDateExact(ps, x.setting, t);
  }

  function ItemsOf(ps: seq<Placed>): seq<Item> { seq(|ps|, i requires 0 <= i < |ps| => ps[i].item) }

  lemma PlaceOneAdmissible(db: Database, ps: seq<Placed>, x: Item)
    requires Valid(db) && Legal(ps)
    ensures var p := PlaceOne(db, ps, x);
            p.item == x && Admissible(ps, x, p.run) && p.run <= p.finish
  {
    RunDateExact(ps, x, RunDate(ps, x));
  }

  lemma {:induction false} PlaceLegal(db: Database, items: seq<Item>)
    requires Valid(db)
    ensures Legal(Place(db, items)) && ItemsOf(Place(db, items)) == items
  {
    hide PlaceOne, Admissible;
    if items != [] {
      var before, x := items[..|items| - 1], items[|items| - 1];
      var ps := Place(db, before);
      PlaceLegal(db, before);
      PlaceOneAdmissible(db, ps, x);
      LegalAppend(ps, PlaceOne(db, ps, x));
      assert items == before + [x];
    }
  }

  lemma LegalAppend(ps: seq<Placed>, p: Placed)
    requires Legal(ps) && Admissible(ps, p.item, p.run) && p.run <= p.finish
    ensures Legal(ps + [p]) && ItemsOf(ps + [p]) == ItemsOf(ps) + [p.item]
  {
    assert (ps + [p])[..|ps|] == ps;
  }

  // ----- guarantees of the returned schedule -----

  function ActiveAt(src: Source, t: int): Placed -> bool {
    (p: Placed) => p.Source() == src && p.run <= t < p.finish
  }

  lemma {:induction false} LegalCapacity(ps: seq<Placed>, src: Source, t: int)
    requires Legal(ps)
    ensures |Filter(ps, ActiveAt(src, t))| <= MaxConcurrent(src)
  {
    if ps != [] {
      var before, p := ps[..|ps| - 1], ps[|ps| - 1];
      if ActiveAt(src, t)(p) {
        FilterTwice(before, ActiveAt(src, t), FinishesAfter(src, t));
        FilterTwice(before, FinishesAfter(src, t), FinishesAfter(src, p.run));
        assert |Filter(before, ActiveAt(src, t))| <= |Filter(before, FinishesAfter(src, p.run))|;
      } else {
        LegalCapacity(before, src, t);
      }
    }
  }

  /** Source capacity: at no instant does a source exceed its limit. */
  lemma SourceCapacity(db: Database, start: int, end: int, src: Source, t: int)
    requires Valid(db)
    ensures |Filter(Schedule(db, start, end), ActiveAt(src, t))| <= if src.ASU? then 1 else 5
  {
    var ps := AllPlaced(db, start, end);
    PlaceLegal(db, Presorted(NaiveRuns(db, |db.settings|, start, end)));
    LegalCapacity(ps, src, t);
    FilterSort(Filter(ps, RunsBefore(end)), RunKey(), ActiveAt(src, t));
    FilterMonotone(ps, ActiveAt(src, t), RunsBefore(end));
  }

  /** Device exclusivity and interval spacing between any two runs of the schedule. */
  lemma ScheduleCompatible(db: Database, start: int, end: int)
    requires Valid(db)
    ensures Pairwise(Schedule(db, start, end), Compatible)
  {
    var ps := AllPlaced(db, start, end);
    PlaceLegal(db, Presorted(NaiveRuns(db, |db.settings|, start, end)));
    LegalChain(ps);
    PairwiseFilter(ps, RunsBefore(end), Compatible);
    PairwiseSort(Filter(ps, RunsBefore(end)), RunKey(), Compatible);
  }

  /** Nothing is lost: the schedule is the run-date-ordered rearrangement of exactly those
      planned runs that start before the end, and none starts before the beginning. */
  lemma NothingLost(db: Database, start: int, end: int)
    requires Valid(db) && start <= end
    ensures var ps, r := AllPlaced(db, start, end), Schedule(db, start, end);
            && multiset(ItemsOf(ps)) == multiset(NaiveRuns(db, |db.settings|, start, end))
            && multiset(r) == multiset(Filter(ps, RunsBefore(end)))
            && SortedBy(r, RunKey())
            && forall p :: p in r ==> p in ps && start <= p.item.planned <= p.run < end
  {
    hide Place, Presorted, NaiveRuns, Legal, CutOff;
    var naive := NaiveRuns(db, |db.settings|, start, end);
    PlacedBounds(db, start, end);
    PresortPermutes(naive);
    PlaceLegal(db, Presorted(naive));
    CutOffFacts(AllPlaced(db, start, end), end);
  }

  lemma CutOffFacts(ps: seq<Placed>, end: int)
    ensures SortedBy(CutOff(ps, end), RunKey())
    ensures multiset(CutOff(ps, end)) == multiset(Filter(ps, RunsBefore(end)))
    ensures forall p :: p in CutOff(ps, end) <==> p in ps && p.run < end
  {
    SortFacts(Filter(ps, RunsBefore(end)), RunKey());
    FilterElements(ps, RunsBefore(end));
  }

  lemma PlacedBounds(db: Database, start: int, end: int)
    requires Valid(db)
    ensures forall p :: p in AllPlaced(db, start, end) ==> start <= p.item.planned <= p.run
  {
    hide Place, Presorted, NaiveRuns, Legal;
    var naive := NaiveRuns(db, |db.settings|, start, end);
    var ps := AllPlaced(db, start, end);
    PlaceLegal(db, Presorted(naive));
    PresortPermutes(naive);
    NaiveBounds(db, |db.settings|, start, end);
    LegalAfterPlanned(ps);
    forall p | p in ps ensures p.item in naive {
      var i :| 0 <= i < |ps| && ps[i] == p;
      assert ItemsOf(ps)[i] == p.item;
    }
  }

  lemma {:induction false} LegalAfterPlanned(ps: seq<Placed>)
    requires Legal(ps)
    ensures forall p :: p in ps ==> p.item.planned <= p.run
  {
    if ps != [] {
      LegalAfterPlanned(ps[..|ps| - 1]);
      assert ps == ps[..|ps| - 1] + [ps[|ps| - 1]];
    }
  }

  lemma {:induction false} PlaceAt(db: Database, items: seq<Item>, i: nat)
    requires i < |items|
    ensures Place(db, items)[..i] == Place(db, items[..i])
    ensures Place(db, items)[i] == PlaceOne(db, Place(db, items[..i]), items[i])
  {
    hide PlaceOne;
    if i < |items| - 1 {
      PlaceAt(db, items[..|items| - 1], i);
      assert items[..|items| - 1][..i] == items[..i];
    }
  }

  /** Greedy exactness over the whole placement: a time is admissible for a run, next to the
      runs placed before it, exactly from its run date on; it takes its average duration. */
  lemma GreedyExact(db: Database, start: int, end: int, i: nat, t: int)
    requires Valid(db) && i < |AllPlaced(db, start, end)|
    ensures var ps := AllPlaced(db, start, end);
            && (Admissible(ps[..i], ps[i].item, t) <==> ps[i].run <= t)
            && var key := (ps[i].Source(), ps[i].Device());
               ps[i].finish - ps[i].run == if key in db.durations then db.durations[key] else 60
  {
    hide Place, Presorted, NaiveRuns, Legal, RunDate, Admissible;
    var items := Presorted(NaiveRuns(db, |db.settings|, start, end));
    PlaceAt(db, items, i);
    PlaceLegal(db, items[..i]);
    RunDateExact(Place(db, items[..i]), items[i], t);
  }

  /** No run of the schedule starts before the interval since the last run in the history has passed,
      or a tenth of it after a failure; run_now settings aside. */
  lemma ScheduleRespectsHistory(db: Database, start: int, end: int)
    requires Valid(db)
    ensures forall p :: p in Schedule(db, start, end) ==> MayRun(db, p.item.setting, p.run)
  {
    hide Place, Presorted, NaiveRuns, Legal, MayRun;
    var naive, ps := NaiveRuns(db, |db.settings|, start, end), AllPlaced(db, start, end);
    NaiveMayRun(db, |db.settings|, start, end);
    PlacedBounds(db, start, end);
    PresortPermutes(naive);
    PlaceLegal(db, Presorted(naive));
    CutOffFacts(ps, end);
    hide CutOff;
    forall p | p in ps ensures MayRun(db, p.item.setting, p.run) {
      var i :| 0 <= i < |ps| && ps[i] == p;
      assert ItemsOf(ps)[i] == p.item && p.item in naive;
      MayRunLater(db, p.item.setting, p.item.planned, p.run);
    }
  }

  lemma MayRunLater(db: Database, s: Setting, t: int, u: int)
    requires MayRun(db, s, t) && t <= u
    ensures MayRun(db, s, u)
  {}

  /** Horizon consistency: planning further ahead never changes an earlier decision. */
  lemma HorizonConsistency(db: Database, start: int, end1: int, end2: int)
    requires Valid(db) && start <= end1 <= end2
    ensures Schedule(db, start, end1) <= Schedule(db, start, end2)
    ensures Schedule(db, start, end1) == Filter(Schedule(db, start, end2), RunsBefore(end1))
  {
    var n, b := |db.settings|, RunsBefore(end1);
    var x1, x2 := Presorted(NaiveRuns(db, n, start, end1)), Presorted(NaiveRuns(db, n, start, end2));
    PresortedHorizon(db, start, end1, end2);
    PlacedPrefix(db, x1, x2, end1);
    var f2 := Filter(Place(db, x2), RunsBefore(end2));
    FilterTwice(Place(db, x2), b, RunsBefore(end2));
    SortedSelectionIsPrefix(f2, RunKey(), b);
    FilterSort(f2, RunKey(), b);
  }

  lemma {:induction false} PlacedPrefix(db: Database, x1: seq<Item>, x2: seq<Item>, end: int)
    requires Valid(db) && x1 <= x2 && forall x :: x in x2[|x1|..] ==> x.planned >= end
    ensures Filter(Place(db, x2), RunsBefore(end)) == Filter(Place(db, x1), RunsBefore(end))
  {
    hide PlaceOne, Legal;
    if |x1| < |x2| {
      var before, x := x2[..|x2| - 1], x2[|x2| - 1];
      assert x2[|x1|..] == before[|x1|..] + [x];
      PlacedPrefix(db, x1, before, end);
      PlaceLegal(db, before);
      PlaceOneAdmissible(db, Place(db, before), x);
      assert x in x2[|x1|..];
      assert Place(db, x2)[..|before|] == Place(db, before);
    } else {
      assert x1 == x2;
    }
  }
}
