/** Asset-scan dispatcher: the table of future scans. schedule_call keeps two future items per
    device/setting link, dispatch_call consumes the items that are due. */
module AssetSchedule {
  import opened ListSort
  import opened Alignment

  datatype SettingRef = NoSetting | SettingIdx(idx: nat)

  datatype Row = Row(device: nat, setting: SettingRef, planned: int, runNow: bool)

  datatype Link = Link(device: nat, ds: DispatcherSetting)

  predicate Belongs(r: Row, l: Link) { r.device == l.device && r.setting == SettingIdx(l.ds.idx) }

  function OfLink(l: Link): Row -> bool { (r: Row) => Belongs(r, l) }

  function NewRow(l: Link, planned: int): Row { Row(l.device, SettingIdx(l.ds.idx), planned, false) }

  function LatestDate(rows: seq<Row>): int
    requires rows != []
  {
    if |rows| == 1 then rows[0].planned
    else
      var d := LatestDate(rows[..|rows| - 1]);
      if rows[|rows| - 1].planned > d then rows[|rows| - 1].planned else d
  }

  function Additions(rows: seq<Row>, l: Link, now: int): seq<Row> {
    if rows == [] then
      var d := AlignedTime(now, l.ds);
      [NewRow(l, d), NewRow(l, d + TimeInc(l.ds))]
    else if |rows| < 2 then [NewRow(l, LatestDate(rows) + TimeInc(l.ds))]
    else []
  }

  function PlanLinks(items: seq<Row>, links: seq<Link>, now: int): seq<Row> {
    if links == [] then items
    else
      var l := links[|links| - 1];
      var before := PlanLinks(items, links[..|links| - 1], now);
      before + Additions(Filter(before, OfLink(l)), l, now)
  }

  /** Kept by the orphan check. */
  function Linked(links: seq<Link>): Row -> bool {
    (r: Row) => r.runNow || exists l :: l in links && Belongs(r, l)
  }

  function NotDue(now: int): Row -> bool { (r: Row) => r.planned >= now }

  function Due(now: int): Row -> bool { (r: Row) => r.planned < now }

  datatype Event = ScheduleCall(now: int) | DispatchCall(now: int)

  function Step(items: seq<Row>, links: seq<Link>, e: Event): seq<Row> {
    match e
    case ScheduleCall(now) => Filter(PlanLinks(items, links, now), Linked(links))
    case DispatchCall(now) => Filter(items, NotDue(now))
  }

  function Run(items: seq<Row>, links: seq<Link>, es: seq<Event>): seq<Row> {
    if es == [] then items else Step(Run(items, links, es[..|es| - 1]), links, es[|es| - 1])
  }

  // ----- the code -----

  class ScheduleTable {
    var items: seq<Row>

    constructor (items: seq<Row>)
      ensures this.items == items
    {
      this.items := items;
    }

    method Schedule(links: seq<Link>, now: int)
      requires forall l :: l in links ==> InRange(l.ds)
      modifies this
      ensures items == Step(old(items), links, ScheduleCall(now))
    {
      for i := 0 to |links|
        invariant items == PlanLinks(old(items), links[..i], now)
      {
        assert links[..i + 1][..i] == links[..i];
        ScheduleLink(links[i], now);
      }
      assert links[..|links|] == links;
      items := Filter(items, Linked(links));
    }

    method ScheduleLink(l: Link, now: int)
      requires InRange(l.ds)
      modifies this
      ensures items == old(items) + Additions(Filter(old(items), OfLink(l)), l, now)
    {
      // number of items of this link, and the latest of them
      var count, last := 0, 0;
      for k := 0 to |items|
        invariant items == old(items)
        invariant var rows := Filter(items[..k], OfLink(l));
                  count == |rows| && (rows != [] ==> last == LatestDate(rows))
      {
        assert items[..k + 1][..k] == items[..k];
        var sched := items[k];
        if Belongs(sched, l) {
          if count == 0 || sched.planned > last {
            last := sched.planned;
          }
          count := count + 1;
        }
      }
      assert items[..|items|] == items;
      if count == 0 {
        last := AlignTimeToBaseline(now, l.ds);
        items := items + [NewRow(l, last)];
        count := 1;
      }
      if count < 2 {
        items := items + [NewRow(l, last + TimeInc(l.ds))];
      }
    }

    /** The items that are due leave the table, to be scanned. */
    method Dispatch(now: int) returns (due: seq<Row>)
      modifies this
      ensures items == Step(old(items), [], DispatchCall(now)) && due == Filter(old(items), Due(now))
      ensures forall r :: r in due <==> r in old(items) && r.planned < now
      ensures forall r :: r in items <==> r in old(items) && r.planned >= now
    {
      var kept: seq<Row> := [];
      due := [];
      for k := 0 to |items|
        invariant items == old(items) && kept == Filter(items[..k], NotDue(now)) && due == Filter(items[..k], Due(now))
      {
        assert items[..k + 1][..k] == items[..k];
        if items[k].planned < now {
          due := due + [items[k]];
        } else {
          kept := kept + [items[k]];
        }
      }
      assert items[..|items|] == items;
      FilterElements(items, Due(now));
      FilterElements(items, NotDue(now));
      items := kept;
    }
  }

  // ----- the invariant -----

  /** At most two dates, aligned, one increment apart. */
  ghost predicate Progression(rows: seq<Row>, ds: DispatcherSetting) {
    && |rows| <= 2
    && (forall r :: r in rows ==> Aligned(ds, r.planned))
    && (|rows| == 2 ==> rows[1].planned - rows[0].planned == TimeInc(ds)
                        || rows[0].planned - rows[1].planned == TimeInc(ds))
  }

  ghost predicate Inv(items: seq<Row>, links: seq<Link>) {
    forall l :: l in links ==> Progression(Filter(items, OfLink(l)), l.ds)
  }

  /** A setting row is the same wherever it is linked. */
  ghost predicate FixedSettings(links: seq<Link>) {
    && (forall l :: l in links ==> InRange(l.ds))
    && (forall a, b :: a in links && b in links && a.ds.idx == b.ds.idx ==> a.ds == b.ds)
  }

  lemma ProgressionFilter(rows: seq<Row>, ds: DispatcherSetting, p: Row -> bool)
    requires Progression(rows, ds)
    ensures Progression(Filter(rows, p), ds)
  {
    FilterElements(rows, p);
    if |Filter(rows, p)| == 2 {
      FilterFull(rows, p);
    }
  }

  lemma {:induction false} FilterFull(rows: seq<Row>, p: Row -> bool)
    requires |Filter(rows, p)| == |rows|
    ensures Filter(rows, p) == rows
  {
    if rows != [] {
      FilterFull(rows[..|rows| - 1], p);
    }
  }

  lemma {:induction false} FilterSwap(rows: seq<Row>, p: Row -> bool, q: Row -> bool)
    ensures Filter(Filter(rows, p), q) == Filter(Filter(rows, q), p)
  {
    if rows != [] {
      var before, x := rows[..|rows| - 1], rows[|rows| - 1];
      FilterSwap(before, p, q);
      FilterAppend(Filter(before, p), [x], q);
      FilterAppend(Filter(before, q), [x], p);
    }
  }

  lemma FilterKeepsInv(items: seq<Row>, links: seq<Link>, p: Row -> bool)
    requires Inv(items, links)
    ensures Inv(Filter(items, p), links)
  {
    forall l | l in links ensures Progression(Filter(Filter(items, p), OfLink(l)), l.ds) {
      FilterSwap(items, p, OfLink(l));
      ProgressionFilter(Filter(items, OfLink(l)), l.ds, p);
    }
  }

  /** Planning completes a progression to exactly two dates. */
  lemma AdditionsComplete(rows: seq<Row>, l: Link, now: int)
    requires InRange(l.ds) && Progression(rows, l.ds)
    ensures Progression(rows + Additions(rows, l, now), l.ds)
    ensures |rows + Additions(rows, l, now)| == 2
  {
    AlignmentExact(now, l.ds);
    IncrementKeepsAlignment(l.ds, AlignedTime(now, l.ds));
    if |rows| == 1 {
      assert rows[0] in rows;
      IncrementKeepsAlignment(l.ds, rows[0].planned);
    }
  }

  /** Planning one link touches only the rows of that device and setting. */
  lemma PlanOneLink(items: seq<Row>, l: Link, now: int, other: Link)
    ensures var rows := Filter(items, OfLink(l));
            var after := Filter(items + Additions(rows, l, now), OfLink(other));
            if other.device == l.device && other.ds.idx == l.ds.idx then after == rows + Additions(rows, l, now)
            else after == Filter(items, OfLink(other))
  {
    var rows := Filter(items, OfLink(l));
    var add := Additions(rows, l, now);
    FilterAppend(items, add, OfLink(other));
    if other.device == l.device && other.ds.idx == l.ds.idx {
      FilterAll(add, OfLink(other));
      FilterTwice(items, OfLink(other), OfLink(l));
      FilterTwice(items, OfLink(l), OfLink(other));
      FilterSwap(items, OfLink(l), OfLink(other));
    } else {
      FilterNone(add, OfLink(other));
    }
  }

  /** Rows of a link before and after planning: nothing is dropped, a link that had no rows starts
      at its aligned time, and a second row follows one increment later. */
  ghost predicate Extends(rows: seq<Row>, after: seq<Row>, l: Link, now: int) {
    && rows <= after && (rows == [] && after != [] ==> after[0].planned == AlignedTime(now, l.ds))
    && (|rows| < 2 == |after| ==> after[1].planned == after[0].planned + TimeInc(l.ds))
  }

  lemma AdditionsExtend(rows: seq<Row>, mid: seq<Row>, l: Link, now: int)
    requires Extends(rows, mid, l, now)
    ensures Extends(rows, mid + Additions(mid, l, now), l, now)
  {}

  lemma {:induction false} PlanLinksInv(items: seq<Row>, links: seq<Link>, n: nat, now: int)
    requires FixedSettings(links) && Inv(items, links) && n <= |links|
    ensures Inv(PlanLinks(items, links[..n], now), links)
    ensures forall i :: 0 <= i < |links| ==>
                          var after := Filter(PlanLinks(items, links[..n], now), OfLink(links[i]));
                          (i < n ==> |after| == 2) && Extends(Filter(items, OfLink(links[i])), after, links[i], now)
  {
    hide Additions, Progression, Extends, Filter;
    if n == 0 {
      forall i | 0 <= i < |links|
        ensures var rows := Filter(items, OfLink(links[i])); Extends(rows, rows, links[i], now)
      {
        ExtendsItself(Filter(items, OfLink(links[i])), links[i], now);
      }
    } else {
      PlanLinksInv(items, links, n - 1, now);
      assert links[..n][..n - 1] == links[..n - 1];
      var l := links[n - 1];
      var before := PlanLinks(items, links[..n - 1], now);
      assert l in links;
      AdditionsComplete(Filter(before, OfLink(l)), l, now);
      var after := PlanLinks(items, links[..n], now);
      forall i | 0 <= i < |links|
        ensures Progression(Filter(after, OfLink(links[i])), links[i].ds)
        ensures i < n ==> |Filter(after, OfLink(links[i]))| == 2
        ensures Extends(Filter(items, OfLink(links[i])), Filter(after, OfLink(links[i])), links[i], now)
      {
        assert links[i] in links;
        PlanOneLink(before, l, now, l);
        PlanOneLink(before, l, now, links[i]);
        if links[i].device == l.device && links[i].ds.idx == l.ds.idx {
          assert links[i] == l;
          AdditionsExtend(Filter(items, OfLink(l)), Filter(before, OfLink(l)), l, now);
        }
      }
    }
  }

  lemma ExtendsItself(rows: seq<Row>, l: Link, now: int)
    ensures Extends(rows, rows, l, now)
  {}

  /** After schedule_call every link has exactly two items, one increment apart and aligned;
      items a link already had are kept, a link without items starts at its aligned time; and
      no item without a link remains unless it was requested to run at once. */
  lemma ScheduleCallComplete(items: seq<Row>, links: seq<Link>, now: int)
    requires FixedSettings(links) && Inv(items, links)
    ensures var after := Step(items, links, ScheduleCall(now));
            && Inv(after, links)
            && (forall l :: l in links ==> |Filter(after, OfLink(l))| == 2)
            && (forall l :: l in links ==> Extends(Filter(items, OfLink(l)), Filter(after, OfLink(l)), l, now))
            && (forall r :: r in after ==> r.runNow || exists l :: l in links && Belongs(r, l))
  {
    hide Extends, Progression, Filter, PlanLinks;
    var planned := PlanLinks(items, links, now);
    assert links[..|links|] == links;
    PlanLinksInv(items, links, |links|, now);
    FilterKeepsInv(planned, links, Linked(links));
    FilterElements(planned, Linked(links));
    forall l | l in links
      ensures var rows := Filter(Filter(planned, Linked(links)), OfLink(l));
              |rows| == 2 && Extends(Filter(items, OfLink(l)), rows, l, now)
    {
      var i :| 0 <= i < |links| && links[i] == l;
      FilterTwice(planned, OfLink(l), Linked(links));
    }
  }

  /** What a schedule call leaves alone: items that are to run at once and items of a link. */
  function Wanted(links: seq<Link>): Row -> bool {
    (r: Row) => r.runNow || exists l :: l in links && r.device == l.device && r.setting == SettingIdx(l.ds.idx)
  }

  /** schedule_call keeps exactly these, in their order, and puts new items of the links behind them. */
  lemma ScheduleKeeps(items: seq<Row>, links: seq<Link>, now: int)
    ensures var kept, after := Filter(items, Wanted(links)), Step(items, links, ScheduleCall(now));
            && kept <= after
            && forall r :: r in after[|kept|..] ==> !r.runNow && exists l :: l in links && Belongs(r, l)
  {
    var new' := Planned(items, links, now);
    PlannedAdded(items, links, now);
    PlannedLinked(items, links, now);
    FilterAppend(items, new', Linked(links));
    FilterElements(new', Linked(links));
    FilterSame(items, Linked(links), Wanted(links));
    hide Filter, Planned, PlanLinks;
    var kept, added := Filter(items, Wanted(links)), Filter(new', Linked(links));
    assert Step(items, links, ScheduleCall(now)) == kept + added;
    assert (kept + added)[|kept|..] == added;
  }

  lemma {:induction false} PlannedLinked(items: seq<Row>, links: seq<Link>, now: int)
    ensures forall r :: r in Planned(items, links, now) ==> !r.runNow && exists l :: l in links && Belongs(r, l)
  {
    if links != [] {
      var l, before := links[|links| - 1], links[..|links| - 1];
      PlannedLinked(items, before, now);
      assert l in links && forall x :: x in before ==> x in links;
      var more := Additions(Filter(PlanLinks(items, before, now), OfLink(l)), l, now);
      assert forall r :: r in more ==> Belongs(r, l) && !r.runNow;
      hide Additions, Filter, PlanLinks, Belongs;
    }
  }

  lemma {:induction false} FilterSame(rows: seq<Row>, p: Row -> bool, q: Row -> bool)
    requires forall r :: p(r) <==> q(r)
    ensures Filter(rows, p) == Filter(rows, q)
  {
    if rows != [] { FilterSame(rows[..|rows| - 1], p, q); }
  }

  /** Over every interleaving of the two calls the invariant holds. */
  lemma {:induction false} InvOverRuns(items: seq<Row>, links: seq<Link>, es: seq<Event>)
    requires FixedSettings(links) && Inv(items, links)
    ensures Inv(Run(items, links, es), links)
  {
    if es != [] {
      var before, e := es[..|es| - 1], es[|es| - 1];
      InvOverRuns(items, links, before);
      match e
      case ScheduleCall(now) => ScheduleCallComplete(Run(items, links, before), links, now);
      case DispatchCall(now) => FilterKeepsInv(Run(items, links, before), links, NotDue(now));
    }
  }

  // ----- what leaves the table -----

  /** The items that the dispatch calls took out. */
  function Fired(items: seq<Row>, links: seq<Link>, es: seq<Event>): seq<Row> {
    if es == [] then []
    else
      var before, e := es[..|es| - 1], es[|es| - 1];
      var fired := Fired(items, links, before);
      if e.DispatchCall? then fired + Filter(Run(items, links, before), Due(e.now)) else fired
  }

  lemma OneMoreCall(items: seq<Row>, links: seq<Link>, es: seq<Event>, e: Event)
    ensures var rows, fired := Run(items, links, es), Fired(items, links, es);
            && Run(items, links, es + [e]) == Step(rows, links, e)
            && Fired(items, links, es + [e]) == if e.DispatchCall? then fired + Filter(rows, Due(e.now)) else fired
  {
    assert (es + [e])[..|es|] == es;
  }

  /** The items that the schedule calls put in. */
  function Created(items: seq<Row>, links: seq<Link>, es: seq<Event>): seq<Row> {
    if es == [] then []
    else
      var before, e := es[..|es| - 1], es[|es| - 1];
      var rows := Run(items, links, before);
      Created(items, links, before) + if e.ScheduleCall? then Planned(rows, links, e.now) else []
  }

  /** The items that the schedule calls removed. */
  function Orphaned(items: seq<Row>, links: seq<Link>, es: seq<Event>): seq<Row> {
    if es == [] then []
    else
      var before, e := es[..|es| - 1], es[|es| - 1];
      var rows := Run(items, links, before);
      Orphaned(items, links, before) +
      if e.ScheduleCall? then Filter(PlanLinks(rows, links, e.now), Unlinked(links)) else []
  }

  function Unlinked(links: seq<Link>): Row -> bool { (r: Row) => !Linked(links)(r) }

  /** What planning adds. */
  function Planned(items: seq<Row>, links: seq<Link>, now: int): seq<Row> {
    if links == [] then []
    else
      var l, before := links[|links| - 1], links[..|links| - 1];
      Planned(items, before, now) + Additions(Filter(PlanLinks(items, before, now), OfLink(l)), l, now)
  }

  lemma {:induction false} PlannedAdded(items: seq<Row>, links: seq<Link>, now: int)
    ensures PlanLinks(items, links, now) == items + Planned(items, links, now)
  {
    if links != [] { PlannedAdded(items, links[..|links| - 1], now); }
  }

  lemma {:induction false} FilterDivides(rows: seq<Row>, p: Row -> bool, q: Row -> bool)
    requires forall r :: p(r) <==> !q(r)
    ensures multiset(Filter(rows, p)) + multiset(Filter(rows, q)) == multiset(rows)
  {
    if rows != [] {
      FilterDivides(rows[..|rows| - 1], p, q);
      assert rows == rows[..|rows| - 1] + [rows[|rows| - 1]];
    }
  }

  /** Over every interleaving each item that was ever in the table still is, or was dispatched once,
      or was removed as an orphan. */
  lemma {:induction false} ItemsConserved(items: seq<Row>, links: seq<Link>, es: seq<Event>)
    ensures multiset(items) + multiset(Created(items, links, es)) ==
            multiset(Run(items, links, es)) + multiset(Fired(items, links, es)) + multiset(Orphaned(items, links, es))
  {
    if es != [] {
      var before, e := es[..|es| - 1], es[|es| - 1];
      ItemsConserved(items, links, before);
      var rows := Run(items, links, before);
      var start, created := multiset(items), multiset(Created(items, links, before));
      var fired, orphaned := multiset(Fired(items, links, before)), multiset(Orphaned(items, links, before));
      match e
      case ScheduleCall(now) =>
        var all, new' := PlanLinks(rows, links, now), Planned(rows, links, now);
        PlannedAdded(rows, links, now);
        FilterDivides(all, Linked(links), Unlinked(links));
        hide Filter, Planned, PlanLinks, Run, Created, Orphaned, Fired;
        var kept, gone := multiset(Filter(all, Linked(links))), multiset(Filter(all, Unlinked(links)));
        Balance(start, created, multiset(rows), fired, orphaned, multiset(new'), kept, multiset{}, gone);
      case DispatchCall(now) =>
        FilterDivides(rows, NotDue(now), Due(now));
        hide Filter, Planned, PlanLinks, Run, Created, Orphaned, Fired;
        var kept, due := multiset(Filter(rows, NotDue(now))), multiset(Filter(rows, Due(now)));
        Balance(start, created, multiset(rows), fired, orphaned, multiset{}, kept, due, multiset{});
    }
  }

  lemma Balance(start: multiset<Row>, created: multiset<Row>, rows: multiset<Row>, fired: multiset<Row>,
                orphaned: multiset<Row>, new': multiset<Row>, kept: multiset<Row>, due: multiset<Row>,
                gone: multiset<Row>)
    requires start + created == rows + fired + orphaned && rows + new' == kept + due + gone
    ensures start + (created + new') == kept + (fired + due) + (orphaned + gone)
  {
    assert start + (created + new') == (rows + fired + orphaned) + new';
    assert (rows + fired + orphaned) + new' == (rows + new') + fired + orphaned;
  }

  // ----- no slot is dispatched twice -----

  ghost predicate DistinctDates(rows: seq<Row>) {
    forall i, j :: 0 <= i < j < |rows| ==> rows[i].planned != rows[j].planned
  }

  /** Everything that was dispatched for a link lies before all that is planned for it, and before t. */
  ghost predicate Behind(fired: seq<Row>, rows: seq<Row>, t: int) {
    && DistinctDates(fired) && (forall x :: x in fired ==> x.planned < t)
    && (forall x, y :: x in fired && y in rows ==> x.planned < y.planned)
  }

  /** The clock does not run backwards. */
  ghost predicate Chronological(es: seq<Event>) {
    forall i, j :: 0 <= i < j < |es| ==> es[i].now <= es[j].now
  }

  lemma BehindDispatch(fired: seq<Row>, rows: seq<Row>, t: int, now: int, ds: DispatcherSetting)
    requires Behind(fired, rows, t) && t <= now && Progression(rows, ds) && TimeInc(ds) > 0
    ensures Behind(fired + Filter(rows, Due(now)), Filter(rows, NotDue(now)), now)
  {
    var due := Filter(rows, Due(now));
    FilterElements(rows, Due(now));
    FilterElements(rows, NotDue(now));
    ProgressionFilter(rows, ds, Due(now));
    ProgressionDistinct(due, ds);
    hide Filter, Progression;
    DistinctAppend(fired, due);
  }

  lemma ProgressionDistinct(rows: seq<Row>, ds: DispatcherSetting)
    requires Progression(rows, ds) && TimeInc(ds) > 0
    ensures DistinctDates(rows)
  {
    hide Aligned, TimeInc;
  }

  lemma DistinctAppend(a: seq<Row>, b: seq<Row>)
    requires DistinctDates(a) && DistinctDates(b) && forall x, y :: x in a && y in b ==> x.planned < y.planned
    ensures DistinctDates(a + b)
  {
    var all := a + b;
    forall i, j | 0 <= i < j < |all| ensures all[i].planned != all[j].planned {
      if i < |a| <= j { assert all[i] in a && all[j] in b; }
    }
  }

  lemma BehindSchedule(fired: seq<Row>, rows: seq<Row>, after: seq<Row>, t: int, l: Link, now: int)
    requires Behind(fired, rows, t) && t <= now && Extends(rows, after, l, now) && |after| == 2
    requires InRange(l.ds) && TimeInc(l.ds) > 0
    ensures Behind(fired, after, now)
  {
    AlignmentExact(now, l.ds);
    hide AlignedTime, Aligned, TimeInc;
    forall x, y | x in fired && y in after ensures x.planned < y.planned {
      if y !in rows {
        assert y == after[0] || y == after[1];
        if |rows| > 0 { assert after[0] == rows[0] && rows[0] in rows; }
      }
    }
  }

  lemma IncrementPositive(ds: DispatcherSetting)
    requires InRange(ds)
    ensures TimeInc(ds) > 0
  {}

  function LastTime(es: seq<Event>, t: int): int { if es == [] then t else es[|es| - 1].now }

  /** No slot twice: with fixed links and a clock that does not run backwards, the items dispatched for
      a link all have different dates, and nothing that is still planned repeats one of them. */
  lemma {:induction false} SlotOnce(items: seq<Row>, links: seq<Link>, es: seq<Event>, l: Link, t: int)
    requires FixedSettings(links) && Inv(items, links) && Chronological(es) && l in links
    requires es != [] ==> t <= es[0].now
    ensures Behind(Filter(Fired(items, links, es), OfLink(l)), Filter(Run(items, links, es), OfLink(l)),
                   LastTime(es, t))
  {
    hide Extends, Progression, Filter, PlanLinks, Behind;
    if es == [] {
      NothingFired(Filter(items, OfLink(l)), l, t);
    } else {
      var before, e := es[..|es| - 1], es[|es| - 1];
      SlotOnce(items, links, before, l, t);
      InvOverRuns(items, links, before);
      IncrementPositive(l.ds);
      var table, fired := Run(items, links, before), Fired(items, links, before);
      var rows, gone, last := Filter(table, OfLink(l)), Filter(fired, OfLink(l)), LastTime(before, t);
      assert last <= e.now by { if before != [] { assert before[|before| - 1] == es[|es| - 2]; } }
      match e
      case ScheduleCall(now) =>
        ScheduleCallComplete(table, links, now);
        BehindSchedule(gone, rows, Filter(Step(table, links, e), OfLink(l)), last, l, now);
      case DispatchCall(now) =>
        BehindDispatch(gone, rows, last, now, l.ds);
        FilterAppend(fired, Filter(table, Due(now)), OfLink(l));
        FilterSwap(table, Due(now), OfLink(l));
        FilterSwap(table, NotDue(now), OfLink(l));
    }
  }

  lemma NothingFired(rows: seq<Row>, l: Link, t: int)
    ensures Behind(Filter([], OfLink(l)), rows, t)
  {}
}
