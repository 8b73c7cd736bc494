/** Discovery dispatcher, planning stages: which runs would happen if nothing ever
    conflicted, and in which order they are considered. Times are seconds since 1970-01-01. */
module DispatchPlan {
  import opened ListSort
  import Calendar

  datatype Source =
    | SNMP | ASU | IPMI | PACKAGE | HARDWARE | LICENSE
    | UPDATE | SOFTWARE_VERSION | PROCESS | PENDING_UPDATE

  function MaxConcurrent(src: Source): nat {
    if src == ASU then 1 else 5
  }

  datatype Unit = Months | Weeks | Days | Hours | Minutes

  /** The distance between two runs. */
  datatype Interval = Interval(unit: Unit, amount: int)

  /** The time of the next run; only months vary in length. */
  function Later(t: int, i: Interval): int {
    match i.unit
    case Months => Calendar.AddMonths(t, i.amount)
    case Weeks => t + 604800 * i.amount
    case Days => t + 86400 * i.amount
    case Hours => t + 3600 * i.amount
    case Minutes => t + 60 * i.amount
  }

  /** The interval divided by ten: years, months, days, hours and minutes are cut off one by one,
      after 12 months, 24 hours and 60 minutes were carried. */
  function Tenth(i: Interval): Interval {
    var n := i.amount;
    match i.unit
    case Months => Interval(Months, 12 * (n / 12 / 10) + n % 12 / 10)
    case Weeks => Interval(Days, 7 * n / 10)
    case Days => Interval(Days, n / 10)
    case Hours => Interval(Hours, 24 * (n / 24 / 10) + n % 24 / 10)
    case Minutes => Interval(Minutes, 1440 * (n / 1440 / 10) + 60 * (n / 60 % 24 / 10) + n % 60 / 10)
  }

  /** The interval of a setting takes some time. */
  type Positive = i: Interval | i.amount > 0 witness Interval(Days, 1)

  datatype Setting = Setting(pk: nat, device: nat, source: Source, interval: Positive, runNow: bool)

  datatype LastRun = LastRun(date: int, success: bool)

  /** What the dispatcher reads: settings, the latest history entry per device and source, and
      the average duration per source and device. */
  datatype Database = Database(settings: seq<Setting>,
                               history: map<(nat, Source), LastRun>,
                               durations: map<(Source, nat), int>)

  ghost predicate Valid(db: Database) {
    forall k :: k in db.durations ==> db.durations[k] >= 0
  }

  datatype Item = Item(setting: Setting, planned: int)

  datatype Result<T> = Success(value: T) | ValueError

  function Max(a: int, b: int): int { if a < b then b else a }

  function FirstDate(db: Database, s: Setting, start: int): int {
    if (s.device, s.source) !in db.history then start
    else if s.runNow then start
    else
      var last := db.history[(s.device, s.source)];
      Max(Later(last.date, if last.success then s.interval else Tenth(s.interval)), start)
  }

  lemma LaterIsLater(t: int, i: Positive)
    ensures t < Later(t, i)
  {
    Calendar.AddNoMonths(t);
    Calendar.AddMonthsAscends(t, 0, i.amount);
  }

  /** The planned runs of a setting from its first one on. */
  function PlannedRuns(s: Setting, from: int, end: int): seq<Item>
    decreases end - from
  {
    LaterIsLater(from, s.interval);
    if from >= end then [] else [Item(s, from)] + PlannedRuns(s, Later(from, s.interval), end)
  }

  /** Planned runs of the first n settings. */
  function NaiveRuns(db: Database, n: nat, start: int, end: int): seq<Item>
    requires Valid(db) && n <= |db.settings|
  {
    if n == 0 then []
    else
      var s := db.settings[n - 1];
      NaiveRuns(db, n - 1, start, end) + PlannedRuns(s, FirstDate(db, s, start), end)
  }

  function NowSettings(items: seq<Item>): set<Setting> {
    set x | x in items && x.setting.runNow :: x.setting
  }

  predicate GoesFirst(before: seq<Item>, x: Item) {
    x.setting.runNow && x.setting !in NowSettings(before)
  }

  /** The first run of every run_now setting. */
  function NowPart(items: seq<Item>): seq<Item> {
    if items == [] then []
    else
      var before, x := items[..|items| - 1], items[|items| - 1];
      if GoesFirst(before, x) then NowPart(before) + [x] else NowPart(before)
  }

  function RegularPart(items: seq<Item>): seq<Item> {
    if items == [] then []
    else
      var before, x := items[..|items| - 1], items[|items| - 1];
      if GoesFirst(before, x) then RegularPart(before) else RegularPart(before) + [x]
  }

  function PlanKey(): Item -> Key {
    (x: Item) => (x.planned, x.setting.device)
  }

  function Presorted(items: seq<Item>): seq<Item> {
    StableSort(NowPart(items), PlanKey()) + StableSort(RegularPart(items), PlanKey())
  }

  // ----- the code of the two stages -----

  method GetNextPlannedRunTimes(db: Database, start: int, end: int) returns (r: Result<seq<Item>>)
    requires Valid(db)
    ensures r == if end < start then ValueError else Success(NaiveRuns(db, |db.settings|, start, end))
  {
    if end < start {
      return ValueError;
    }
    var runList: seq<Item> := [];
    for i := 0 to |db.settings|
      invariant runList == NaiveRuns(db, i, start, end)
    {
      var setting := db.settings[i];
      var planned := start;
      if (setting.device, setting.source) in db.history && !setting.runNow {
        var last := db.history[(setting.device, setting.source)];
        var interval: Interval := setting.interval;
        if !last.success {
          interval := Tenth(interval);
        }
        planned := Max(Later(last.date, interval), start);
      }
      while planned < end
        invariant runList + PlannedRuns(setting, planned, end) == NaiveRuns(db, i + 1, start, end)
        decreases end - planned
      {
        LaterIsLater(planned, setting.interval);
        runList := runList + [Item(setting, planned)];
        planned := Later(planned, setting.interval);
      }
    }
    return Success(runList);
  }

  method PresortList(naive: seq<Item>) returns (r: seq<Item>)
    ensures r == Presorted(naive)
  {
    var runNow: seq<Item>, regular: seq<Item>, seen: set<Setting> := [], [], {};
    for i := 0 to |naive|
      invariant runNow == NowPart(naive[..i]) && regular == RegularPart(naive[..i])
      invariant seen == NowSettings(naive[..i])
    {
      var item := naive[i];
      assert naive[..i + 1][..i] == naive[..i];
      assert forall x :: x in naive[..i + 1] <==> x in naive[..i] || x == item;
      if item.setting.runNow && item.setting !in seen {
        seen := seen + {item.setting};
        runNow := runNow + [item];
      } else {
        regular := regular + [item];
      }
    }
    assert naive[..|naive|] == naive;
    r := StableSort(runNow, PlanKey()) + StableSort(regular, PlanKey());
  }

  // ----- what planning guarantees -----

  /** A failed run is repeated earlier than a successful one, but not before it started. */
  lemma RetryEarlier(t: int, i: Positive)
    ensures t <= Later(t, Tenth(i)) < Later(t, i)
  {
    TenthBounds(i);
    hide Tenth, Calendar.AddMonths;
    if i.unit.Months? {
      Calendar.AddNoMonths(t);
      Calendar.AddMonthsAscends(t, Tenth(i).amount, i.amount);
      if Tenth(i).amount > 0 { Calendar.AddMonthsAscends(t, 0, Tenth(i).amount); }
    }
  }

  /** What cutting off may lose: up to nine of each field, in units of the result. */
  function Slack(unit: Unit): int {
    match unit
    case Months => 9 * 12 + 9
    case Weeks => 9
    case Days => 9
    case Hours => 9 * 24 + 9
    case Minutes => 9 * 24 * 60 + 9 * 60 + 9
  }

  /** A tenth, up to what is cut off; weeks are cut off as days. */
  lemma TenthBounds(i: Positive)
    ensures Tenth(i).unit == if i.unit.Weeks? then Days else i.unit
    ensures var n := if i.unit.Weeks? then 7 * i.amount else i.amount;
            0 <= 10 * Tenth(i).amount <= n <= 10 * Tenth(i).amount + Slack(i.unit)
  {
    var n := i.amount;
    match i.unit
    case Months => TenthOf(n / 12); TenthOf(n % 12);
    case Weeks =>
    case Days =>
    case Hours => TenthOf(n / 24); TenthOf(n % 24);
    case Minutes =>
      var h := n / 60;
      assert n / 1440 == h / 24;
      TenthOf(h / 24); TenthOf(h % 24); TenthOf(n % 60);
  }

  lemma TenthOf(x: int)
    requires x >= 0
    ensures 0 <= 10 * (x / 10) <= x <= 10 * (x / 10) + 9
  {}

  /** The planned runs are exactly the times before the end that one reaches from the first by adding
      the interval again and again. */
  lemma {:induction false} PlannedRunsExact(s: Setting, from: int, end: int)
    ensures var runs := PlannedRuns(s, from, end);
            && (runs == [] <==> from >= end)
            && (forall k :: 0 <= k < |runs| ==> runs[k].setting == s && runs[k].planned < end)
            && (runs != [] ==> runs[0].planned == from && end <= Later(runs[|runs| - 1].planned, s.interval))
            && (forall k :: 0 < k < |runs| ==> runs[k].planned == Later(runs[k - 1].planned, s.interval))
    decreases end - from
  {
    hide Later;
    LaterIsLater(from, s.interval);
    if from < end {
      PlannedRunsExact(s, Later(from, s.interval), end);
    }
  }

  /** The length in seconds of an interval that is not counted in months. */
  function SecondsOf(i: Interval): int
    requires !i.unit.Months?
  {
    i.amount * UnitSeconds(i.unit)
  }

  function UnitSeconds(unit: Unit): int
    requires !unit.Months?
  {
    match unit
    case Minutes => 60
    case Hours => 60 * 60
    case Days => 24 * 60 * 60
    case Weeks => 7 * 24 * 60 * 60
  }

  lemma LaterSeconds(t: int, i: Interval)
    requires !i.unit.Months?
    ensures Later(t, i) == t + SecondsOf(i)
  {}

  /** Without months, run k is planned k intervals after the first. */
  lemma {:induction false} RunSeconds(s: Setting, from: int, end: int, k: nat)
    requires !s.interval.unit.Months? && k < |PlannedRuns(s, from, end)|
    ensures PlannedRuns(s, from, end)[k] == Item(s, from + k * SecondsOf(s.interval))
  {
    hide PlannedRuns, SecondsOf, Later;
    var runs := PlannedRuns(s, from, end);
    PlannedRunsExact(s, from, end);
    if k > 0 {
      RunSeconds(s, from, end, k - 1);
      LaterSeconds(runs[k - 1].planned, s.interval);
      Distribute(k - 1, SecondsOf(s.interval));
    }
  }

  /** ... and the number of runs is (end - from) / interval rounded up. */
  lemma PlannedRunsSeconds(s: Setting, from: int, end: int)
    requires !s.interval.unit.Months?
    ensures var runs, d := PlannedRuns(s, from, end), SecondsOf(s.interval);
            && (if from < end then from + (|runs| - 1) * d < end <= from + |runs| * d else runs == [])
            && forall k :: 0 <= k < |runs| ==> runs[k] == Item(s, from + k * d)
  {
    hide PlannedRuns, SecondsOf, Later;
    var runs, d := PlannedRuns(s, from, end), SecondsOf(s.interval);
    PlannedRunsExact(s, from, end);
    forall k | 0 <= k < |runs| ensures runs[k] == Item(s, from + k * d) {
      RunSeconds(s, from, end, k);
    }
    if runs != [] {
      LaterSeconds(runs[|runs| - 1].planned, s.interval);
      Distribute(|runs| - 1, d);
    }
  }

  /** t lies n calendar months after the month of from, at the same time of the day, and on no later
      day of the month. */
  ghost predicate MonthsAfter(from: int, t: int, n: int) {
    && Calendar.MonthOf(Calendar.DayOf(t)) == Calendar.MonthOf(Calendar.DayOf(from)) + n
    && t % 86400 == from % 86400 && Calendar.DayOfMonth(t) <= Calendar.DayOfMonth(from)
  }

  /** With months, run k is planned in the calendar month that lies k intervals after that of the
      first, at the same time of the day; the day of the month never grows. */
  lemma PlannedRunsMonths(s: Setting, from: int, end: int)
    requires s.interval.unit.Months?
    ensures var runs := PlannedRuns(s, from, end);
            forall k :: 0 <= k < |runs| ==> MonthsAfter(from, runs[k].planned, k * s.interval.amount)
  {
    hide PlannedRuns, Calendar.MonthOf, Calendar.DayOf, Calendar.DayOfMonth, Calendar.AddMonths;
    PlannedRunsExact(s, from, end);
    var runs, n := PlannedRuns(s, from, end), s.interval.amount;
    var k := 0;
    while k < |runs|
      invariant k <= |runs| && forall j :: 0 <= j < k ==> MonthsAfter(from, runs[j].planned, j * n)
    {
      if k > 0 {
        assert MonthsAfter(from, runs[k - 1].planned, (k - 1) * n);
        Calendar.AddMonthsExact(runs[k - 1].planned, n);
        Distribute(k - 1, n);
      }
      k := k + 1;
    }
  }

  lemma Distribute(k: int, interval: int)
    ensures interval + k * interval == (k + 1) * interval
    ensures (k + 1 - 1) * interval == k * interval
  {}

  lemma {:induction false} PlannedBounds(s: Setting, from: int, end: int)
    ensures forall x :: x in PlannedRuns(s, from, end) ==> x.setting == s && from <= x.planned < end
    decreases end - from
  {
    LaterIsLater(from, s.interval);
    if from < end {
      PlannedBounds(s, Later(from, s.interval), end);
    }
  }

  lemma {:induction false} NaiveBounds(db: Database, n: nat, start: int, end: int)
    requires Valid(db) && n <= |db.settings|
    ensures forall x :: x in NaiveRuns(db, n, start, end) ==> start <= x.planned < end
  {
    if n > 0 {
      NaiveBounds(db, n - 1, start, end);
      PlannedBounds(db.settings[n - 1], FirstDate(db, db.settings[n - 1], start), end);
    }
  }

  // ----- when a setting may run -----

  /** After a success the whole interval has passed at t, after a failure a tenth of it; a run_now
      setting and one without history may always run. */
  ghost predicate MayRun(db: Database, s: Setting, t: int) {
    (s.device, s.source) in db.history && !s.runNow ==>
      var last := db.history[(s.device, s.source)];
      && (last.success ==> Later(last.date, s.interval) <= t)
      && (!last.success ==> Later(last.date, Tenth(s.interval)) <= t)
  }

  /** The planned runs of a setting: the first is at the earliest time from start on at which it may
      run, if that is before the end; then it is repeated after each interval. */
  ghost predicate RunsOf(db: Database, s: Setting, start: int, end: int, runs: seq<Item>) {
    && (forall t :: start <= t < end && MayRun(db, s, t) ==> runs != [] && runs[0].planned <= t)
    && (runs != [] ==> start <= runs[0].planned < end && MayRun(db, s, runs[0].planned))
    && (forall k :: 0 <= k < |runs| ==> runs[k].setting == s && runs[k].planned < end)
    && (forall k :: 0 < k < |runs| ==> runs[k].planned == Later(runs[k - 1].planned, s.interval))
    && (runs != [] ==> end <= Later(runs[|runs| - 1].planned, s.interval))
  }

  lemma FirstDateExact(db: Database, s: Setting, start: int, t: int)
    ensures start <= t && MayRun(db, s, t) <==> FirstDate(db, s, start) <= t
  {
    hide Later, Tenth;
  }

  /** Planning setting by setting: what setting i adds are its runs. */
  lemma NaiveRunsOf(db: Database, i: nat, start: int, end: int)
    requires Valid(db) && i < |db.settings|
    ensures var before, after := NaiveRuns(db, i, start, end), NaiveRuns(db, i + 1, start, end);
            before <= after && RunsOf(db, db.settings[i], start, end, after[|before|..])
  {
    var s := db.settings[i];
    var from := FirstDate(db, s, start);
    var runs := PlannedRuns(s, from, end);
    PlannedRunsExact(s, from, end);
    forall t ensures start <= t && MayRun(db, s, t) <==> from <= t { FirstDateExact(db, s, start, t); }
    assert NaiveRuns(db, i + 1, start, end)[|NaiveRuns(db, i, start, end)|..] == runs;
    hide PlannedRuns, FirstDate, MayRun, Later;
  }

  /** No run is planned too early. */
  lemma {:induction false} NaiveMayRun(db: Database, n: nat, start: int, end: int)
    requires Valid(db) && n <= |db.settings|
    ensures forall x :: x in NaiveRuns(db, n, start, end) ==> MayRun(db, x.setting, x.planned)
  {
    if n > 0 {
      NaiveMayRun(db, n - 1, start, end);
      var s := db.settings[n - 1];
      var from := FirstDate(db, s, start);
      PlannedBounds(s, from, end);
      forall x | x in PlannedRuns(s, from, end) ensures MayRun(db, x.setting, x.planned) {
        FirstDateExact(db, s, start, x.planned);
      }
      hide PlannedRuns, FirstDate, MayRun, Later;
    }
  }

  // ----- what comes first -----

  /** x is the first run of its setting, and the setting is to run now. */
  ghost predicate FirstOfNow(items: seq<Item>, x: Item) {
    x.setting.runNow && exists i :: 0 <= i < |items| && items[i] == x &&
                                    forall j :: 0 <= j < i ==> items[j].setting != x.setting
  }

  lemma {:induction false} NowPartExact(items: seq<Item>)
    ensures forall x :: x in NowPart(items) <==> FirstOfNow(items, x)
    ensures forall i, j :: 0 <= i < j < |NowPart(items)| ==> NowPart(items)[i].setting != NowPart(items)[j].setting
  {
    if items != [] {
      var before, x := items[..|items| - 1], items[|items| - 1];
      NowPartExact(before);
      forall y ensures FirstOfNow(items, y) <==> FirstOfNow(before, y) || (y == x && GoesFirst(before, x)) {
        FirstOfNowSnoc(before, x, y);
      }
      assert items == before + [x];
      forall y | y in NowPart(before) && GoesFirst(before, x) ensures y.setting != x.setting {
        assert FirstOfNow(before, y);
      }
      hide FirstOfNow, GoesFirst;
    }
  }

  lemma FirstOfNowSnoc(before: seq<Item>, x: Item, y: Item)
    ensures FirstOfNow(before + [x], y) <==> FirstOfNow(before, y) || (y == x && GoesFirst(before, x))
  {
    var items := before + [x];
    if FirstOfNow(before, y) {
      var i :| 0 <= i < |before| && before[i] == y && forall j :: 0 <= j < i ==> before[j].setting != y.setting;
      assert items[i] == y;
    }
    if y == x && GoesFirst(before, x) {
      forall j | 0 <= j < |before| ensures before[j].setting != x.setting { assert before[j] in before; }
      assert items[|before|] == x;
    }
    if FirstOfNow(items, y) {
      var i :| 0 <= i < |items| && items[i] == y && forall j :: 0 <= j < i ==> items[j].setting != y.setting;
      if i < |before| {
        assert before[i] == y && forall j :: 0 <= j < i ==> before[j] == items[j];
      } else {
        forall z | z in before ensures z.setting != y.setting {
          var j :| 0 <= j < |before| && before[j] == z;
          assert items[j] == z;
        }
      }
    }
  }

  /** By date, then by device. */
  ghost predicate Chronological(items: seq<Item>) {
    forall i, j :: 0 <= i < j < |items| ==>
                     items[i].planned < items[j].planned ||
                     (items[i].planned == items[j].planned && items[i].setting.device <= items[j].setting.device)
  }

  /** The presorted list begins with the first run of every run_now setting, one for each, and all
      other runs follow; both parts are in order. */
  lemma RunNowFirst(items: seq<Item>)
    ensures var p, n := Presorted(items), |NowPart(items)|;
            && n <= |p| && (forall x :: x in p[..n] <==> FirstOfNow(items, x))
            && (forall i, j :: 0 <= i < j < n ==> p[i].setting != p[j].setting)
            && Chronological(p[..n]) && Chronological(p[n..])
  {
    var now, reg, key := NowPart(items), RegularPart(items), PlanKey();
    var a, b := StableSort(now, key), StableSort(reg, key);
    NowPartExact(items);
    SortFacts(now, key);
    SortFacts(reg, key);
    SortOrder(a);
    SortOrder(b);
    assert |a| == |multiset(a)| == |multiset(now)| == |now|;
    assert Presorted(items)[..|now|] == a && Presorted(items)[|now|..] == b;
    SameSettings(now, a);
  }

  lemma SortOrder(s: seq<Item>)
    requires SortedBy(s, PlanKey())
    ensures Chronological(s)
  {
    forall i, j | 0 <= i < j < |s|
      ensures s[i].planned < s[j].planned ||
              (s[i].planned == s[j].planned && s[i].setting.device <= s[j].setting.device)
    {
      assert KeyLeq(PlanKey()(s[i]), PlanKey()(s[j]));
    }
  }

  /** Rearranging keeps the settings different. */
  lemma SameSettings(a: seq<Item>, b: seq<Item>)
    requires multiset(a) == multiset(b)
    requires forall i, j :: 0 <= i < j < |a| ==> a[i].setting != a[j].setting
    ensures forall i, j :: 0 <= i < j < |b| ==> b[i].setting != b[j].setting
  {
    forall i, j | 0 <= i < j < |b| ensures b[i].setting != b[j].setting {
      if b[i].setting == b[j].setting {
        assert b[i] in multiset(a) && b[j] in multiset(a);
        var k :| 0 <= k < |a| && a[k] == b[i];
        var l :| 0 <= l < |a| && a[l] == b[j];
        assert k == l;
        TwiceIn(b, i, j);
        OnceIn(a, k);
      }
    }
  }

  lemma TwiceIn(s: seq<Item>, i: nat, j: nat)
    requires i < j < |s| && s[i] == s[j]
    ensures multiset(s)[s[i]] >= 2
  {
    assert s == s[..j] + [s[j]] + s[j + 1..];
    assert s[..j][i] == s[i];
    assert s[i] in multiset(s[..j]);
  }

  lemma {:induction false} OnceIn(s: seq<Item>, k: nat)
    requires k < |s| && forall i, j :: 0 <= i < j < |s| ==> s[i].setting != s[j].setting
    ensures multiset(s)[s[k]] == 1
  {
    var before, after := s[..k], s[k + 1..];
    assert s == before + [s[k]] + after;
    assert s[k] !in before && s[k] !in after;
    assert multiset(s) == multiset(before) + multiset{s[k]} + multiset(after);
  }

  lemma {:induction false} PartsAreAll(items: seq<Item>)
    ensures multiset(NowPart(items)) + multiset(RegularPart(items)) == multiset(items)
    ensures forall x :: x in NowPart(items) || x in RegularPart(items) <==> x in items
  {
    if items != [] {
      PartsAreAll(items[..|items| - 1]);
      assert items == items[..|items| - 1] + [items[|items| - 1]];
    }
  }

  /** Presorting loses and invents nothing. */
  lemma PresortPermutes(items: seq<Item>)
    ensures multiset(Presorted(items)) == multiset(items)
    ensures forall x :: x in Presorted(items) <==> x in items
  {
    PartsAreAll(items);
    SortFacts(NowPart(items), PlanKey());
    SortFacts(RegularPart(items), PlanKey());
  }

  // ----- a shorter horizon plans a prefix -----

  function PlannedBefore(end: int): Item -> bool {
    (x: Item) => x.planned < end
  }

  lemma {:induction false} PlannedHorizon(s: Setting, from: int, end1: int, end2: int)
    requires end1 <= end2
    ensures Filter(PlannedRuns(s, from, end2), PlannedBefore(end1)) == PlannedRuns(s, from, end1)
    decreases end2 - from
  {
    hide Filter;
    if from >= end1 {
      PlannedBounds(s, from, end2);
      FilterNone(PlannedRuns(s, from, end2), PlannedBefore(end1));
    } else {
      LaterIsLater(from, s.interval);
      PlannedHorizon(s, Later(from, s.interval), end1, end2);
      FilterAppend([Item(s, from)], PlannedRuns(s, Later(from, s.interval), end2), PlannedBefore(end1));
      FilterAll([Item(s, from)], PlannedBefore(end1));
    }
  }

  lemma {:induction false} NaiveHorizon(db: Database, n: nat, start: int, end1: int, end2: int)
    requires Valid(db) && n <= |db.settings| && end1 <= end2
    ensures Filter(NaiveRuns(db, n, start, end2), PlannedBefore(end1)) == NaiveRuns(db, n, start, end1)
  {
    hide PlannedRuns;
    if n > 0 {
      var s := db.settings[n - 1];
      NaiveHorizon(db, n - 1, start, end1, end2);
      PlannedHorizon(s, FirstDate(db, s, start), end1, end2);
      FilterAppend(NaiveRuns(db, n - 1, start, end2), PlannedRuns(s, FirstDate(db, s, start), end2),
                   PlannedBefore(end1));
    }
  }

  lemma {:induction false} NowPartOfSetting(head: seq<Item>, tail: seq<Item>, s: Setting)
    requires forall x :: x in tail ==> x.setting == s
    ensures NowPart(head + tail) ==
            if tail != [] && GoesFirst(head, tail[0]) then NowPart(head) + [tail[0]] else NowPart(head)
  {
    if tail == [] {
      assert head + tail == head;
    } else {
      var t, x := tail[..|tail| - 1], tail[|tail| - 1];
      NowPartOfSetting(head, t, s);
      assert (head + tail)[..|head + tail| - 1] == head + t;
      assert x in tail;
      if t != [] {
        assert t[0] in tail && t[0] in head + t;
      } else {
        assert head + t == head;
      }
    }
  }

  /** A run_now setting starts at the beginning of the horizon. */
  lemma {:induction false} NowPartAtStart(db: Database, n: nat, start: int, end: int)
    requires Valid(db) && n <= |db.settings|
    ensures forall x :: x in NowPart(NaiveRuns(db, n, start, end)) ==> x.planned == start
  {
    if n > 0 {
      var s := db.settings[n - 1];
      NowPartAtStart(db, n - 1, start, end);
      PlannedBounds(s, FirstDate(db, s, start), end);
      NowPartOfSetting(NaiveRuns(db, n - 1, start, end), PlannedRuns(s, FirstDate(db, s, start), end), s);
    }
  }

  lemma {:induction false} SplitHorizon(items: seq<Item>, p: Item -> bool)
    requires forall x :: x in NowPart(items) ==> p(x)
    ensures NowSettings(Filter(items, p)) == NowSettings(items)
    ensures NowPart(Filter(items, p)) == NowPart(items)
    ensures RegularPart(Filter(items, p)) == Filter(RegularPart(items), p)
  {
    if items != [] {
      var before, x := items[..|items| - 1], items[|items| - 1];
      if GoesFirst(before, x) { assert x in NowPart(items); }
      forall y | y in NowPart(before) ensures p(y) { assert y in NowPart(items); }
      SplitHorizon(before, p);
      var f := Filter(before, p);
      assert items == before + [x];
      NowSettingsAppend(before, x);
      if p(x) {
        assert Filter(items, p) == f + [x] && (f + [x])[..|f|] == f;
        NowSettingsAppend(f, x);
      }
      if !GoesFirst(before, x) {
        FilterAppend(RegularPart(before), [x], p);
      }
    }
  }

  lemma NowSettingsAppend(items: seq<Item>, x: Item)
    ensures NowSettings(items + [x]) ==
            if x.setting.runNow then NowSettings(items) + {x.setting} else NowSettings(items)
  {
    assert forall y :: y in items + [x] <==> y in items || y == x;
  }

  /** The presorted list for a short horizon is a prefix of the one for a long horizon, and
      everything behind it is planned at or after the short horizon's end. */
  lemma PresortedHorizon(db: Database, start: int, end1: int, end2: int)
    requires Valid(db) && start <= end1 <= end2
    ensures var n := |db.settings|;
            var p1, p2 := Presorted(NaiveRuns(db, n, start, end1)), Presorted(NaiveRuns(db, n, start, end2));
            p1 <= p2 && forall x :: x in p2[|p1|..] ==> x.planned >= end1
  {
    var n := |db.settings|;
    var n2, p := NaiveRuns(db, n, start, end2), PlannedBefore(end1);
    NaiveHorizon(db, n, start, end1, end2);
    NaiveBounds(db, n, start, end2);
    if start == end1 {
      FilterNone(n2, p);
      PresortPermutes(n2);
    } else {
      NowPartAtStart(db, n, start, end2);
      SplitHorizon(n2, p);
      PresortedPrefix(n2, p);
    }
  }

  lemma PresortedPrefix(items: seq<Item>, p: Item -> bool)
    requires NowPart(Filter(items, p)) == NowPart(items)
    requires RegularPart(Filter(items, p)) == Filter(RegularPart(items), p)
    requires forall x, y :: KeyLeq(PlanKey()(x), PlanKey()(y)) && p(y) ==> p(x)
    ensures var p1, p2 := Presorted(Filter(items, p)), Presorted(items);
            p1 <= p2 && forall x :: x in p2[|p1|..] ==> !p(x)
  {
    var key, now, reg := PlanKey(), NowPart(items), RegularPart(items);
    SortedSelectionIsPrefix(reg, key, p);
    var s1, s2 := StableSort(Filter(reg, p), key), StableSort(reg, key);
    assert Presorted(items)[|now| + |s1|..] == s2[|s1|..];
  }
}
