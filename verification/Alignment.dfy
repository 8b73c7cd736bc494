/** Asset-scan dispatcher: aligning a start time to the calendar baseline of a setting.
    A time is a number of whole UTC seconds since 1970-01-01, a Thursday. */
module Alignment {

  datatype Baseline = Second | Minute | Hour | Day | Week

  datatype DispatcherSetting = DispatcherSetting(idx: nat, baseline: Baseline, mult: int,
                                                 second: int, minute: int, hour: int, day: int)

  /** What saving a setting validates: the fields below its baseline, and the multiplier. */
  predicate InRange(ds: DispatcherSetting) {
    && 1 <= ds.mult <= 365
    && (ds.baseline.Second? || 0 <= ds.second < 60)
    && (ds.baseline.Second? || ds.baseline.Minute? || 0 <= ds.minute < 60)
    && (ds.baseline.Day? || ds.baseline.Week? ==> 0 <= ds.hour < 24)
    && (ds.baseline.Week? ==> 0 <= ds.day < 7)
  }

  function SecondOf(t: int): int { t % 60 }
  function MinuteOf(t: int): int { t / 60 % 60 }
  function HourOf(t: int): int { t / 3600 % 24 }
  /** As Python's weekday(): Monday is 0. */
  function WeekdayOf(t: int): int { (t / 86400 + 3) % 7 }

  /** Every field requested by the setting is right at t. */
  predicate Aligned(ds: DispatcherSetting, t: int) {
    && (ds.baseline.Second? || SecondOf(t) == ds.second)
    && (ds.baseline.Second? || ds.baseline.Minute? || MinuteOf(t) == ds.minute)
    && (ds.baseline.Day? || ds.baseline.Week? ==> HourOf(t) == ds.hour)
    && (ds.baseline.Week? ==> WeekdayOf(t) == ds.day)
  }

  /** Steps from field value a up to the next b, at least one, in a cycle of n values. */
  function Steps(a: int, b: int, n: int): int { if a < b then b - a else b - a + n }

  // Where the four loops stop.
  function NextSecond(now: int, s: int): int { now + Steps(SecondOf(now), s, 60) }
  function NextMinute(now: int, m: int): int { now + 60 * Steps(MinuteOf(now), m, 60) }
  function NextHour(now: int, h: int): int { now + 3600 * Steps(HourOf(now), h, 24) }
  function NextDay(now: int, d: int): int {
    if WeekdayOf(now) == d then now else now + 86400 * Steps(WeekdayOf(now), d, 7)
  }

  function AlignedTime(now: int, ds: DispatcherSetting): int {
    match ds.baseline
    case Second => now
    case Minute => NextSecond(now, ds.second)
    case Hour => NextMinute(NextSecond(now, ds.second), ds.minute)
    case Day => NextHour(NextMinute(NextSecond(now, ds.second), ds.minute), ds.hour)
    case Week => NextDay(NextHour(NextMinute(NextSecond(now, ds.second), ds.minute), ds.hour), ds.day)
  }

  // ----- what a step of each loop does to the fields -----

  lemma AddMinutes(t: int, k: int)
    ensures SecondOf(t + 60 * k) == SecondOf(t)
    ensures MinuteOf(t + 60 * k) == (MinuteOf(t) + k) % 60
  {
    assert (t + 60 * k) / 60 == t / 60 + k;
  }

  lemma AddHours(t: int, k: int)
    ensures SecondOf(t + 3600 * k) == SecondOf(t) && MinuteOf(t + 3600 * k) == MinuteOf(t)
    ensures HourOf(t + 3600 * k) == (HourOf(t) + k) % 24
  {
    AddMinutes(t, 60 * k);
    MinuteRange(t);
    assert (t + 3600 * k) / 3600 == t / 3600 + k;
    hide SecondOf, MinuteOf;
  }

  lemma AddDays(t: int, k: int)
    ensures SecondOf(t + 86400 * k) == SecondOf(t) && MinuteOf(t + 86400 * k) == MinuteOf(t)
    ensures HourOf(t + 86400 * k) == HourOf(t)
    ensures WeekdayOf(t + 86400 * k) == (WeekdayOf(t) + k) % 7
  {
    hide SecondOf, MinuteOf, HourOf;
    HourRange(t);
    AddHours(t, 24 * k);
    assert (t + 86400 * k) / 86400 == t / 86400 + k;
  }

  // ----- the code -----

  method AlignSecond(now: int, second: int) returns (r: int)
    requires 0 <= second < 60
    ensures r == NextSecond(now, second)
    ensures SecondOf(r) == second && now < r <= now + 60
  {
    r := now;
    while true
      invariant now <= r < NextSecond(now, second)
      decreases now + 60 - r
    {
      r := r + 1;
      if SecondOf(r) == second {
        break;
      }
    }
  }

  method AlignMinute(now: int, minute: int) returns (r: int)
    requires 0 <= minute < 60
    ensures r == NextMinute(now, minute)
    ensures MinuteOf(r) == minute && SecondOf(r) == SecondOf(now) && now < r <= now + 3600
  {
    hide SecondOf, MinuteOf;
    MinuteRange(now);
    r := now;
    ghost var k := 0;
    while true
      invariant r == now + 60 * k && 0 <= k < Steps(MinuteOf(now), minute, 60)
      decreases 60 - k
    {
      r, k := r + 60, k + 1;
      AddMinutes(now, k);
      if MinuteOf(r) == minute {
        break;
      }
    }
  }

  method AlignHour(now: int, hour: int) returns (r: int)
    requires 0 <= hour < 24
    ensures r == NextHour(now, hour)
    ensures HourOf(r) == hour && SecondOf(r) == SecondOf(now) && MinuteOf(r) == MinuteOf(now)
    ensures now < r <= now + 86400
  {
    hide SecondOf, MinuteOf, HourOf;
    HourRange(now);
    r := now;
    ghost var k := 0;
    while true
      invariant r == now + 3600 * k && 0 <= k < Steps(HourOf(now), hour, 24)
      decreases 24 - k
    {
      r, k := r + 3600, k + 1;
      AddHours(now, k);
      if HourOf(r) == hour {
        break;
      }
    }
  }

  method AlignDay(now: int, day: int) returns (r: int)
    requires 0 <= day < 7
    ensures r == NextDay(now, day)
    ensures WeekdayOf(r) == day && now <= r <= now + 6 * 86400
    ensures SecondOf(r) == SecondOf(now) && MinuteOf(r) == MinuteOf(now) && HourOf(r) == HourOf(now)
  {
    hide SecondOf, MinuteOf, HourOf, WeekdayOf;
    WeekdayRange(now);
    r := now;
    ghost var k := 0;
    while true
      invariant r == now + 86400 * k && 0 <= k
      invariant if WeekdayOf(now) == day then k == 0 else k <= Steps(WeekdayOf(now), day, 7)
      decreases 7 - k
    {
      AddDays(now, k);
      if WeekdayOf(r) == day {
        break;
      }
      r, k := r + 86400, k + 1;
    }
  }

  lemma MinuteRange(t: int) ensures 0 <= MinuteOf(t) < 60 {}
  lemma HourRange(t: int) ensures 0 <= HourOf(t) < 24 {}
  lemma WeekdayRange(t: int) ensures 0 <= WeekdayOf(t) < 7 {}

  method AlignTimeToBaseline(now: int, ds: DispatcherSetting) returns (r: int)
    requires InRange(ds)
    ensures r == AlignedTime(now, ds)
  {
    r := now;
    if ds.baseline.Minute? {
      r := AlignSecond(r, ds.second);
    } else if ds.baseline.Hour? {
      r := AlignSecond(r, ds.second);
      r := AlignMinute(r, ds.minute);
    } else if ds.baseline.Day? {
      r := AlignSecond(r, ds.second);
      r := AlignMinute(r, ds.minute);
      r := AlignHour(r, ds.hour);
    } else if ds.baseline.Week? {
      r := AlignSecond(r, ds.second);
      r := AlignMinute(r, ds.minute);
      r := AlignHour(r, ds.hour);
      r := AlignDay(r, ds.day);
    }
  }

  /** Distance between two runs. */
  function TimeInc(ds: DispatcherSetting): int {
    match ds.baseline
    case Second => ds.mult
    case Minute => 60 * ds.mult
    case Hour => 3600 * ds.mult
    case Day => 86400 * ds.mult
    case Week => 604800 * ds.mult
  }

  // ----- guarantees -----

  lemma NextSecondExact(now: int, s: int)
    requires 0 <= s < 60
    ensures var r := NextSecond(now, s); SecondOf(r) == s && now < r <= now + 60
  {}

  lemma NextMinuteExact(now: int, m: int)
    requires 0 <= m < 60
    ensures var r := NextMinute(now, m); MinuteOf(r) == m && SecondOf(r) == SecondOf(now) && now < r <= now + 3600
  {
    hide SecondOf, MinuteOf;
    MinuteRange(now);
    AddMinutes(now, Steps(MinuteOf(now), m, 60));
  }

  lemma NextHourExact(now: int, h: int)
    requires 0 <= h < 24
    ensures var r := NextHour(now, h);
            && HourOf(r) == h && SecondOf(r) == SecondOf(now) && MinuteOf(r) == MinuteOf(now)
            && now < r <= now + 86400
  {
    hide SecondOf, MinuteOf, HourOf;
    HourRange(now);
    AddHours(now, Steps(HourOf(now), h, 24));
  }

  lemma NextDayExact(now: int, d: int)
    requires 0 <= d < 7
    ensures var r := NextDay(now, d);
            && WeekdayOf(r) == d && SecondOf(r) == SecondOf(now) && MinuteOf(r) == MinuteOf(now)
            && HourOf(r) == HourOf(now) && now <= r <= now + 6 * 86400
  {
    hide SecondOf, MinuteOf, HourOf, WeekdayOf;
    WeekdayRange(now);
    AddDays(now, Steps(WeekdayOf(now), d, 7));
  }

  function MaxDelay(b: Baseline): int {
    match b
    case Second => 0
    case Minute => 60
    case Hour => 60 + 3600
    case Day => 60 + 3600 + 86400
    case Week => 60 + 3600 + 86400 + 6 * 86400
  }

  /** All fields are right at once, the result lies after now and is not too far away: each
      later loop keeps what the earlier ones reached. */
  lemma AlignmentExact(now: int, ds: DispatcherSetting)
    requires InRange(ds)
    ensures Aligned(ds, AlignedTime(now, ds))
    ensures AlignedTime(now, ds) <= now + MaxDelay(ds.baseline)
    ensures if ds.baseline.Second? then AlignedTime(now, ds) == now else now < AlignedTime(now, ds)
  {
    hide SecondOf, MinuteOf, HourOf, WeekdayOf, NextSecond, NextMinute, NextHour, NextDay;
    if !ds.baseline.Second? {
      NextSecondExact(now, ds.second);
      var t1 := NextSecond(now, ds.second);
      if !ds.baseline.Minute? {
        NextMinuteExact(t1, ds.minute);
        var t2 := NextMinute(t1, ds.minute);
        if !ds.baseline.Hour? {
          NextHourExact(t2, ds.hour);
          if ds.baseline.Week? {
            NextDayExact(NextHour(t2, ds.hour), ds.day);
          }
        }
      }
    }
  }

  /** A run one increment later is aligned again. */
  lemma IncrementKeepsAlignment(ds: DispatcherSetting, t: int)
    requires InRange(ds) && Aligned(ds, t)
    ensures Aligned(ds, t + TimeInc(ds)) && TimeInc(ds) > 0
  {
    hide MinuteOf, HourOf, WeekdayOf;
    MinuteRange(t);
    HourRange(t);
    WeekdayRange(t);
    var m := ds.mult;
    match ds.baseline
    case Second =>
    case Minute =>
    case Hour => AddHours(t, m);
    case Day => AddDays(t, m);
    case Week => AddDays(t, 7 * m);
  }

  /** The distance between neighbouring aligned times. */
  function Period(b: Baseline): int {
    match b
    case Second => 1
    case Minute => 60
    case Hour => 60 * 60
    case Day => 24 * 60 * 60
    case Week => 7 * 24 * 60 * 60
  }

  /** The aligned times are exactly those a number of periods away, and an increment is mult of them:
      every mult-th aligned time is taken. */
  lemma IncrementExact(ds: DispatcherSetting, t: int, u: int)
    requires InRange(ds) && Aligned(ds, t)
    ensures Aligned(ds, u) <==> (u - t) % Period(ds.baseline) == 0
    ensures TimeInc(ds) == ds.mult * Period(ds.baseline)
  {
    match ds.baseline
    case Second =>
    case Minute => SameMinute(t, u);
    case Hour => SameHour(t, u);
    case Day => SameDay(t, u);
    case Week => SameWeek(t, u);
  }

  lemma SameMinute(t: int, u: int)
    ensures (u - t) % 60 == 0 <==> SecondOf(t) == SecondOf(u)
  {}

  lemma SameHour(t: int, u: int)
    ensures (u - t) % 3600 == 0 <==> SecondOf(t) == SecondOf(u) && MinuteOf(t) == MinuteOf(u)
  {
    InHour(t);
    InHour(u);
    FieldRanges(t);
    FieldRanges(u);
    SameRest(t, u, 3600);
    HourParts(MinuteOf(t), SecondOf(t), MinuteOf(u), SecondOf(u));
    hide SecondOf, MinuteOf;
  }

  lemma HourParts(m1: int, s1: int, m2: int, s2: int)
    requires 0 <= s1 < 60 && 0 <= s2 < 60
    ensures 60 * m1 + s1 == 60 * m2 + s2 <==> m1 == m2 && s1 == s2
  {}

  /** Equal rests of a division by n. */
  lemma SameRest(t: int, u: int, n: int)
    requires n == 3600 || n == 86400
    ensures (u - t) % n == 0 <==> t % n == u % n
  {
    if n == 3600 {
      Rests(t, u, 3600, t / 3600, t % 3600, u / 3600, u % 3600, (u - t) / 3600, (u - t) % 3600);
    } else {
      Rests(t, u, 86400, t / 86400, t % 86400, u / 86400, u % 86400, (u - t) / 86400, (u - t) % 86400);
    }
  }

  lemma Rests(t: int, u: int, n: int, a: int, r: int, b: int, s: int, c: int, q: int)
    requires n > 0 && 0 <= r < n && 0 <= s < n && 0 <= q < n
    requires t == n * a + r && u == n * b + s && u - t == n * c + q
    ensures q == 0 <==> r == s
  {
    assert n * (b - a - c) == q - (s - r) by { Distribute(n, b, a, c); }
    var m := b - a - c;
    if m >= 2 { AtLeast(n, m, 2); } else if m <= -1 { AtLeast(n, -m, 1); }
  }

  lemma Distribute(n: int, b: int, a: int, c: int)
    ensures n * (b - a - c) == n * b - n * a - n * c
  {}

  lemma AtLeast(n: int, m: int, k: int)
    requires n > 0 && m >= k
    ensures n * m >= n * k
  {}

  lemma SameDay(t: int, u: int)
    ensures (u - t) % 86400 == 0 <==> SecondOf(t) == SecondOf(u) && MinuteOf(t) == MinuteOf(u) && HourOf(t) == HourOf(u)
  {
    SameHour(t, u);
    InDay(t);
    InDay(u);
    HourRange(t);
    HourRange(u);
    SameRest(t, u, 3600);
    SameRest(t, u, 86400);
    DayParts(t % 86400, HourOf(t), t % 3600, u % 86400, HourOf(u), u % 3600);
    hide SecondOf, MinuteOf, HourOf;
  }

  lemma DayParts(d1: int, h1: int, r1: int, d2: int, h2: int, r2: int)
    requires d1 == 3600 * h1 + r1 && d2 == 3600 * h2 + r2 && 0 <= r1 < 3600 && 0 <= r2 < 3600
    ensures d1 == d2 <==> h1 == h2 && r1 == r2
  {}

  lemma SameWeek(t: int, u: int)
    ensures (u - t) % 604800 == 0 <==>
            && SecondOf(t) == SecondOf(u) && MinuteOf(t) == MinuteOf(u) && HourOf(t) == HourOf(u)
            && WeekdayOf(t) == WeekdayOf(u)
  {
    SameDay(t, u);
    hide SecondOf, MinuteOf, HourOf;
    if (u - t) % 86400 == 0 {
      var k := (u - t) / 86400;
      assert u == t + 86400 * k;
      AddDays(t, k);
      WeekdayRange(t);
      hide WeekdayOf;
      WeekSteps(k, WeekdayOf(t));
    } else {
      assert (u - t) % 604800 != 0;
    }
  }

  lemma WeekSteps(k: int, w: int)
    requires 0 <= w < 7
    ensures (86400 * k) % 604800 == 0 <==> (w + k) % 7 == w
  {
    var d, m := k / 7, k % 7;
    var quo, rem := (86400 * k) / 604800, (86400 * k) % 604800;
    assert k == 7 * d + m && 86400 * k == 604800 * quo + rem;
    assert 604800 * (quo - d) == 86400 * m - rem;
    assert quo == d && rem == 86400 * m;
    var e, v := (w + k) / 7, (w + k) % 7;
    assert w + k == 7 * e + v && w + k == 7 * d + (w + m);
  }

  lemma FieldRanges(t: int)
    ensures 0 <= SecondOf(t) < 60 && 0 <= MinuteOf(t) < 60
  {}

  // ----- earliest or not -----

  lemma SecondEarliest(now: int, s: int, t: int)
    requires 0 <= s < 60 && t > now && SecondOf(t) == s
    ensures t >= NextSecond(now, s)
  {}

  lemma MinuteEarliest(u: int, m: int, t: int)
    requires 0 <= m < 60 && t > u && SecondOf(t) == SecondOf(u) && MinuteOf(t) == m
    ensures t >= NextMinute(u, m)
  {
    var k := t / 60 - u / 60;
    assert t == u + 60 * k;
    AddMinutes(u, k);
    MinuteRange(u);
    hide SecondOf, MinuteOf;
    assert (MinuteOf(u) + k) % 60 == m;
  }

  lemma HourEarliest(u: int, h: int, t: int)
    requires 0 <= h < 24 && t > u && SecondOf(t) == SecondOf(u) && MinuteOf(t) == MinuteOf(u) && HourOf(t) == h
    ensures t >= NextHour(u, h)
  {
    var k := t / 3600 - u / 3600;
    SameInHour(u, t);
    assert t == u + 3600 * k;
    AddHours(u, k);
    HourRange(u);
    hide SecondOf, MinuteOf, HourOf;
    assert (HourOf(u) + k) % 24 == h;
  }

  lemma InHour(t: int)
    ensures t % 3600 == 60 * MinuteOf(t) + SecondOf(t) && t / 3600 == t / 60 / 60
  {
    var q := t / 60;
    var rest := 60 * (q % 60) + t % 60;
    assert t == 3600 * (q / 60) + rest && 0 <= rest < 3600;
  }

  lemma SameInHour(u: int, t: int)
    requires SecondOf(t) == SecondOf(u) && MinuteOf(t) == MinuteOf(u)
    ensures t % 3600 == u % 3600
  {
    InHour(t);
    InHour(u);
    hide MinuteOf, SecondOf;
  }

  lemma InDay(t: int)
    ensures t % 86400 == 3600 * HourOf(t) + t % 3600
  {
    var q := t / 3600;
    var rest := 3600 * (q % 24) + t % 3600;
    assert t == 86400 * (q / 24) + rest && 0 <= rest < 86400;
  }

  lemma SameInDay(u: int, t: int)
    requires SecondOf(t) == SecondOf(u) && MinuteOf(t) == MinuteOf(u) && HourOf(t) == HourOf(u)
    ensures t % 86400 == u % 86400
  {
    SameInHour(u, t);
    InDay(t);
    InDay(u);
    hide HourOf, MinuteOf, SecondOf;
  }

  lemma DayEarliest(u: int, d: int, t: int)
    requires 0 <= d < 7 && t >= u && WeekdayOf(t) == d
    requires SecondOf(t) == SecondOf(u) && MinuteOf(t) == MinuteOf(u) && HourOf(t) == HourOf(u)
    ensures t >= NextDay(u, d)
  {
    var k := t / 86400 - u / 86400;
    SameInDay(u, t);
    assert t == u + 86400 * k;
    AddDays(u, k);
    WeekdayRange(u);
    hide SecondOf, MinuteOf, HourOf, WeekdayOf;
    assert (WeekdayOf(u) + k) % 7 == d;
  }

  /** A loop that steps before it looks goes past a time that is right already: the first such time
      with the right second (t1), or the second one with minute and second right (t2). */
  predicate Skips(now: int, ds: DispatcherSetting) {
    var t1 := NextSecond(now, ds.second);
    var t2 := NextMinute(t1, ds.minute);
    match ds.baseline
    case Second => false
    case Minute => false
    case Hour => MinuteOf(t1) == ds.minute
    case Day => HourOf(t2) == ds.hour || (MinuteOf(t1) == ds.minute && HourOf(t1) == ds.hour)
    case Week =>
      || (HourOf(t2) == ds.hour && WeekdayOf(t2) == ds.day)
      || (MinuteOf(t1) == ds.minute && HourOf(t1) == ds.hour && WeekdayOf(t1) == ds.day)
  }

  ghost predicate IsEarliest(now: int, ds: DispatcherSetting) {
    forall t :: now < t && Aligned(ds, t) ==> AlignedTime(now, ds) <= t
  }

  /** An aligned time between now and the result is one of the two that are gone past. */
  lemma MissedTime(now: int, ds: DispatcherSetting, t: int)
    requires InRange(ds) && now < t < AlignedTime(now, ds) && Aligned(ds, t)
    ensures Skips(now, ds)
  {
    hide SecondOf, MinuteOf, HourOf, WeekdayOf, NextSecond, NextMinute, NextHour, NextDay;
    SecondEarliest(now, ds.second, t);
    NextSecondExact(now, ds.second);
    var t1 := NextSecond(now, ds.second);
    if t1 < t && !ds.baseline.Minute? {
      MinuteEarliest(t1, ds.minute, t);
      NextMinuteExact(t1, ds.minute);
      var t2 := NextMinute(t1, ds.minute);
      if t2 < t && !ds.baseline.Hour? {
        HourEarliest(t2, ds.hour, t);
        NextHourExact(t2, ds.hour);
        if ds.baseline.Week? {
          DayEarliest(NextHour(t2, ds.hour), ds.day, t);
        }
      }
    }
  }

  /** The times that are gone past lie between now and the result. */
  lemma SkippedTime(now: int, ds: DispatcherSetting) returns (t: int)
    requires InRange(ds) && Skips(now, ds)
    ensures now < t < AlignedTime(now, ds) && Aligned(ds, t)
  {
    hide SecondOf, MinuteOf, HourOf, WeekdayOf, NextSecond, NextMinute, NextHour, NextDay;
    var t1 := NextSecond(now, ds.second);
    NextSecondExact(now, ds.second);
    NextMinuteExact(t1, ds.minute);
    var t2 := NextMinute(t1, ds.minute);
    if ds.baseline.Hour? {
      t := t1;
    } else {
      NextHourExact(t2, ds.hour);
      if ds.baseline.Week? { NextDayExact(NextHour(t2, ds.hour), ds.day); }
      t := if HourOf(t2) == ds.hour && (ds.baseline.Day? || WeekdayOf(t2) == ds.day) then t2 else t1;
    }
  }

  /** For every baseline: the result is the earliest aligned time after now exactly if no loop goes
      past one. */
  lemma EarliestExact(now: int, ds: DispatcherSetting)
    requires InRange(ds)
    ensures IsEarliest(now, ds) <==> !Skips(now, ds)
  {
    hide Aligned, AlignedTime, Skips;
    forall t | now < t && Aligned(ds, t) && t < AlignedTime(now, ds) ensures Skips(now, ds) {
      MissedTime(now, ds, t);
    }
    if Skips(now, ds) {
      var t := SkippedTime(now, ds);
    }
  }

  /** At 00:59:59 an hourly run at second 0 of minute 0 is due in one second; the result is one hour
      later. */
  lemma HourSkipped()
    ensures var ds := DispatcherSetting(0, Hour, 1, 0, 0, 0, 0);
            InRange(ds) && Aligned(ds, 3600) && AlignedTime(3599, ds) == 7200 && !IsEarliest(3599, ds)
  {
    var ds := DispatcherSetting(0, Hour, 1, 0, 0, 0, 0);
    assert NextSecond(3599, 0) == 3600 && NextMinute(3600, 0) == 7200;
  }

  /** At 00:59:59 a daily run at 01:00:00 is due in one second; the result is on the next day. */
  lemma DaySkipped()
    ensures var ds := DispatcherSetting(0, Day, 1, 0, 0, 1, 0);
            InRange(ds) && Aligned(ds, 3600) && AlignedTime(3599, ds) == 90000 && !IsEarliest(3599, ds)
  {
    var ds := DispatcherSetting(0, Day, 1, 0, 0, 1, 0);
    assert NextSecond(3599, 0) == 3600 && NextMinute(3600, 0) == 7200 && NextHour(7200, 1) == 90000;
  }
}
