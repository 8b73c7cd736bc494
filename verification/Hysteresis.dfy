/** Sensor thresholds: a value that rises above the upper bound or falls below the lower bound
    triggers an event, and not again before the other bound was crossed. */
module Hysteresis {

  datatype Bounds = Bounds(lower: real, upper: real)

  datatype Sample = Sample(time: real, value: real)

  datatype Kind = Upper | Lower

  /** What happened: an event, or the flags were reset. */
  datatype Mark = Event(kind: Kind) | Reset

  datatype Threshold = Threshold(bounds: Bounds, values: seq<Sample>, upper: bool, lower: bool, log: seq<Mark>)

  const MAX_DIFF_TIME := 1200.0
  const VALUES_TO_STORE: nat := 20

  function Start(b: Bounds): Threshold { Threshold(b, [], false, false, []) }

  predicate TooOld(values: seq<Sample>, time: real) {
    values != [] &&
    var d := values[|values| - 1].time - time;
    d > MAX_DIFF_TIME || -d > MAX_DIFF_TIME
  }

  function ResetFlags(t: Threshold): Threshold {
    t.(upper := false, lower := false, log := t.log + [Reset])
  }

  function Trigger(t: Threshold, kind: Kind): Threshold {
    t.(upper := t.upper || kind.Upper?, lower := t.lower || kind.Lower?, log := t.log + [Event(kind)])
  }

  function Last<T>(s: seq<T>, n: nat): seq<T> {
    if |s| <= n then s else s[|s| - n..]
  }

  function Remember(t: Threshold, time: real, value: real): Threshold {
    if TooOld(t.values, time) then ResetFlags(t).(values := [Sample(time, value)])
    else t.(values := t.values + [Sample(time, value)])
  }

  function ClearOther(t: Threshold, value: real): Threshold {
    if value < t.bounds.lower then t.(upper := false)
    else if value > t.bounds.upper then t.(lower := false)
    else t
  }

  function Decide(t: Threshold, value: real): Threshold {
    if |t.values| <= 1 then t
    else
      var prev := t.values[|t.values| - 2].value;
      if prev <= t.bounds.upper && value > t.bounds.upper && !t.upper then Trigger(t, Upper)
      else if prev >= t.bounds.lower && value < t.bounds.lower && !t.lower then Trigger(t, Lower)
      else t
  }

  /** One measurement; keep is the number of values that are stored. */
  function Feed(t: Threshold, time: real, value: real, keep: nat): Threshold {
    var u := Decide(ClearOther(Remember(t, time, value), value), value);
    u.(values := Last(u.values, keep))
  }

  function Update(t: Threshold, b: Bounds): Threshold {
    if t.bounds == b then t else ResetFlags(t.(bounds := b))
  }

  datatype Input = Value(time: real, value: real) | NewBounds(bounds: Bounds) | Manual(kind: Kind)

  function Step(t: Threshold, i: Input, keep: nat): Threshold {
    match i
    case Value(time, value) => Feed(t, time, value, keep)
    case NewBounds(b) => Update(t, b)
    case Manual(kind) => Trigger(t, kind)
  }

  /** What saving a threshold does to its bounds, so that the sensor never reads others. */
  function Saved(b: Bounds): Bounds {
    if b.lower <= b.upper then b else Bounds(b.upper, b.lower)
  }

  /** The inputs as they arrive: new bounds are read from a saved row. */
  function Read(i: Input): Input {
    if i.NewBounds? then NewBounds(Saved(i.bounds)) else i
  }

  function ReadAll(ins: seq<Input>): seq<Input> { seq(|ins|, k requires 0 <= k < |ins| => Read(ins[k])) }

  function Run(t: Threshold, ins: seq<Input>, keep: nat): Threshold {
    if ins == [] then t else Step(Run(t, ins[..|ins| - 1], keep), ins[|ins| - 1], keep)
  }

  // ----- the code -----

  class Sensor {
    var bounds: Bounds
    var cycle: nat
    var values: seq<Sample>
    var upperTriggered: bool
    var lowerTriggered: bool
    ghost var log: seq<Mark>

    ghost function View(): Threshold
      reads this
    {
      Threshold(bounds, values, upperTriggered, lowerTriggered, log)
    }

    constructor (b: Bounds)
      ensures View() == Start(b) && cycle == 0
    {
      bounds, cycle, values := b, 0, [];
      upperTriggered, lowerTriggered, log := false, false, [];
    }

    method ClearFlags()
      modifies this`upperTriggered, this`lowerTriggered, this`log
      ensures View() == ResetFlags(old(View()))
    {
      upperTriggered, lowerTriggered := false, false;
      log := log + [Reset];
    }

    method TriggerEvent(kind: Kind)
      modifies this`upperTriggered, this`lowerTriggered, this`log
      ensures View() == Trigger(old(View()), kind)
    {
      if kind.Upper? { upperTriggered := true; } else { lowerTriggered := true; }
      log := log + [Event(kind)];
    }

    method UpdateBounds(b: Bounds)
      modifies this
      ensures View() == Update(old(View()), b) && cycle == old(cycle)
    {
      var reset := bounds != b;
      bounds := b;
      if reset {
        ClearFlags();
      }
    }

    method FeedValue(value: real, now: real)
      modifies this
      ensures View() == Feed(old(View()), now, value, VALUES_TO_STORE) && cycle == old(cycle) + 1
    {
      cycle := cycle + 1;
      if values == [] {
        values := [Sample(now, value)];
      } else if TooOld(values, now) {
        ClearFlags();
        values := [Sample(now, value)];
      } else {
        values := values + [Sample(now, value)];
      }
      if value < bounds.lower {
        upperTriggered := false;
      } else if value > bounds.upper {
        lowerTriggered := false;
      }
      if |values| > 1 {
        var prev := values[|values| - 2].value;
        if prev <= bounds.upper && value > bounds.upper && !upperTriggered {
          TriggerEvent(Upper);
        } else if prev >= bounds.lower && value < bounds.lower && !lowerTriggered {
          TriggerEvent(Lower);
        }
      }
      values := Last(values, VALUES_TO_STORE);
    }
  }

  // ----- alternation -----

  /** Two events without a reset in between are of different kinds. */
  ghost predicate Alternating(log: seq<Mark>) {
    forall i :: 0 <= i < |log| - 1 && log[i].Event? && log[i + 1].Event? ==> log[i].kind != log[i + 1].kind
  }

  predicate LastIs(log: seq<Mark>, m: Mark) {
    log != [] && log[|log| - 1] == m
  }

  ghost predicate Inv(t: Threshold) {
    && t.bounds.lower <= t.bounds.upper
    && Alternating(t.log)
    && (t.upper <==> LastIs(t.log, Event(Upper)))
    && (t.lower <==> LastIs(t.log, Event(Lower)))
    && (t.upper ==> t.values != [] && t.values[|t.values| - 1].value >= t.bounds.lower)
    && (t.lower ==> t.values != [] && t.values[|t.values| - 1].value <= t.bounds.upper)
  }

  ghost predicate Automatic(ins: seq<Input>) {
    forall i :: i in ins ==> match i
                            case Value(_, _) => true
                            case NewBounds(b) => b.lower <= b.upper
                            case Manual(_) => false
  }

  /** After the new value is stored: the invariant, with the previous value as the latest. */
  ghost predicate Stored(t: Threshold, value: real) {
    && t.bounds.lower <= t.bounds.upper && Alternating(t.log)
    && (t.upper <==> LastIs(t.log, Event(Upper)))
    && (t.lower <==> LastIs(t.log, Event(Lower)))
    && t.values != [] && t.values[|t.values| - 1].value == value
    && (t.upper ==> |t.values| > 1 && t.values[|t.values| - 2].value >= t.bounds.lower)
    && (t.lower ==> |t.values| > 1 && t.values[|t.values| - 2].value <= t.bounds.upper)
  }

  lemma RememberStored(t: Threshold, time: real, value: real)
    requires Inv(t)
    ensures Stored(Remember(t, time, value), value)
  {}

  lemma DecideInv(t: Threshold, value: real)
    requires Stored(t, value)
    ensures Inv(Decide(ClearOther(t, value), value))
    ensures Decide(ClearOther(t, value), value).values == t.values
  {}

  lemma FeedInv(t: Threshold, time: real, value: real, keep: nat)
    requires Inv(t) && keep >= 1
    ensures Inv(Feed(t, time, value, keep))
  {
    hide Remember, Decide, ClearOther;
    RememberStored(t, time, value);
    DecideInv(Remember(t, time, value), value);
    hide Alternating, LastIs;
  }

  lemma {:induction false} OrderedAlternation(b: Bounds, ins: seq<Input>, keep: nat)
    requires b.lower <= b.upper && Automatic(ins) && keep >= 1
    ensures Inv(Run(Start(b), ins, keep))
  {
    if ins != [] {
      var init, i := ins[..|ins| - 1], ins[|ins| - 1];
      assert i in ins && forall x :: x in init ==> x in ins;
      OrderedAlternation(b, init, keep);
      var t := Run(Start(b), init, keep);
      match i
      case Value(time, value) => FeedInv(t, time, value, keep);
      case NewBounds(_) =>
    }
  }

  /** Over every sequence of values, whatever the times, the bounds and their changes: events alternate,
      each flag tells the kind of the last event since the last reset, and so the two flags are
      never both set. */
  lemma Alternation(b: Bounds, ins: seq<Input>, keep: nat)
    requires (forall i :: i in ins ==> !i.Manual?) && keep >= 1
    ensures Inv(Run(Start(Saved(b)), ReadAll(ins), keep))
  {
    forall x | x in ReadAll(ins) ensures !x.Manual? && (x.NewBounds? ==> x.bounds.lower <= x.bounds.upper) {
      var k :| 0 <= k < |ins| && ReadAll(ins)[k] == x;
      assert ins[k] in ins;
    }
    OrderedAlternation(Saved(b), ReadAll(ins), keep);
  }

  /** When an event happens, without the flags: a bound is crossed, seen from the previous value,
      and the last event since the last reset was not of that kind. */
  function Expected(t: Threshold, value: real): seq<Mark> {
    if t.values == [] then []
    else
      var prev := t.values[|t.values| - 1].value;
      if prev <= t.bounds.upper < value && !LastIs(t.log, Event(Upper)) then [Event(Upper)]
      else if prev >= t.bounds.lower > value && !LastIs(t.log, Event(Lower)) then [Event(Lower)]
      else []
  }

  lemma FiresExactly(t: Threshold, time: real, value: real, keep: nat)
    requires Inv(t) && keep >= 1
    ensures var last := if t.values == [] then time else t.values[|t.values| - 1].time;
            Feed(t, time, value, keep).log ==
            t.log + if time - last > 1200.0 || last - time > 1200.0 then [Reset] else Expected(t, value)
  {
    hide Decide, ClearOther, Expected;
    RememberStored(t, time, value);
    DecideLog(t, Remember(t, time, value), value);
  }

  lemma DecideLog(t: Threshold, u: Threshold, value: real)
    requires Stored(u, value)
    requires |u.values| > 1 ==> t.values != [] && u.values == t.values + [u.values[|u.values| - 1]] &&
                                t.bounds == u.bounds && t.log == u.log
    ensures Decide(ClearOther(u, value), value).log == if |u.values| > 1 then u.log + Expected(t, value) else u.log
    ensures t.values == [] ==> Expected(t, value) == []
  {}

  /** Values that rise and fall between bounds in the wrong order. */
  function Crossed(b: Bounds): seq<Input> {
    var mid := (b.lower + b.upper) / 2.0;
    [Value(0.0, b.upper)] + [Value(0.0, mid)] + [Value(0.0, b.upper)] + [Value(0.0, mid)]
  }

  lemma RunSnoc(t: Threshold, ins: seq<Input>, i: Input, keep: nat)
    ensures Run(t, ins + [i], keep) == Step(Run(t, ins, keep), i, keep)
  {
    assert (ins + [i])[..|ins|] == ins;
  }

  /** The latest value is v, just measured. */
  ghost predicate At(t: Threshold, b: Bounds, v: real) {
    t.bounds == b && t.values != [] && t.values[|t.values| - 1] == Sample(0.0, v)
  }

  lemma CrossedFirst(b: Bounds)
    ensures var t := Feed(Start(b), 0.0, b.upper, VALUES_TO_STORE); t.log == [] && At(t, b, b.upper)
  {}

  lemma CrossedUp(t: Threshold, b: Bounds)
    requires b.lower > b.upper && At(t, b, b.upper)
    ensures var mid := (b.lower + b.upper) / 2.0;
            var u := Feed(t, 0.0, mid, VALUES_TO_STORE);
            u.log == t.log + [Event(Upper)] && At(u, b, mid)
  {}

  lemma CrossedDown(t: Threshold, b: Bounds)
    requires b.lower > b.upper && At(t, b, (b.lower + b.upper) / 2.0)
    ensures var u := Feed(t, 0.0, b.upper, VALUES_TO_STORE);
            u.log == t.log && At(u, b, b.upper)
  {}

  lemma CrossedRepeats(b: Bounds)
    requires b.lower > b.upper
    ensures Run(Start(b), Crossed(b), VALUES_TO_STORE).log == [Event(Upper), Event(Upper)]
  {
    hide Feed, Run, At;
    var k, mid := VALUES_TO_STORE, (b.lower + b.upper) / 2.0;
    var low, high := Value(0.0, b.upper), Value(0.0, mid);
    var t1 := Feed(Start(b), 0.0, b.upper, k);
    CrossedFirst(b);
    var t2 := Feed(t1, 0.0, mid, k);
    var t3 := Feed(t2, 0.0, b.upper, k);
    CrossedUp(t1, b);
    CrossedDown(t2, b);
    CrossedUp(t3, b);
    RunSnoc(Start(b), [low] + [high] + [low], high, k);
    RunSnoc(Start(b), [low] + [high], low, k);
    RunSnoc(Start(b), [low], high, k);
    RunOne(Start(b), low, k);
  }

  lemma RunOne(t: Threshold, i: Input, keep: nat)
    ensures Run(t, [i], keep) == Step(t, i, keep)
  {
    assert [i][..0] == [];
  }

  ghost predicate OnlyValues(ins: seq<Input>) {
    forall i :: i in ins ==> i.Value?
  }

  /** Why saving orders the bounds: with the bounds as they are, values alone always lead to
      alternating events exactly if they are in order. */
  lemma AlternationExact(b: Bounds)
    ensures (forall ins :: OnlyValues(ins) ==> Alternating(Run(Start(b), ins, VALUES_TO_STORE).log))
            <==> b.lower <= b.upper
  {
    if b.lower <= b.upper {
      forall ins | OnlyValues(ins) ensures Alternating(Run(Start(b), ins, VALUES_TO_STORE).log) {
        OrderedAlternation(b, ins, VALUES_TO_STORE);
      }
    } else {
      hide Run, Start, Crossed, Alternating, OnlyValues;
      CrossedFails(b);
    }
  }

  lemma CrossedFails(b: Bounds)
    requires b.lower > b.upper
    ensures OnlyValues(Crossed(b)) && !Alternating(Run(Start(b), Crossed(b), VALUES_TO_STORE).log)
  {
    hide Run;
    CrossedRepeats(b);
    var log := Run(Start(b), Crossed(b), VALUES_TO_STORE).log;
    assert log[0] == log[1];
  }

  // ----- both flags -----

  predicate Both(t: Threshold) { t.upper && t.lower }

  /** A manual trigger of the kind whose opposite has its flag set. */
  predicate OppositeTrigger(t: Threshold, i: Input) {
    i.Manual? && if i.kind.Upper? then t.lower else t.upper
  }

  /** Both flags stay set: nothing but manual triggers, unchanged bounds and fresh values in range. */
  predicate StayBoth(t: Threshold, i: Input) {
    match i
    case Value(time, value) => !TooOld(t.values, time) && t.bounds.lower <= value <= t.bounds.upper
    case NewBounds(b) => b == t.bounds
    case Manual(_) => true
  }

  /** With bounds in order, both flags are set after a step exactly if a manual trigger met the
      opposite flag, or both were set and the step keeps them. */
  lemma BothAfterStep(t: Threshold, i: Input, keep: nat)
    requires t.bounds.lower <= t.bounds.upper
    ensures Both(Step(t, i, keep)) <==> if Both(t) then StayBoth(t, i) else OppositeTrigger(t, i)
  {
    if i.Value? {
      var u := Remember(t, i.time, i.value);
      assert u.upper == (t.upper && !TooOld(t.values, i.time)) && u.lower == (t.lower && !TooOld(t.values, i.time));
      hide Remember;
    }
  }

  ghost predicate InOrder(b: Bounds, ins: seq<Input>) {
    b.lower <= b.upper && forall i :: i in ins && i.NewBounds? ==> i.bounds.lower <= i.bounds.upper
  }

  lemma {:induction false} BoundsInOrder(b: Bounds, ins: seq<Input>, keep: nat)
    requires InOrder(b, ins)
    ensures Run(Start(b), ins, keep).bounds.lower <= Run(Start(b), ins, keep).bounds.upper
  {
    if ins != [] {
      var init, i := ins[..|ins| - 1], ins[|ins| - 1];
      assert i in ins && forall x :: x in init ==> x in ins;
      BoundsInOrder(b, init, keep);
      StepBounds(Run(Start(b), init, keep), i, keep);
      hide Step;
    }
  }

  lemma StepBounds(t: Threshold, i: Input, keep: nat)
    ensures Step(t, i, keep).bounds == if i.NewBounds? then i.bounds else t.bounds
  {
    hide TooOld, Last;
  }

  /** Some input is a manual trigger that meets the opposite flag. */
  ghost predicate MeetsOpposite(b: Bounds, ins: seq<Input>, keep: nat) {
    exists j :: 0 <= j < |ins| && OppositeTrigger(Run(Start(b), ins[..j], keep), ins[j])
  }

  lemma {:induction false} BothNeedsOpposite(b: Bounds, ins: seq<Input>, keep: nat)
    requires InOrder(b, ins) && Both(Run(Start(b), ins, keep))
    ensures MeetsOpposite(b, ins, keep)
  {
    hide Step;
    if ins != [] {
      var init, i := ins[..|ins| - 1], ins[|ins| - 1];
      assert forall x :: x in init ==> x in ins;
      BoundsInOrder(b, init, keep);
      BothAfterStep(Run(Start(b), init, keep), i, keep);
      if Both(Run(Start(b), init, keep)) {
        BothNeedsOpposite(b, init, keep);
        var j :| 0 <= j < |init| && OppositeTrigger(Run(Start(b), init[..j], keep), init[j]);
        assert ins[..j] == init[..j] && ins[j] == init[j];
      } else {
        assert OppositeTrigger(Run(Start(b), ins[..|ins| - 1], keep), ins[|ins| - 1]);
      }
    }
  }

  lemma NeverBothOrdered(b: Bounds, ins: seq<Input>, keep: nat)
    requires InOrder(b, ins)
    ensures (forall n :: 0 <= n <= |ins| ==> !Both(Run(Start(b), ins[..n], keep))) <==> !MeetsOpposite(b, ins, keep)
  {
    hide Run, Both, OppositeTrigger, InOrder;
    forall n | 0 <= n <= |ins| && Both(Run(Start(b), ins[..n], keep)) ensures MeetsOpposite(b, ins, keep) {
      BothBefore(b, ins, n, keep);
    }
    if j :| 0 <= j < |ins| && OppositeTrigger(Run(Start(b), ins[..j], keep), ins[j]) {
      TriggerSetsBoth(Start(b), ins, j, keep);
    }
  }

  /** Over every run, whatever the bounds and their changes, the two flags are never both set exactly
      if no manual trigger ever meets the flag of the opposite kind. */
  lemma NeverBothExact(b: Bounds, ins: seq<Input>, keep: nat)
    ensures var rs := ReadAll(ins);
            (forall n :: 0 <= n <= |rs| ==> !Both(Run(Start(Saved(b)), rs[..n], keep))) <==>
            !MeetsOpposite(Saved(b), rs, keep)
  {
    var rs := ReadAll(ins);
    forall x | x in rs && x.NewBounds? ensures x.bounds.lower <= x.bounds.upper {
      var k :| 0 <= k < |ins| && rs[k] == x;
    }
    assert InOrder(Saved(b), rs);
    hide Run, Both, MeetsOpposite, InOrder;
    NeverBothOrdered(Saved(b), rs, keep);
  }

  lemma BothBefore(b: Bounds, ins: seq<Input>, n: nat, keep: nat)
    requires InOrder(b, ins) && n <= |ins| && Both(Run(Start(b), ins[..n], keep))
    ensures MeetsOpposite(b, ins, keep)
  {
    hide Run, Both, OppositeTrigger;
    assert forall x :: x in ins[..n] ==> x in ins;
    BothNeedsOpposite(b, ins[..n], keep);
    var j :| 0 <= j < n && OppositeTrigger(Run(Start(b), ins[..n][..j], keep), ins[..n][j]);
    assert ins[..n][..j] == ins[..j] && ins[..n][j] == ins[j];
  }

  lemma TriggerSetsBoth(t: Threshold, ins: seq<Input>, j: nat, keep: nat)
    requires j < |ins| && OppositeTrigger(Run(t, ins[..j], keep), ins[j])
    ensures Both(Run(t, ins[..j + 1], keep))
  {
    hide Run;
    assert ins[..j + 1] == ins[..j] + [ins[j]];
    RunSnoc(t, ins[..j], ins[j], keep);
  }

  /** With crossed bounds values alone set both flags. */
  lemma CrossedSetsBoth()
    ensures var b := Bounds(10.0, 0.0);
            var ins := [Value(0.0, 15.0)] + [Value(0.0, 5.0)] + [Value(0.0, -5.0)] + [Value(0.0, 5.0)];
            Both(Run(Start(b), ins, VALUES_TO_STORE))
  {
    hide Run;
    var b, k := Bounds(10.0, 0.0), VALUES_TO_STORE;
    var v1, v2, v3, v4 := Value(0.0, 15.0), Value(0.0, 5.0), Value(0.0, -5.0), Value(0.0, 5.0);
    RunOne(Start(b), v1, k);
    RunSnoc(Start(b), [v1], v2, k);
    RunSnoc(Start(b), [v1] + [v2], v3, k);
    RunSnoc(Start(b), [v1] + [v2] + [v3], v4, k);
    var t1 := Feed(Start(b), 0.0, 15.0, k);
    assert At(t1, b, 15.0) && !t1.lower;
    hide Feed;
    var t2 := Feed(t1, 0.0, 5.0, k);
    CrossedStep(t1, b, 15.0, 5.0);
    var t3 := Feed(t2, 0.0, -5.0, k);
    CrossedStep(t2, b, 5.0, -5.0);
    CrossedStep(t3, b, -5.0, 5.0);
  }

  /** A value between crossed bounds or below them. */
  lemma CrossedStep(t: Threshold, b: Bounds, prev: real, value: real)
    requires b == Bounds(10.0, 0.0) && At(t, b, prev) && value < 10.0
    ensures var u := Feed(t, 0.0, value, VALUES_TO_STORE);
            At(u, b, value) && u.lower == (t.lower || (prev >= 10.0 && !(prev <= 0.0 < value)))
            && u.upper == (prev <= 0.0 < value)
  {}

  /** Two manual triggers, one of each kind, set both flags. */
  lemma ManualSetsBoth(b: Bounds)
    ensures Both(Run(Start(b), [Manual(Upper), Manual(Lower)], VALUES_TO_STORE))
  {
    var ins := [Manual(Upper), Manual(Lower)];
    assert ins[..1][..0] == [] && Run(Start(b), ins[..1], VALUES_TO_STORE) == Trigger(Start(b), Upper);
  }

  // ----- the window -----

  /** Same decisions so far, and the same latest value. */
  ghost predicate Alike(s: Threshold, t: Threshold) {
    && s.(values := t.values) == t
    && (s.values == [] <==> t.values == [])
    && (s.values != [] ==> s.values[|s.values| - 1] == t.values[|t.values| - 1])
  }

  /** Alike, and the same latest two values. */
  ghost predicate AlikeTwo(s: Threshold, t: Threshold) {
    && s.(values := t.values) == t && s.values != [] && t.values != []
    && s.values[|s.values| - 1] == t.values[|t.values| - 1]
    && (|s.values| > 1 <==> |t.values| > 1)
    && (|s.values| > 1 ==> s.values[|s.values| - 2] == t.values[|t.values| - 2])
  }

  lemma RememberAlike(s: Threshold, t: Threshold, time: real, value: real)
    requires Alike(s, t)
    ensures AlikeTwo(Remember(s, time, value), Remember(t, time, value))
  {}

  lemma DecideAlike(s: Threshold, t: Threshold, value: real)
    requires AlikeTwo(s, t)
    ensures Alike(Decide(ClearOther(s, value), value), Decide(ClearOther(t, value), value))
  {}

  lemma LastAlike(s: Threshold, t: Threshold, k: nat, l: nat)
    requires Alike(s, t) && k >= 1 && l >= 1
    ensures Alike(s.(values := Last(s.values, k)), t.(values := Last(t.values, l)))
  {}

  lemma StepAlike(s: Threshold, t: Threshold, i: Input, k: nat, l: nat)
    requires Alike(s, t) && k >= 1 && l >= 1
    ensures Alike(Step(s, i, k), Step(t, i, l))
  {
    match i
    case Value(time, value) =>
      FeedAlike(s, t, time, value, k, l);
    case NewBounds(_) =>
    case Manual(_) =>
  }

  lemma FeedAlike(s: Threshold, t: Threshold, time: real, value: real, k: nat, l: nat)
    requires Alike(s, t) && k >= 1 && l >= 1
    ensures Alike(Feed(s, time, value, k), Feed(t, time, value, l))
  {
    hide Remember, Decide, ClearOther, Alike, AlikeTwo, Last;
    RememberAlike(s, t, time, value);
    var s', t' := Remember(s, time, value), Remember(t, time, value);
    DecideAlike(s', t', value);
    LastAlike(Decide(ClearOther(s', value), value), Decide(ClearOther(t', value), value), k, l);
  }

  /** The number of stored values never changes a decision. */
  lemma {:induction false} WindowIrrelevant(b: Bounds, ins: seq<Input>, k: nat, l: nat)
    requires k >= 1 && l >= 1
    ensures Alike(Run(Start(b), ins, k), Run(Start(b), ins, l))
  {
    if ins != [] {
      WindowIrrelevant(b, ins[..|ins| - 1], k, l);
      StepAlike(Run(Start(b), ins[..|ins| - 1], k), Run(Start(b), ins[..|ins| - 1], l), ins[|ins| - 1], k, l);
    }
  }
}
