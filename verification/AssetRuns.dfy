/** Asset-scan dispatcher: life cycle of the runs of a scan batch. The planned_runs lists of all
    batches are one table keyed by the database index of the run. */
module AssetRuns {
  import opened Enumeration
  import opened Options

  /** State diagram: (started, running) goes (false, false), (true, true); a run that stops
      leaves the table. */
  datatype RunState = RunState(batch: nat, zmq: bool, started: bool, running: bool, runIdx: nat)

  datatype Batch = Batch(device: nat, hasIp: bool, numRuns: nat, numRunning: int, toDelete: bool)

  datatype Outcome = ResultStored | Canceled

  datatype Finish = Finish(run: nat, outcome: Outcome)

  /** log and dropped are the history: how runs ended, which batches were removed. */
  datatype State = State(runs: map<nat, RunState>, batches: map<nat, Batch>,
                         conLut: map<nat, nat>, bgLut: map<nat, nat>, lastIdx: nat,
                         nextRun: nat, nextBatch: nat,
                         log: seq<Finish>, dropped: seq<nat>)

  function Init(): State { State(map[], map[], map[], map[], 0, 0, 0, [], []) }

  function PlannedOf(runs: map<nat, RunState>, b: nat): set<nat> {
    set r | r in runs && runs[r].batch == b
  }

  function RunningOf(runs: map<nat, RunState>, b: nat): set<nat> {
    set r | r in runs && runs[r].batch == b && runs[r].running
  }

  /** A host-monitoring scan has ten commands over 0MQ, an NRPE scan seven background commands. */
  function NumCommands(zmq: bool): nat { if zmq then 10 else 7 }

  datatype Event =
    | Add(device: nat, hasIp: bool, zmq: bool)
    | Start(run: nat)
    | Cancel(batch: nat, order: seq<nat>)
    | BgEnd(idx: nat, outcome: Outcome)
    | ConTimeout(idx: nat)
    | Reply(idx: nat)
    | Sweep

  /** n runs of batch b with the database indices from, from + 1, ... */
  function AddRuns(runs: map<nat, RunState>, b: nat, zmq: bool, from: nat, n: nat): map<nat, RunState> {
    if n == 0 then runs
    else AddRuns(runs, b, zmq, from, n - 1)[from + n - 1 := RunState(b, zmq, false, false, 0)]
  }

  lemma {:induction false} AddRunsExact(runs: map<nat, RunState>, b: nat, zmq: bool, from: nat, n: nat)
    ensures var t := AddRuns(runs, b, zmq, from, n);
            && (forall x :: x in t <==> x in runs || from <= x < from + n)
            && (forall x :: x in t ==>
                               t[x] == if from <= x < from + n then RunState(b, zmq, false, false, 0) else runs[x])
  {
    if n > 0 { AddRunsExact(runs, b, zmq, from, n - 1); }
  }

  function AddBatch(s: State, device: nat, hasIp: bool, zmq: bool): State {
    var n := NumCommands(zmq);
    s.(runs := AddRuns(s.runs, s.nextBatch, zmq, s.nextRun, n),
       batches := s.batches[s.nextBatch := Batch(device, hasIp, n, 0, false)],
       nextRun := s.nextRun + n,
       nextBatch := s.nextBatch + 1)
  }

  function StartRun(s: State, r: nat): State
    requires r in s.runs && s.runs[r].batch in s.batches
  {
    var run := s.runs[r];
    var b := s.batches[run.batch];
    var idx := s.lastIdx + 1;
    s.(lastIdx := idx,
       runs := s.runs[r := run.(started := true, running := true, runIdx := idx)],
       batches := s.batches[run.batch := b.(numRunning := b.numRunning + 1)],
       conLut := if run.zmq then s.conLut[idx := r] else s.conLut,
       bgLut := if run.zmq then s.bgLut else s.bgLut[idx := r])
  }

  /** The run stops and leaves its batch; the lookup tables are not touched. */
  function Stop(s: State, r: nat, how: Outcome): State
    requires r in s.runs && s.runs[r].batch in s.batches
  {
    var bi := s.runs[r].batch;
    var b := s.batches[bi];
    var n := b.numRunning - 1;
    var runs := s.runs - {r};
    s.(runs := runs,
       batches := s.batches[bi := b.(numRunning := n, toDelete := b.toDelete || (n == 0 && PlannedOf(runs, bi) == {}))],
       log := s.log + [Finish(r, how)])
  }

  function EndBg(s: State, k: nat, how: Outcome): State
    requires k in s.bgLut && s.bgLut[k] in s.runs && s.runs[s.bgLut[k]].batch in s.batches
  {
    Stop(s, s.bgLut[k], how).(bgLut := s.bgLut - {k})
  }

  function EndCon(s: State, k: nat, how: Outcome): State
    requires k in s.conLut && s.conLut[k] in s.runs && s.runs[s.conLut[k]].batch in s.batches
  {
    Stop(s, s.conLut[k], how).(conLut := s.conLut - {k})
  }

  /** order may be stopped one after the other: distinct runs of existing batches. */
  ghost predicate Stoppable(s: State, order: seq<nat>) {
    && (forall i :: 0 <= i < |order| ==> order[i] in s.runs && s.runs[order[i]].batch in s.batches)
    && (forall i, j :: 0 <= i < j < |order| ==> order[i] != order[j])
  }

  function StopAll(s: State, order: seq<nat>): (s': State)
    requires Stoppable(s, order)
    ensures s'.runs == s.runs - (set x | x in order)
    ensures s'.batches.Keys == s.batches.Keys
    decreases |order|
  {
    if order == [] then s
    else
      var before := StopAll(s, order[..|order| - 1]);
      assert order == order[..|order| - 1] + [order[|order| - 1]];
      assert forall x :: x in order <==> x in order[..|order| - 1] || x == order[|order| - 1];
      Stop(before, order[|order| - 1], Canceled)
  }

  function MarkDeleted(s: State, b: nat): State
    requires b in s.batches
  {
    s.(batches := s.batches[b := s.batches[b].(toDelete := true)])
  }

  function DropDeleted(s: State, gone: seq<nat>): State {
    s.(batches := s.batches - (set b | b in gone), dropped := s.dropped + gone)
  }

  function Deletable(s: State): set<nat> {
    set b | b in s.batches && s.batches[b].toDelete
  }

  function Ascending(elems: set<nat>, below: nat): (r: seq<nat>)
    ensures forall x :: x in r <==> x in elems && x < below
    ensures forall i, j :: 0 <= i < j < |r| ==> r[i] != r[j]
  {
    if below == 0 then []
    else
      var r := Ascending(elems, below - 1);
      if below - 1 in elems then
        assert forall i :: 0 <= i < |r| ==> r[i] in r;
        r + [below - 1]
      else r
  }

  function SweepAll(s: State): State { DropDeleted(s, Ascending(Deletable(s), s.nextBatch)) }

  ghost predicate Enabled(s: State, e: Event) {
    match e
    case Add(_, _, _) => true
    case Start(r) =>
      && r in s.runs && !s.runs[r].started
      && s.runs[r].batch in s.batches && s.batches[s.runs[r].batch].hasIp
    case Cancel(b, order) =>
      && b in s.batches && !s.batches[b].hasIp
      && Stoppable(s, order) && Lists(order, PlannedOf(s.runs, b))
    case BgEnd(k, _) => k in s.bgLut && s.bgLut[k] in s.runs && s.runs[s.bgLut[k]].batch in s.batches
    case ConTimeout(k) => k in s.conLut && s.conLut[k] in s.runs && s.runs[s.conLut[k]].batch in s.batches
    case Reply(k) => k in s.conLut ==> s.conLut[k] in s.runs && s.runs[s.conLut[k]].batch in s.batches
    case Sweep => true
  }

  function Step(s: State, e: Event): State
    requires Enabled(s, e)
  {
    match e
    case Add(device, hasIp, zmq) => AddBatch(s, device, hasIp, zmq)
    case Start(r) => StartRun(s, r)
    case Cancel(b, order) => MarkDeleted(StopAll(s, order), b)
    case BgEnd(k, how) => EndBg(s, k, how)
    case ConTimeout(k) => EndCon(s, k, Canceled)
    case Reply(k) => if k in s.conLut then EndCon(s, k, ResultStored) else s
    case Sweep => SweepAll(s)
  }

  /** Every event was possible when it happened. */
  ghost predicate Possible(es: seq<Event>)
    decreases |es|, 0
  {
    es == [] || (Possible(es[..|es| - 1]) && Enabled(After(es[..|es| - 1]), es[|es| - 1]))
  }

  /** The state after the events, from the initial state. */
  ghost function After(es: seq<Event>): State
    requires Possible(es)
    decreases |es|, 1
  {
    if es == [] then Init() else Step(After(es[..|es| - 1]), es[|es| - 1])
  }

  // ----- the invariant -----

  ghost predicate RunsOk(s: State) {
    forall r :: r in s.runs ==>
                  var run := s.runs[r];
                  && r < s.nextRun && run.batch in s.batches && run.started == run.running
                  && (run.running ==>
                        && s.batches[run.batch].hasIp
                        && (if run.zmq then run.runIdx in s.conLut && s.conLut[run.runIdx] == r
                            else run.runIdx in s.bgLut && s.bgLut[run.runIdx] == r))
  }

  /** The tables hold running runs only, under their own run index. */
  ghost predicate LutsOk(s: State) {
    && (forall k :: k in s.conLut ==>
                      k <= s.lastIdx && s.conLut[k] in s.runs &&
                      var run := s.runs[s.conLut[k]]; run.running && run.zmq && run.runIdx == k)
    && (forall k :: k in s.bgLut ==>
                      k <= s.lastIdx && s.bgLut[k] in s.runs &&
                      var run := s.runs[s.bgLut[k]]; run.running && !run.zmq && run.runIdx == k)
  }

  ghost predicate CountOk(s: State, b: nat)
    requires b in s.batches
  {
    s.batches[b].numRunning ==
    if s.batches[b].hasIp then |RunningOf(s.runs, b)| else |PlannedOf(s.runs, b)| - s.batches[b].numRuns
  }

  ghost predicate DeleteOk(s: State, b: nat)
    requires b in s.batches
  {
    s.batches[b].toDelete <==> PlannedOf(s.runs, b) == {}
  }

  /** Every run ever planned either is in the table or has ended exactly once. */
  ghost predicate LogOk(s: State) {
    && (forall r: nat :: r < s.nextRun <==> r in s.runs || exists i :: 0 <= i < |s.log| && s.log[i].run == r)
    && (forall i :: 0 <= i < |s.log| ==> s.log[i].run !in s.runs)
    && (forall i, j :: 0 <= i < j < |s.log| ==> s.log[i].run != s.log[j].run)
  }

  /** Every batch ever created either is known or was dropped exactly once. */
  ghost predicate DroppedOk(s: State) {
    && (forall b: nat :: b < s.nextBatch <==> b in s.batches || b in s.dropped)
    && (forall b :: b in s.dropped ==> b !in s.batches)
    && (forall i, j :: 0 <= i < j < |s.dropped| ==> s.dropped[i] != s.dropped[j])
  }

  /** Everything except the delete flag of the batches in open. */
  ghost predicate InvBut(s: State, open: set<nat>) {
    RunsOk(s) && LutsOk(s) && LogOk(s) && DroppedOk(s) && BatchesOk(s, open)
  }

  ghost predicate Inv(s: State) { InvBut(s, {}) }

  lemma CountsAfterStop(runs: map<nat, RunState>, r: nat)
    requires r in runs
    ensures forall b :: PlannedOf(runs - {r}, b) == PlannedOf(runs, b) - {r}
    ensures forall b :: RunningOf(runs - {r}, b) == RunningOf(runs, b) - {r}
    ensures var b := runs[r].batch; |PlannedOf(runs - {r}, b)| == |PlannedOf(runs, b)| - 1
    ensures var b := runs[r].batch; runs[r].running ==> |RunningOf(runs - {r}, b)| == |RunningOf(runs, b)| - 1
    ensures forall b :: b != runs[r].batch ==>
                          PlannedOf(runs - {r}, b) == PlannedOf(runs, b) &&
                          RunningOf(runs - {r}, b) == RunningOf(runs, b)
  {
    forall b
      ensures PlannedOf(runs - {r}, b) == PlannedOf(runs, b) - {r}
      ensures RunningOf(runs - {r}, b) == RunningOf(runs, b) - {r}
      ensures b != runs[r].batch ==>
                PlannedOf(runs - {r}, b) == PlannedOf(runs, b) && RunningOf(runs - {r}, b) == RunningOf(runs, b)
    {}
    assert r in PlannedOf(runs, runs[r].batch);
    assert runs[r].running ==> r in RunningOf(runs, runs[r].batch);
  }

  lemma LogAppend(s: State, r: nat, how: Outcome)
    requires LogOk(s) && r in s.runs && s.runs[r].batch in s.batches
    ensures LogOk(Stop(s, r, how))
  {
    var t := Stop(s, r, how);
    forall x: nat
      ensures x < t.nextRun <==> x in t.runs || exists i :: 0 <= i < |t.log| && t.log[i].run == x
    {
      if x in s.runs && x != r {
      } else if x == r {
        assert t.log[|s.log|].run == x;
      } else if exists i :: 0 <= i < |s.log| && s.log[i].run == x {
        var i :| 0 <= i < |s.log| && s.log[i].run == x;
        assert t.log[i].run == x;
      }
    }
  }

  ghost predicate BatchesOk(s: State, open: set<nat>) {
    forall b :: b in s.batches ==> CountOk(s, b) && (b in open || DeleteOk(s, b))
  }

  /** Stopping one run: a running one, or one of a batch without address that is being canceled. */
  lemma StopBatches(s: State, r: nat, how: Outcome, open: set<nat>)
    requires RunsOk(s) && BatchesOk(s, open) && r in s.runs
    requires var b := s.runs[r].batch;
             if b in open then !s.batches[b].hasIp else s.runs[r].running
    ensures BatchesOk(Stop(s, r, how), open)
  {
    var t := Stop(s, r, how);
    CountsAfterStop(s.runs, r);
    forall b | b in t.batches ensures CountOk(t, b) && (b in open || DeleteOk(t, b)) {
      if b == s.runs[r].batch {
        assert r in PlannedOf(s.runs, b);
        assert RunningOf(t.runs, b) <= PlannedOf(t.runs, b);
      }
    }
  }

  lemma EndConTables(s: State, k: nat, how: Outcome)
    requires RunsOk(s) && LutsOk(s) && k in s.conLut
    ensures RunsOk(EndCon(s, k, how)) && LutsOk(EndCon(s, k, how))
  {}

  lemma EndBgTables(s: State, k: nat, how: Outcome)
    requires RunsOk(s) && LutsOk(s) && k in s.bgLut
    ensures RunsOk(EndBg(s, k, how)) && LutsOk(EndBg(s, k, how))
  {}

  lemma EndConInv(s: State, k: nat, how: Outcome)
    requires Inv(s) && k in s.conLut
    ensures Inv(EndCon(s, k, how))
  {
    hide LogOk, BatchesOk;
    EndConTables(s, k, how);
    EndRest(s, s.conLut[k], how, EndCon(s, k, how), {});
  }

  lemma EndBgInv(s: State, k: nat, how: Outcome)
    requires Inv(s) && k in s.bgLut
    ensures Inv(EndBg(s, k, how))
  {
    hide LogOk, BatchesOk;
    EndBgTables(s, k, how);
    EndRest(s, s.bgLut[k], how, EndBg(s, k, how), {});
  }

  /** The parts of the invariant that do not mention the lookup tables. */
  lemma EndRest(s: State, r: nat, how: Outcome, t: State, open: set<nat>)
    requires RunsOk(s) && LogOk(s) && BatchesOk(s, open) && DroppedOk(s) && r in s.runs
    requires var b := s.runs[r].batch;
             if b in open then !s.batches[b].hasIp else s.runs[r].running
    requires t == Stop(s, r, how).(conLut := t.conLut, bgLut := t.bgLut)
    ensures LogOk(t) && BatchesOk(t, open) && DroppedOk(t)
  {
    LogAppend(s, r, how);
    StopBatches(s, r, how, open);
    var u := Stop(s, r, how);
    assert t.batches.Keys == s.batches.Keys;
    assert LogOk(t) by { assert t.log == u.log && t.runs == u.runs && t.nextRun == u.nextRun; }
    assert BatchesOk(t, open) by {
      assert t.batches == u.batches && t.runs == u.runs;
      assert forall b :: b in t.batches ==> CountOk(u, b) == CountOk(t, b) && DeleteOk(u, b) == DeleteOk(t, b);
    }
  }

  /** Canceling the runs of a batch without address one after the other. */
  lemma {:induction false} StopAllInv(s: State, order: seq<nat>, b: nat)
    requires InvBut(s, {b}) && Stoppable(s, order) && b in s.batches && !s.batches[b].hasIp
    requires forall r :: r in order ==> s.runs[r].batch == b
    ensures InvBut(StopAll(s, order), {b})
    ensures forall c :: c in s.batches && c != b ==> StopAll(s, order).batches[c] == s.batches[c]
    ensures StopAll(s, order).batches[b].hasIp == false
  {
    hide RunsOk, LutsOk, DroppedOk, LogOk, BatchesOk;
    if order != [] {
      var init, r := order[..|order| - 1], order[|order| - 1];
      assert order == init + [r];
      StopAllInv(s, init, b);
      var m := StopAll(s, init);
      assert r in m.runs && m.runs[r] == s.runs[r];
      StopUnstarted(m, r, b);
    }
  }

  lemma StopUnstarted(s: State, r: nat, b: nat)
    requires InvBut(s, {b}) && b in s.batches && !s.batches[b].hasIp && r in s.runs && s.runs[r].batch == b
    ensures InvBut(Stop(s, r, Canceled), {b})
  {
    hide LogOk, BatchesOk;
    EndRest(s, r, Canceled, Stop(s, r, Canceled), {b});
  }

  lemma CancelInv(s: State, b: nat, order: seq<nat>)
    requires Inv(s) && Enabled(s, Cancel(b, order))
    ensures Inv(Step(s, Cancel(b, order)))
    ensures PlannedOf(Step(s, Cancel(b, order)).runs, b) == {}
  {
    StopAllInv(s, order, b);
    var m := StopAll(s, order);
    assert PlannedOf(m.runs, b) == {};
    MarkInv(m, b);
  }

  lemma MarkInv(m: State, b: nat)
    requires InvBut(m, {b}) && b in m.batches && PlannedOf(m.runs, b) == {}
    ensures Inv(MarkDeleted(m, b))
  {
    var t := MarkDeleted(m, b);
    assert t.batches.Keys == m.batches.Keys;
    forall c | c in t.batches ensures CountOk(t, c) && DeleteOk(t, c) {
      assert CountOk(m, c);
    }
  }

  lemma AddTables(s: State, device: nat, hasIp: bool, zmq: bool)
    requires RunsOk(s) && LutsOk(s) && DroppedOk(s)
    ensures var t := AddBatch(s, device, hasIp, zmq); RunsOk(t) && LutsOk(t) && DroppedOk(t)
  {
    AddRunsExact(s.runs, s.nextBatch, zmq, s.nextRun, NumCommands(zmq));
    hide AddRuns;
  }

  lemma AddLog(s: State, device: nat, hasIp: bool, zmq: bool)
    requires LogOk(s)
    ensures LogOk(AddBatch(s, device, hasIp, zmq))
  {
    AddRunsExact(s.runs, s.nextBatch, zmq, s.nextRun, NumCommands(zmq));
    hide AddRuns;
    var t := AddBatch(s, device, hasIp, zmq);
    forall i | 0 <= i < |t.log| ensures t.log[i].run !in t.runs {
      assert s.log[i].run < s.nextRun;
    }
    forall x: nat ensures x < t.nextRun <==> x in t.runs || exists i :: 0 <= i < |t.log| && t.log[i].run == x {
      assert x in t.runs <==> x in s.runs || s.nextRun <= x < t.nextRun;
    }
  }

  lemma AddBatches(s: State, device: nat, hasIp: bool, zmq: bool)
    requires RunsOk(s) && DroppedOk(s) && BatchesOk(s, {})
    ensures BatchesOk(AddBatch(s, device, hasIp, zmq), {})
  {
    hide AddRuns, PlannedOf, RunningOf;
    var t := AddBatch(s, device, hasIp, zmq);
    forall b | b in t.batches ensures CountOk(t, b) && DeleteOk(t, b) {
      if b == s.nextBatch {
        AddedRuns(s.runs, b, zmq, s.nextRun, NumCommands(zmq));
      } else {
        assert CountOk(s, b) && DeleteOk(s, b);
        AddedElsewhere(s.runs, s.nextBatch, zmq, s.nextRun, NumCommands(zmq), b);
      }
    }
  }

  lemma AddedElsewhere(runs: map<nat, RunState>, b: nat, zmq: bool, from: nat, n: nat, other: nat)
    requires other != b && forall r :: r in runs ==> r < from
    ensures var t := AddRuns(runs, b, zmq, from, n);
            PlannedOf(t, other) == PlannedOf(runs, other) && RunningOf(t, other) == RunningOf(runs, other)
  {
    AddRunsExact(runs, b, zmq, from, n);
    hide AddRuns;
  }

  lemma AddInv(s: State, device: nat, hasIp: bool, zmq: bool)
    requires Inv(s)
    ensures Inv(AddBatch(s, device, hasIp, zmq))
  {
    hide RunsOk, LutsOk, DroppedOk, LogOk, BatchesOk, AddBatch;
    AddTables(s, device, hasIp, zmq);
    AddLog(s, device, hasIp, zmq);
    AddBatches(s, device, hasIp, zmq);
  }

  lemma PlannedOne(runs: map<nat, RunState>, b: nat, zmq: bool, r: nat)
    requires r !in runs
    ensures var t := runs[r := RunState(b, zmq, false, false, 0)];
            |PlannedOf(t, b)| == |PlannedOf(runs, b)| + 1 && RunningOf(t, b) == RunningOf(runs, b)
  {
    var t := runs[r := RunState(b, zmq, false, false, 0)];
    assert PlannedOf(t, b) == PlannedOf(runs, b) + {r};
  }

  lemma {:induction false} AddedRuns(runs: map<nat, RunState>, b: nat, zmq: bool, from: nat, n: nat)
    requires forall r :: r in runs ==> r < from && runs[r].batch != b
    ensures var t := AddRuns(runs, b, zmq, from, n);
            |PlannedOf(t, b)| == n && RunningOf(t, b) == {}
  {
    if n == 0 {
      assert PlannedOf(runs, b) == {} && RunningOf(runs, b) == {};
    } else {
      hide PlannedOf, RunningOf;
      AddedRuns(runs, b, zmq, from, n - 1);
      AddRunsExact(runs, b, zmq, from, n - 1);
      PlannedOne(AddRuns(runs, b, zmq, from, n - 1), b, zmq, from + n - 1);
    }
  }

  lemma StartTables(s: State, r: nat)
    requires RunsOk(s) && LutsOk(s) && Enabled(s, Start(r))
    ensures RunsOk(StartRun(s, r)) && LutsOk(StartRun(s, r))
  {}

  lemma CountsAfterStart(runs: map<nat, RunState>, r: nat, idx: nat)
    requires r in runs && !runs[r].running
    ensures var t := runs[r := runs[r].(started := true, running := true, runIdx := idx)];
            && (forall b :: PlannedOf(t, b) == PlannedOf(runs, b))
            && (forall b :: b != runs[r].batch ==> RunningOf(t, b) == RunningOf(runs, b))
            && |RunningOf(t, runs[r].batch)| == |RunningOf(runs, runs[r].batch)| + 1
  {
    var t := runs[r := runs[r].(started := true, running := true, runIdx := idx)];
    forall b
      ensures PlannedOf(t, b) == PlannedOf(runs, b)
      ensures b != runs[r].batch ==> RunningOf(t, b) == RunningOf(runs, b)
    {}
    assert RunningOf(t, runs[r].batch) == RunningOf(runs, runs[r].batch) + {r};
  }

  lemma StartBatches(s: State, r: nat)
    requires RunsOk(s) && BatchesOk(s, {}) && Enabled(s, Start(r))
    ensures BatchesOk(StartRun(s, r), {})
  {
    hide PlannedOf, RunningOf;
    var t := StartRun(s, r);
    CountsAfterStart(s.runs, r, s.lastIdx + 1);
    forall b | b in t.batches ensures CountOk(t, b) && DeleteOk(t, b) {
      assert CountOk(s, b) && DeleteOk(s, b);
    }
  }

  lemma StartHistory(s: State, r: nat)
    requires LogOk(s) && DroppedOk(s) && Enabled(s, Start(r))
    ensures LogOk(StartRun(s, r)) && DroppedOk(StartRun(s, r))
  {
    var t := StartRun(s, r);
    assert t.batches.Keys == s.batches.Keys && t.runs.Keys == s.runs.Keys;
    forall x: nat
      ensures x < t.nextRun <==> x in t.runs || exists i :: 0 <= i < |t.log| && t.log[i].run == x
    {
      assert x in t.runs.Keys <==> x in s.runs.Keys;
    }
  }

  lemma StartInv(s: State, r: nat)
    requires Inv(s) && Enabled(s, Start(r))
    ensures Inv(StartRun(s, r))
  {
    hide RunsOk, LutsOk, DroppedOk, LogOk, BatchesOk;
    StartTables(s, r);
    StartBatches(s, r);
    StartHistory(s, r);
  }

  /** The sweep drops exactly the batches without a run left. */
  lemma SweepInv(s: State)
    requires Inv(s)
    ensures Inv(SweepAll(s))
    ensures forall b :: b in s.batches ==>
                          (b in SweepAll(s).batches <==> PlannedOf(s.runs, b) != {}) &&
                          (b in SweepAll(s).dropped <==> PlannedOf(s.runs, b) == {})
  {
    var gone := Ascending(Deletable(s), s.nextBatch);
    var t := SweepAll(s);
    forall b | b in s.batches ensures b in gone <==> PlannedOf(s.runs, b) == {} {
      assert DeleteOk(s, b);
    }
    assert RunsOk(t) by {
      forall r | r in t.runs ensures t.runs[r].batch in t.batches {
        assert r in PlannedOf(s.runs, t.runs[r].batch);
      }
    }
    forall b | b in t.batches ensures CountOk(t, b) && DeleteOk(t, b) {
      assert CountOk(s, b) && DeleteOk(s, b);
    }
    assert DroppedOk(t) by {
      forall i, j | 0 <= i < j < |t.dropped| ensures t.dropped[i] != t.dropped[j] {
        if i < |s.dropped| <= j {
          assert t.dropped[i] in s.dropped && t.dropped[j] in gone;
        }
      }
    }
  }

  lemma StepInv(s: State, e: Event)
    requires Inv(s) && Enabled(s, e)
    ensures Inv(Step(s, e))
  {
    hide InvBut;
    match e
    case Add(device, hasIp, zmq) => AddInv(s, device, hasIp, zmq);
    case Start(r) => StartInv(s, r);
    case Cancel(b, order) => CancelInv(s, b, order);
    case BgEnd(k, how) => EndBgInv(s, k, how);
    case ConTimeout(k) => EndConInv(s, k, Canceled);
    case Reply(k) => if k in s.conLut { EndConInv(s, k, ResultStored); }
    case Sweep => SweepInv(s);
  }

  /** In every reachable state, whatever the interleaving of ticks, completions, timeouts and
      replies. */
  lemma {:induction false} Reachable(es: seq<Event>)
    requires Possible(es)
    ensures Inv(After(es))
  {
    hide InvBut, Step, Enabled;
    if es == [] {
      InitInv();
    } else {
      Reachable(es[..|es| - 1]);
      StepInv(After(es[..|es| - 1]), es[|es| - 1]);
    }
  }

  lemma InitInv()
    ensures Inv(Init())
  {}

  /** A run that was planned either still is in the table or has ended, and it ends once. */
  lemma EndsOnce(es: seq<Event>, r: nat)
    requires Possible(es) && r < After(es).nextRun
    ensures var s := After(es);
            if r in s.runs then forall i :: 0 <= i < |s.log| ==> s.log[i].run != r
            else exists i :: 0 <= i < |s.log| && s.log[i].run == r &&
                             forall j :: 0 <= j < |s.log| && s.log[j].run == r ==> j == i
  {
    Reachable(es);
    var s := After(es);
    LogHolds(s);
    hide *;
    LoggedOnce(s, r);
  }

  lemma LoggedOnce(s: State, r: nat)
    requires LogOk(s) && r < s.nextRun
    ensures if r in s.runs then forall i :: 0 <= i < |s.log| ==> s.log[i].run != r
            else exists i :: 0 <= i < |s.log| && s.log[i].run == r &&
                             forall j :: 0 <= j < |s.log| && s.log[j].run == r ==> j == i
  {
    if r !in s.runs {
      var i :| 0 <= i < |s.log| && s.log[i].run == r;
      forall j | 0 <= j < |s.log| && s.log[j].run == r ensures j == i {}
    }
  }

  lemma LogHolds(s: State)
    requires Inv(s)
    ensures LogOk(s)
  {
    hide LogOk, RunsOk, LutsOk, DroppedOk, BatchesOk;
  }

  /** A run is running exactly if one of the tables has it, under its own run index; the other
      table does not have it. */
  lemma InOneTable(es: seq<Event>, r: nat)
    requires Possible(es) && r in After(es).runs
    ensures var s := After(es);
            var run := s.runs[r];
            && (run.running <==>
                (exists k :: k in s.conLut && s.conLut[k] == r) || (exists k :: k in s.bgLut && s.bgLut[k] == r))
            && (forall k :: k in s.conLut && s.conLut[k] == r ==> k == run.runIdx && run.zmq)
            && (forall k :: k in s.bgLut && s.bgLut[k] == r ==> k == run.runIdx && !run.zmq)
  {
    Reachable(es);
    hide After, Possible, LogOk, DroppedOk, BatchesOk;
  }

  /** A dropped batch has no run left, and a known one without a run is marked for removal. */
  lemma DroppedWhenEmpty(es: seq<Event>, b: nat)
    requires Possible(es)
    ensures var s := After(es);
            && (b in s.dropped ==> PlannedOf(s.runs, b) == {})
            && (b in s.batches ==> (s.batches[b].toDelete <==> PlannedOf(s.runs, b) == {}))
  {
    Reachable(es);
    var s := After(es);
    hide After, Possible, LogOk, LutsOk;
    if b in s.batches { assert DeleteOk(s, b); }
  }

  /** num_running is the number of running runs exactly for batches with an address and for
      batches whose cancellation has not begun: canceling a run that never started counts down too. */
  lemma NumRunningExact(es: seq<Event>, b: nat)
    requires Possible(es) && b in After(es).batches
    ensures var s := After(es);
            s.batches[b].numRunning == |RunningOf(s.runs, b)|
            <==> s.batches[b].hasIp || |PlannedOf(s.runs, b)| == s.batches[b].numRuns
  {
    Reachable(es);
    var s := After(es);
    assert CountOk(s, b);
    if !s.batches[b].hasIp {
      assert RunningOf(s.runs, b) == {};
    }
  }

  lemma TenPlanned()
    ensures Possible([Add(0, false, true)])
    ensures var s := After([Add(0, false, true)]);
            && s.batches == map[0 := Batch(0, false, 10, 0, false)]
            && (forall r :: r in s.runs <==> 0 <= r < 10)
            && (forall r :: r in s.runs ==> s.runs[r].batch == 0)
  {
    var es := [Add(0, false, true)];
    assert es[..0] == [] && Possible([]) && After([]) == Init();
    AddRunsExact(map[], 0, true, 0, 10);
    hide AddRuns;
    assert After(es) == AddBatch(Init(), 0, false, true);
  }

  /** A device without address: ten runs are planned and canceled, and num_running is -10 with no
      run running. */
  lemma CountsBelowZero()
    ensures var es := [Add(0, false, true), Cancel(0, [0, 1, 2, 3, 4, 5, 6, 7, 8, 9])];
            && Possible(es) && 0 in After(es).batches
            && After(es).batches[0].numRunning == -10 && RunningOf(After(es).runs, 0) == {}
  {
    var order: seq<nat> := [0, 1, 2, 3, 4, 5, 6, 7, 8, 9];
    var before := [Add(0, false, true)];
    TenPlanned();
    Reachable(before);
    TenCancelable(After(before), order);
    hide After, Possible, InvBut, StopAll, Enabled, Step;
    CancelCount(After(before), order);
    PossibleOne(before, Cancel(0, order));
    assert before + [Cancel(0, order)] == [Add(0, false, true), Cancel(0, order)];
  }

  lemma TenCancelable(s: State, order: seq<nat>)
    requires order == [0, 1, 2, 3, 4, 5, 6, 7, 8, 9] && 0 in s.batches && !s.batches[0].hasIp
    requires (forall r :: r in s.runs <==> 0 <= r < 10) && forall r :: r in s.runs ==> s.runs[r].batch == 0
    ensures Enabled(s, Cancel(0, order))
  {
    forall i | 0 <= i < 10 ensures order[i] == i {}
    assert forall r :: r in order <==> 0 <= r < 10 by {
      forall r | 0 <= r < 10 ensures r in order { assert order[r] == r; }
    }
    forall r ensures r in order <==> r in PlannedOf(s.runs, 0) {}
  }

  lemma PossibleOne(es: seq<Event>, e: Event)
    requires Possible(es) && Enabled(After(es), e)
    ensures Possible(es + [e]) && After(es + [e]) == Step(After(es), e)
  {
    assert (es + [e])[..|es|] == es;
  }

  lemma CancelCount(s: State, order: seq<nat>)
    requires Inv(s) && 0 in s.batches && !s.batches[0].hasIp && Enabled(s, Cancel(0, order))
    ensures var t := Step(s, Cancel(0, order));
            0 in t.batches && t.batches[0].numRunning == 0 - s.batches[0].numRuns && RunningOf(t.runs, 0) == {}
  {
    CancelInv(s, 0, order);
    CancelEffect(s, 0, order);
    StopAllOthers(s, order, 0);
    var t := Step(s, Cancel(0, order));
    assert 0 in t.batches.Keys;
    assert CountOk(t, 0);
    assert RunningOf(t.runs, 0) <= PlannedOf(t.runs, 0);
  }

  lemma NextBatch(s: State, e: Event)
    requires Enabled(s, e)
    ensures Step(s, e).nextBatch == s.nextBatch + if e.Add? then 1 else 0
  {
    if e.Cancel? { StopAllKeepsNext(s, e.order); }
  }

  lemma {:induction false} StopAllKeepsNext(s: State, order: seq<nat>)
    requires Stoppable(s, order)
    ensures StopAll(s, order).nextBatch == s.nextBatch
    decreases |order|
  {
    if order != [] {
      assert order == order[..|order| - 1] + [order[|order| - 1]];
      StopAllKeepsNext(s, order[..|order| - 1]);
    }
  }

  /** Once a run index has left the table of 0MQ connections it never comes back, so every late
      or repeated reply and every late timeout for it is ignored. */
  lemma {:induction false} LateReplyIgnored(es: seq<Event>, later: seq<Event>, k: nat)
    requires Possible(es) && Possible(es + later)
    requires k <= After(es).lastIdx && k !in After(es).conLut
    ensures k <= After(es + later).lastIdx && k !in After(es + later).conLut
    ensures Step(After(es + later), Reply(k)) == After(es + later)
  {
    hide Step, Enabled;
    if later == [] {
      assert es + later == es;
      StepRetired(After(es), Reply(k), k);
    } else {
      assert (es + later)[..|es + later| - 1] == es + later[..|later| - 1];
      LateReplyIgnored(es, later[..|later| - 1], k);
      StepRetired(After(es + later[..|later| - 1]), later[|later| - 1], k);
      StepRetired(After(es + later), Reply(k), k);
    }
  }

  lemma StepRetired(s: State, e: Event, k: nat)
    requires k <= s.lastIdx && k !in s.conLut && (Enabled(s, e) || e == Reply(k))
    ensures Enabled(s, e) && k <= Step(s, e).lastIdx && k !in Step(s, e).conLut
    ensures e == Reply(k) ==> Step(s, e) == s
  {
    if e.Cancel? {
      StopAllTables(s, e.order);
    }
  }

  lemma {:induction false} StopAllTables(s: State, order: seq<nat>)
    requires Stoppable(s, order)
    ensures StopAll(s, order).conLut == s.conLut && StopAll(s, order).lastIdx == s.lastIdx
    decreases |order|
  {
    if order != [] {
      StopAllTables(s, order[..|order| - 1]);
    }
  }

  // ----- how runs end -----

  /** Event e ends run r with this outcome: a command that completes or times out, a connection that
      times out, the reply on a connection that is waited for, the cancellation of its batch. */
  ghost predicate Ends(s: State, e: Event, r: nat, how: Outcome) {
    match e
    case BgEnd(k, o) => k in s.bgLut && s.bgLut[k] == r && how == o
    case ConTimeout(k) => k in s.conLut && s.conLut[k] == r && how.Canceled?
    case Reply(k) => k in s.conLut && s.conLut[k] == r && how.ResultStored?
    case Cancel(_, order) => r in order && how.Canceled?
    case Add(_, _, _) => false
    case Start(_) => false
    case Sweep => false
  }

  lemma {:induction false} StopAllLog(s: State, order: seq<nat>)
    requires Stoppable(s, order)
    ensures var t := StopAll(s, order);
            s.log <= t.log && forall f :: f in t.log <==> f in s.log || (f.run in order && f.outcome.Canceled?)
    decreases |order|
  {
    if order != [] {
      var init, r := order[..|order| - 1], order[|order| - 1];
      assert order == init + [r];
      StopAllLog(s, init);
      assert forall x :: x in order <==> x in init || x == r;
      StopEffect(StopAll(s, init), r, Canceled);
      hide Stop;
    }
  }

  lemma StepLog(s: State, e: Event)
    requires Enabled(s, e)
    ensures s.log <= Step(s, e).log
    ensures forall f :: f in Step(s, e).log <==> f in s.log || Ends(s, e, f.run, f.outcome)
  {
    match e
    case Cancel(_, order) =>
      StopAllLog(s, order);
      hide StopAll;
    case BgEnd(k, how) =>
    case ConTimeout(k) =>
    case Reply(k) =>
    case _ =>
  }

  /** The log, exactly: a run has ended with an outcome if and only if some event of the history ended
      it so. */
  lemma {:induction false} OutcomeExact(es: seq<Event>, f: Finish)
    requires Possible(es)
    ensures f in After(es).log <==>
            exists i :: 0 <= i < |es| && Possible(es[..i]) && Ends(After(es[..i]), es[i], f.run, f.outcome)
  {
    if es != [] {
      var before, e := es[..|es| - 1], es[|es| - 1];
      OutcomeExact(before, f);
      StepLog(After(before), e);
      hide Step, Ends, Enabled;
      if f in After(before).log {
        var i :| 0 <= i < |before| && Possible(before[..i]) &&
                 Ends(After(before[..i]), before[i], f.run, f.outcome);
        assert before[..i] == es[..i] && before[i] == es[i];
      }
      if i :| 0 <= i < |es| && Possible(es[..i]) && Ends(After(es[..i]), es[i], f.run, f.outcome) {
        if i < |before| { assert before[..i] == es[..i] && before[i] == es[i]; }
      }
    }
  }

  /** How the connection with index k ends: the first reply or timeout for it after event i decides. */
  function FirstAnswer(es: seq<Event>, i: nat, k: nat): Option<Outcome> {
    if |es| <= i + 1 then None
    else
      var before, e := FirstAnswer(es[..|es| - 1], i, k), es[|es| - 1];
      if before.Some? then before
      else if e == Reply(k) then Some(ResultStored)
      else if e == ConTimeout(k) then Some(Canceled)
      else None
  }

  lemma WaitsOn(s: State, e: Event, k: nat)
    requires Enabled(s, e) && k in s.conLut && k <= s.lastIdx && e != Reply(k) && e != ConTimeout(k)
    ensures var t := Step(s, e); k in t.conLut && t.conLut[k] == s.conLut[k] && k <= t.lastIdx
  {
    if e.Cancel? {
      StopAllTables(s, e.order);
      hide StopAll;
    }
  }

  /** A run over 0MQ that was started under index k: it waits as long as there is neither reply nor
      timeout for k; then its result is stored if the reply came first, and it is canceled otherwise. */
  lemma {:induction false} ConnectionOutcome(es: seq<Event>, i: nat, r: nat, k: nat)
    requires Possible(es) && i < |es| && Possible(es[..i]) && es[i] == Start(r)
    requires r in After(es[..i]).runs && After(es[..i]).runs[r].zmq && k == After(es[..i]).lastIdx + 1
    ensures var s := After(es);
            match FirstAnswer(es, i, k)
            case None => k in s.conLut && s.conLut[k] == r && k <= s.lastIdx
            case Some(how) => Finish(r, how) in s.log
  {
    hide Step, Enabled, Ends;
    if |es| == i + 1 {
      assert es[..|es| - 1] == es[..i];
      StartedWaits(After(es[..i]), r);
    } else {
      var before, e := es[..|es| - 1], es[|es| - 1];
      assert before[..i] == es[..i] && before[i] == es[i];
      ConnectionOutcome(before, i, r, k);
      AnswerStep(After(before), e, r, k, FirstAnswer(before, i, k));
    }
  }

  lemma StartedWaits(s: State, r: nat)
    requires Enabled(s, Start(r)) && s.runs[r].zmq
    ensures var t, k := Step(s, Start(r)), s.lastIdx + 1;
            k in t.conLut && t.conLut[k] == r && k <= t.lastIdx
  {}

  lemma AnswerStep(s: State, e: Event, r: nat, k: nat, before: Option<Outcome>)
    requires Enabled(s, e)
    requires match before
             case None => k in s.conLut && s.conLut[k] == r && k <= s.lastIdx
             case Some(how) => Finish(r, how) in s.log
    ensures var t := Step(s, e);
            if before.Some? then Finish(r, before.value) in t.log
            else if e == Reply(k) then Finish(r, ResultStored) in t.log
            else if e == ConTimeout(k) then Finish(r, Canceled) in t.log
            else k in t.conLut && t.conLut[k] == r && k <= t.lastIdx
  {
    StepLog(s, e);
    if before.None? && e != Reply(k) && e != ConTimeout(k) { WaitsOn(s, e, k); }
    hide Step, Enabled;
  }

  // ----- the code -----

  datatype BgState = Busy | Finished | TimedOut

  datatype Scan = Scan(device: nat, hasIp: bool, hm: bool, nrpe: bool)

  predicate Capable(scan: Scan) { scan.hm || scan.nrpe }

  /** The batches that due scans lead to. */
  function AddsOf(due: seq<Scan>): seq<Event> {
    if due == [] then []
    else
      var scan := due[|due| - 1];
      AddsOf(due[..|due| - 1]) + if Capable(scan) then [Add(scan.device, scan.hasIp, scan.hm)] else []
  }

  /** What the check of table entry k finds: nothing yet, or how the run ends. */
  type Check = nat -> Option<Outcome>

  function BgCheck(bg: nat -> BgState): Check {
    (k: nat) => match bg(k)
      case Busy => None
      case Finished => Some(ResultStored)
      case TimedOut => Some(Canceled)
  }

  function ConCheck(timedOut: nat -> bool): Check {
    (k: nat) => if timedOut(k) then Some(Canceled) else None
  }

  function Ended(lut: map<nat, nat>, check: Check): set<nat> { set k | k in lut && check(k).Some? }

  function HowOf(check: Check, k: nat): Outcome { if check(k).Some? then check(k).value else Canceled }

  function EndEvent(con: bool, k: nat, how: Outcome): Event { if con then ConTimeout(k) else BgEnd(k, how) }

  function EndEvents(con: bool, order: seq<nat>, check: Check): seq<Event> {
    seq(|order|, i requires 0 <= i < |order| => EndEvent(con, order[i], HowOf(check, order[i])))
  }

  function LutAt(lut: map<nat, nat>, k: nat): nat { if k in lut then lut[k] else 0 }

  function EndLog(order: seq<nat>, lut: map<nat, nat>, check: Check): seq<Finish> {
    seq(|order|, i requires 0 <= i < |order| => Finish(LutAt(lut, order[i]), HowOf(check, order[i])))
  }

  function RunsAt(lut: map<nat, nat>, ks: set<nat>): set<nat> { set k | k in ks && k in lut :: lut[k] }

  /** A running run stays: its command is still busy, or its connection has not timed out. */
  predicate Stays(run: RunState, bg: nat -> BgState, timedOut: nat -> bool) {
    if run.zmq then !timedOut(run.runIdx) else bg(run.runIdx) == Busy
  }

  /** Of the table entries outside todo exactly those have ended that the check says, in this order:
      their runs are gone, the outcomes are logged and the events recorded. */
  ghost predicate Collected(con: bool, lut: map<nat, nat>, check: Check, todo: set<nat>, order: seq<nat>,
                            remove: set<nat>,
                            before: (map<nat, RunState>, seq<Finish>, seq<Event>),
                            after: (map<nat, RunState>, seq<Finish>, seq<Event>))
  {
    && todo <= lut.Keys && remove == Ended(lut, check) - todo && Lists(order, remove)
    && after.0 == before.0 - RunsAt(lut, remove)
    && after.1 == before.1 + EndLog(order, lut, check)
    && after.2 == before.2 + EndEvents(con, order, check)
  }

  /** A run that was started is as before; another one was started with a new run index. */
  ghost predicate Launched(x: RunState, y: RunState, lastIdx: nat) {
    if x.started then y == x
    else y == x.(started := true, running := true, runIdx := y.runIdx) && y.runIdx > lastIdx
  }

  /** Step 1 of a tick: the runs of batches with an address are started, the others are gone. */
  ghost predicate Initiated(s: State, t: State) {
    && t.runs.Keys == (set r | r in s.runs && s.runs[r].batch in s.batches && s.batches[s.runs[r].batch].hasIp)
    && (forall r :: r in t.runs ==> Launched(s.runs[r], t.runs[r], s.lastIdx))
  }

  class AssetDispatcher {
    var runs: map<nat, RunState>
    var batches: map<nat, Batch>
    var conLut: map<nat, nat>
    var bgLut: map<nat, nat>
    var lastIdx: nat
    var nextRun: nat
    var nextBatch: nat
    ghost var log: seq<Finish>
    ghost var dropped: seq<nat>
    /** What has happened so far. */
    ghost var trace: seq<Event>

    ghost function View(): State
      reads this
    {
      State(runs, batches, conLut, bgLut, lastIdx, nextRun, nextBatch, log, dropped)
    }

    /** The object is in the state that its recorded history leads to; table entries that are
        marked for removal do not count any more. */
    ghost predicate ValidBut(bgRemove: set<nat>, conRemove: set<nat>)
      reads this
    {
      Possible(trace) && After(trace) == View().(bgLut := bgLut - bgRemove, conLut := conLut - conRemove)
    }

    ghost predicate Valid()
      reads this
    {
      Possible(trace) && After(trace) == View()
    }

    constructor ()
      ensures Valid() && trace == []
    {
      runs, batches, conLut, bgLut, lastIdx, nextRun, nextBatch := map[], map[], map[], map[], 0, 0, 0;
      log, dropped, trace := [], [], [];
    }

    lemma ValidInv()
      requires Valid()
      ensures Inv(View())
    {
      Reachable(trace);
    }

    lemma RunsOwned()
      requires Valid()
      ensures forall r :: r in runs ==> runs[r].batch in batches
    {
      Reachable(trace);
    }

    ghost method Record(e: Event, before: State)
      requires Possible(trace) && After(trace) == before && Enabled(before, e)
      modifies this`trace
      ensures trace == old(trace) + [e] && Possible(trace) && After(trace) == Step(before, e)
    {
      hide Step, Enabled;
      trace := trace + [e];
      assert trace[..|trace| - 1] == old(trace);
    }

    /** One planned run per command. */
    method PlanRuns(b: nat, zmq: bool, n: nat)
      modifies this`runs, this`nextRun
      ensures runs == AddRuns(old(runs), b, zmq, old(nextRun), n) && nextRun == old(nextRun) + n
    {
      for i := 0 to n
        invariant runs == AddRuns(old(runs), b, zmq, old(nextRun), i) && nextRun == old(nextRun) + i
      {
        runs := runs[nextRun := RunState(b, zmq, false, false, 0)];
        nextRun := nextRun + 1;
      }
    }

    /** _do_hm_scan and _do_nrpe_scan. */
    method AddPlanned(device: nat, hasIp: bool, zmq: bool)
      modifies this`runs, this`batches, this`nextRun, this`nextBatch
      ensures View() == AddBatch(old(View()), device, hasIp, zmq)
    {
      hide AddRuns;
      batches := batches[nextBatch := Batch(device, hasIp, NumCommands(zmq), 0, false)];
      PlanRuns(nextBatch, zmq, NumCommands(zmq));
      nextBatch := nextBatch + 1;
    }

    /** PlannedRunState.start and the entry in the lookup table. */
    method Launch(r: nat)
      requires r in runs && runs[r].batch in batches
      modifies this`runs, this`batches, this`conLut, this`bgLut, this`lastIdx
      ensures View() == StartRun(old(View()), r)
    {
      var run := runs[r];
      lastIdx := lastIdx + 1;
      runs := runs[r := run.(started := true, running := true, runIdx := lastIdx)];
      batches := batches[run.batch := batches[run.batch].(numRunning := batches[run.batch].numRunning + 1)];
      if run.zmq {
        conLut := conLut[lastIdx := r];
      } else {
        bgLut := bgLut[lastIdx := r];
      }
    }

    /** _stop and remove_planned_run. */
    method StopRun(r: nat, how: Outcome)
      requires r in runs && runs[r].batch in batches
      modifies this`runs, this`batches, this`log
      ensures View() == Stop(old(View()), r, how)
    {
      var bi := runs[r].batch;
      var b := batches[bi];
      b := b.(numRunning := b.numRunning - 1);
      runs := runs - {r};
      if b.numRunning == 0 && PlannedOf(runs, bi) == {} {
        b := b.(toDelete := true);
      }
      batches := batches[bi := b];
      log := log + [Finish(r, how)];
    }

    method StartScan(scan: Scan)
      requires Valid()
      modifies this
      ensures Valid()
      ensures trace == old(trace) + if Capable(scan) then [Add(scan.device, scan.hasIp, scan.hm)] else []
    {
      hide After, Possible, AddBatch;
      if Capable(scan) {
        ghost var before := View();
        AddPlanned(scan.device, scan.hasIp, scan.hm);
        Record(Add(scan.device, scan.hasIp, scan.hm), before);
      }
    }

    method MarkForRemoval(b: nat)
      requires b in batches
      modifies this`batches
      ensures View() == MarkDeleted(old(View()), b)
    {
      batches := batches[b := batches[b].(toDelete := true)];
    }

    /** Cancels a batch without address, run after run. */
    method CancelBatch(b: nat) returns (ghost order: seq<nat>)
      requires Valid() && b in batches && !batches[b].hasIp
      modifies this
      ensures Valid() && trace == old(trace) + [Cancel(b, order)]
      ensures Enabled(old(View()), Cancel(b, order)) && View() == Step(old(View()), Cancel(b, order))
    {
      RunsOwned();
      hide After, Possible, Stop, StopAll, Enabled, MarkDeleted;
      ghost var before := View();
      var todo := PlannedOf(runs, b);
      order := [];
      StopAllNone(before);
      while todo != {}
        invariant Stoppable(before, order) && View() == StopAll(before, order) && trace == old(trace)
        invariant forall x :: x in todo <==> x in PlannedOf(before.runs, b) && x !in order
        invariant forall x :: x in order ==> x in PlannedOf(before.runs, b)
        decreases |todo|
      {
        var r :| r in todo;
        StopAllStep(before, order, r);
        StopRun(r, Canceled);
        order := order + [r];
        todo := todo - {r};
      }
      CancelStep(before, b, order);
      MarkForRemoval(b);
      Record(Cancel(b, order), before);
    }

    /** Starts every run of a batch with address that has not been started. */
    method StartBatch(b: nat) returns (ghost es: seq<Event>)
      requires Valid() && b in batches && batches[b].hasIp
      modifies this
      ensures Valid() && trace == old(trace) + es && OnlyInits(es) && StartedIn(old(View()), View(), b)
      ensures forall r :: r in runs && runs[r].batch == b ==> runs[r].started
    {
      hide After, Possible, StartRun, StartedIn;
      StartedInItself(View(), b);
      es := [];
      var todo := set r | r in runs && runs[r].batch == b && !runs[r].started;
      while todo != {}
        invariant Valid() && trace == old(trace) + es && OnlyInits(es) && StartedIn(old(View()), View(), b)
        invariant todo == set r | r in runs && runs[r].batch == b && !runs[r].started
        decreases |todo|
      {
        var r :| r in todo;
        ghost var before := View();
        StartStep(old(View()), before, r, b);
        Launch(r);
        Record(Start(r), before);
        es := es + [Start(r)];
        todo := todo - {r};
      }
      assert forall r :: r in runs && runs[r].batch == b && !runs[r].started ==> r in todo;
    }

    /** One batch in step 1 of dispatch_call. */
    method InitBatch(b: nat, ghost first: State, ghost todo: set<nat>) returns (ghost es: seq<Event>)
      requires Valid() && InitsDone(first, View(), todo) && b in todo && b in batches
      requires forall r :: r in first.runs ==> first.runs[r].batch in first.batches
      modifies this
      ensures Valid() && trace == old(trace) + es && OnlyInits(es)
      ensures InitsDone(first, View(), todo - {b}) && batches.Keys == old(batches).Keys
    {
      hide After, Possible, Step, Enabled, InitsDone;
      ghost var before := View();
      SameAddress(first, before, todo, b);
      if batches[b].hasIp {
        es := StartBatch(b);
        InitsStarted(first, before, View(), todo, b);
      } else {
        ghost var order := CancelBatch(b);
        es := [Cancel(b, order)];
        CancelEffect(before, b, order);
        InitsCanceled(first, before, View(), todo, b);
      }
    }

    /** Step 1 of dispatch_call: start what can be started, cancel batches without address. */
    method InitCommands() returns (ghost es: seq<Event>)
      requires Valid()
      modifies this
      ensures Valid() && trace == old(trace) + es && OnlyInits(es) && Initiated(old(View()), View()) &&
              AllStarted(View())
      ensures forall b :: b in batches && !batches[b].hasIp ==> batches[b].toDelete
    {
      RunsOwned();
      hide Valid, InitsDone, Initiated, AllStarted, OnlyInits, Possible, After;
      ghost var first := View();
      es := [];
      var todo := batches.Keys;
      NoInits(first);
      OnlyInitsNone();
      while todo != {}
        invariant Valid() && trace == old(trace) + es && OnlyInits(es)
        invariant todo <= batches.Keys && InitsDone(first, View(), todo)
        decreases todo
      {
        var b :| b in todo;
        ghost var more := InitBatch(b, first, todo);
        assert old(trace) + es + more == old(trace) + (es + more);
        OnlyInitsMore(es, more);
        es := es + more;
        todo := todo - {b};
      }
      InitsComplete(first, View());
    }

    lemma NothingRemoved()
      requires Valid()
      ensures ValidBut({}, {})
    {
      hide After, Possible;
      assert View() == View().(bgLut := bgLut - {}, conLut := conLut - {});
    }

    /** The run of a background command ends; its table entry is still there. */
    method EndBackground(k: nat, how: Outcome, ghost remove: set<nat>)
      requires ValidBut(remove, {}) && k in bgLut && k !in remove
      modifies this`runs, this`batches, this`log, this`trace
      ensures ValidBut(remove + {k}, {}) && trace == old(trace) + [BgEnd(k, how)]
      ensures runs == old(runs) - {bgLut[k]} && log == old(log) + [Finish(bgLut[k], how)]
    {
      hide After, Possible, InvBut, Step, Enabled, Stop;
      ghost var before := View().(bgLut := bgLut - remove);
      assert After(trace) == before by { assert conLut - {} == conLut; }
      assert Inv(before) by { Reachable(trace); }
      EndBgIsStop(View(), remove, k, how);
      StopEffect(View(), bgLut[k], how);
      StopRun(bgLut[k], how);
      Record(BgEnd(k, how), before);
      assert conLut - {} == conLut;
    }

    method RemoveBackground(remove: set<nat>)
      requires ValidBut(remove, {})
      modifies this`bgLut
      ensures Valid() && bgLut == old(bgLut) - remove
    {
      hide After, Possible;
      bgLut := bgLut - remove;
      assert conLut - {} == conLut;
    }

    /** The run of a 0MQ connection is canceled; its table entry is still there. */
    method EndConnection(k: nat, ghost remove: set<nat>)
      requires ValidBut({}, remove) && k in conLut && k !in remove
      modifies this`runs, this`batches, this`log, this`trace
      ensures ValidBut({}, remove + {k}) && trace == old(trace) + [ConTimeout(k)]
      ensures runs == old(runs) - {conLut[k]} && log == old(log) + [Finish(conLut[k], Canceled)]
    {
      hide After, Possible, InvBut, Step, Enabled, Stop;
      ghost var before := View().(conLut := conLut - remove);
      assert After(trace) == before by { assert bgLut - {} == bgLut; }
      assert Inv(before) by { Reachable(trace); }
      EndConIsStop(View(), remove, k);
      StopEffect(View(), conLut[k], Canceled);
      StopRun(conLut[k], Canceled);
      Record(ConTimeout(k), before);
      assert bgLut - {} == bgLut;
    }

    method RemoveConnections(remove: set<nat>)
      requires ValidBut({}, remove)
      modifies this`conLut
      ensures Valid() && conLut == old(conLut) - remove
    {
      hide After, Possible;
      conLut := conLut - remove;
      assert bgLut - {} == bgLut;
    }

    /** Background commands: exactly those that are not busy end, finished ones with their result
        stored and timed out ones canceled; the table entries are removed after the loop. */
    method CheckBackground(bg: nat -> BgState) returns (ghost order: seq<nat>)
      requires Valid()
      modifies this
      ensures Valid() && bgLut == old(bgLut) - Ended(old(bgLut), BgCheck(bg)) && conLut == old(conLut)
      ensures Collected(false, old(bgLut), BgCheck(bg), {}, order, Ended(old(bgLut), BgCheck(bg)),
                        old((runs, log, trace)), (runs, log, trace))
      ensures forall k :: k in old(bgLut) ==>
                            match bg(k)
                            case Busy => k in bgLut
                            case Finished => k !in bgLut && Finish(old(bgLut)[k], ResultStored) in log
                            case TimedOut => k !in bgLut && Finish(old(bgLut)[k], Canceled) in log
    {
      NothingRemoved();
      hide ValidBut, Valid;
      ghost var check := BgCheck(bg);
      order := [];
      var todo, remove: set<nat> := bgLut.Keys, {};
      ghost var start := (runs, log, trace);
      CollectedNone(false, bgLut, check, start);
      hide Collected;
      while todo != {}
        invariant ValidBut(remove, {}) && bgLut == old(bgLut) && conLut == old(conLut) && todo <= bgLut.Keys
        invariant Collected(false, bgLut, check, todo, order, remove, start, (runs, log, trace))
        decreases todo
      {
        var k :| k in todo;
        CollectedOne(false, bgLut, check, todo, order, remove, start, (runs, log, trace), k);
        if bg(k) != Busy {
          EndBackground(k, if bg(k) == Finished then ResultStored else Canceled, remove);
          order := order + [k];
          remove := remove + {k};
        }
        todo := todo - {k};
      }
      CollectedAll(false, bgLut, check, order, remove, start, (runs, log, trace));
      CollectedLog(false, bgLut, check, order, start, (runs, log, trace));
      RemoveBackground(remove);
    }

    /** 0MQ connections: exactly those that timed out are canceled. */
    method CheckConnections(timedOut: nat -> bool) returns (ghost order: seq<nat>)
      requires Valid()
      modifies this
      ensures Valid() && conLut == old(conLut) - Ended(old(conLut), ConCheck(timedOut)) && bgLut == old(bgLut)
      ensures Collected(true, old(conLut), ConCheck(timedOut), {}, order, Ended(old(conLut), ConCheck(timedOut)),
                        old((runs, log, trace)), (runs, log, trace))
      ensures forall k :: k in old(conLut) ==>
                            if timedOut(k) then k !in conLut && Finish(old(conLut)[k], Canceled) in log
                            else k in conLut
    {
      NothingRemoved();
      hide ValidBut, Valid;
      ghost var check := ConCheck(timedOut);
      order := [];
      var todo, remove: set<nat> := conLut.Keys, {};
      ghost var start := (runs, log, trace);
      CollectedNone(true, conLut, check, start);
      hide Collected;
      while todo != {}
        invariant ValidBut({}, remove) && conLut == old(conLut) && bgLut == old(bgLut) && todo <= conLut.Keys
        invariant Collected(true, conLut, check, todo, order, remove, start, (runs, log, trace))
        decreases todo
      {
        var k :| k in todo;
        CollectedOne(true, conLut, check, todo, order, remove, start, (runs, log, trace), k);
        if timedOut(k) {
          EndConnection(k, remove);
          order := order + [k];
          remove := remove + {k};
        }
        todo := todo - {k};
      }
      CollectedAll(true, conLut, check, order, remove, start, (runs, log, trace));
      CollectedLog(true, conLut, check, order, start, (runs, log, trace));
      RemoveConnections(remove);
    }

    /** Keeps the batches that are not to be deleted. */
    method KeepBatches()
      requires Inv(View())
      modifies this`batches, this`dropped
      ensures View() == SweepAll(old(View())) && runs == old(runs) && log == old(log) && conLut == old(conLut)
    {
      SweptBatches(View());
      hide InvBut;
      dropped := dropped + Ascending(Deletable(View()), nextBatch);
      batches := map b | b in batches && !batches[b].toDelete :: batches[b];
    }

    /** _check_for_finished_runs */
    method CheckForFinishedRuns()
      requires Valid()
      modifies this
      ensures Valid() && trace == old(trace) + [Sweep] && View() == SweepAll(old(View()))
      ensures runs == old(runs) && log == old(log) && conLut == old(conLut)
      ensures forall b :: b in batches ==> b in old(batches) && !batches[b].toDelete && batches[b] == old(batches)[b]
    {
      ValidInv();
      hide After, Possible, InvBut, SweepAll;
      ghost var before := View();
      SweptBatches(before);
      KeepBatches();
      Record(Sweep, before);
    }

    /** One tick: due scans become batches, runs are started, ended runs are collected. The recorded
        events are those of due, then starts and cancellations, then exactly the ends that bg and
        timedOut call for. mid is the state after the first two. */
    method DispatchCall(due: seq<Scan>, bg: nat -> BgState, timedOut: nat -> bool)
      returns (ghost inits: seq<Event>, ghost bgOrder: seq<nat>, ghost conOrder: seq<nat>, ghost added: State,
               ghost mid: State)
      requires Valid()
      modifies this
      ensures Valid()
      ensures trace == old(trace) + AddsOf(due) + inits + EndEvents(false, bgOrder, BgCheck(bg)) +
                       EndEvents(true, conOrder, ConCheck(timedOut)) + [Sweep]
      ensures Possible(old(trace) + AddsOf(due)) && added == After(old(trace) + AddsOf(due))
      ensures Possible(old(trace) + AddsOf(due) + inits) && mid == After(old(trace) + AddsOf(due) + inits)
      ensures OnlyInits(inits) && Initiated(added, mid)
      ensures Lists(bgOrder, Ended(mid.bgLut, BgCheck(bg))) && Lists(conOrder, Ended(mid.conLut, ConCheck(timedOut)))
      ensures runs == map r | r in mid.runs && Stays(mid.runs[r], bg, timedOut) :: mid.runs[r]
      ensures forall r :: r in old(runs) && old(runs)[r].running ==>
                            && (r in runs <==> Stays(old(runs)[r], bg, timedOut))
                            && (r in runs ==> runs[r] == old(runs)[r])
      ensures forall r :: r in runs ==> runs[r].running
      ensures forall b :: b in batches ==> batches[b].hasIp && PlannedOf(runs, b) != {}
    {
      ghost var first := View();
      StartDue(due);
      added := View();
      inits := InitCommands();
      mid := View();
      ValidInv();
      hide After, Possible, Initiated, InvBut, Untouched, AllStarted, Stays, Ended, OnlyInits, SweepAll;
      bgOrder := CheckBackground(bg);
      conOrder := CheckConnections(timedOut);
      CollectedRuns(mid, bg, timedOut);
      CheckForFinishedRuns();
      ValidInv();
      OldRunsAfterTick(first, added, mid, runs, bg, timedOut);
      SomeStarted(mid, View());
      BatchesAfterTick(View());
    }

    method StartDue(due: seq<Scan>)
      requires Valid()
      modifies this
      ensures Valid() && trace == old(trace) + AddsOf(due) && Untouched(old(View()), View())
    {
      OldRunsStay(trace, due);
      hide After, Possible, Untouched;
      for i := 0 to |due|
        invariant Valid() && trace == old(trace) + AddsOf(due[..i])
      {
        assert due[..i + 1][..i] == due[..i];
        StartScan(due[i]);
      }
      assert due[..|due|] == due;
    }

    /** A reply arrives, perhaps late, perhaps again. */
    method GotResult(k: nat)
      requires Valid()
      modifies this
      ensures Valid() && trace == old(trace) + [Reply(k), Sweep]
      ensures k !in conLut
      ensures log == old(log) + if k in old(conLut) then [Finish(old(conLut)[k], ResultStored)] else []
    {
      hide After, Possible, Stop, SweepAll, Step, Enabled, InvBut;
      ValidInv();
      ghost var before := View();
      ReplyStep(before, k);
      if k in conLut {
        StopRun(conLut[k], ResultStored);
        conLut := conLut - {k};
      }
      Record(Reply(k), before);
      CheckForFinishedRuns();
    }
  }

  /** What a reply does. */
  lemma ReplyStep(s: State, k: nat)
    requires Inv(s)
    ensures Enabled(s, Reply(k))
    ensures if k in s.conLut then
              && s.conLut[k] in s.runs && s.runs[s.conLut[k]].batch in s.batches
              && var t := Stop(s, s.conLut[k], ResultStored);
                 && Step(s, Reply(k)) == t.(conLut := s.conLut - {k})
                 && t.conLut == s.conLut && t.log == s.log + [Finish(s.conLut[k], ResultStored)]
            else Step(s, Reply(k)) == s
  {
    hide LogOk, DroppedOk, BatchesOk;
    if k in s.conLut { StopEffect(s, s.conLut[k], ResultStored); }
    hide Stop;
  }

  lemma CollectedLog(con: bool, lut: map<nat, nat>, check: Check, order: seq<nat>,
                     before: (map<nat, RunState>, seq<Finish>, seq<Event>),
                     after: (map<nat, RunState>, seq<Finish>, seq<Event>))
    requires Collected(con, lut, check, {}, order, Ended(lut, check), before, after)
    ensures forall k :: k in lut && check(k).Some? ==> Finish(lut[k], check(k).value) in after.1
  {
    forall k | k in lut && check(k).Some? ensures Finish(lut[k], check(k).value) in after.1 {
      assert k in Ended(lut, check) && k in order;
      var i :| 0 <= i < |order| && order[i] == k;
      assert EndLog(order, lut, check)[i] == Finish(lut[k], check(k).value);
    }
  }

  lemma StopEffect(s: State, r: nat, how: Outcome)
    requires r in s.runs && s.runs[r].batch in s.batches
    ensures var t := Stop(s, r, how);
            t.runs == s.runs - {r} && t.conLut == s.conLut && t.bgLut == s.bgLut && t.log == s.log + [Finish(r, how)]
  {}

  lemma SweptBatches(s: State)
    requires Inv(s)
    ensures SweepAll(s).batches == map b | b in s.batches && !s.batches[b].toDelete :: s.batches[b]
  {
    hide RunsOk, LutsOk, LogOk, BatchesOk;
  }

  lemma EndConIsStop(s: State, remove: set<nat>, k: nat)
    requires var m := s.(conLut := s.conLut - remove); Inv(m) && k in m.conLut
    ensures var m := s.(conLut := s.conLut - remove);
            && s.conLut[k] in s.runs && s.runs[s.conLut[k]].batch in s.batches
            && Enabled(m, ConTimeout(k))
            && Step(m, ConTimeout(k)) == Stop(s, s.conLut[k], Canceled).(conLut := s.conLut - (remove + {k}))
  {
    hide LogOk, DroppedOk, BatchesOk;
    assert s.conLut - remove - {k} == s.conLut - (remove + {k});
  }

  lemma EndBgIsStop(s: State, remove: set<nat>, k: nat, how: Outcome)
    requires var m := s.(bgLut := s.bgLut - remove); Inv(m) && k in m.bgLut
    ensures var m := s.(bgLut := s.bgLut - remove);
            && s.bgLut[k] in s.runs && s.runs[s.bgLut[k]].batch in s.batches
            && Enabled(m, BgEnd(k, how))
            && Step(m, BgEnd(k, how)) == Stop(s, s.bgLut[k], how).(bgLut := s.bgLut - (remove + {k}))
  {
    hide LogOk, DroppedOk, BatchesOk;
    assert s.bgLut - remove - {k} == s.bgLut - (remove + {k});
  }

  /** Starts and cancellations only. */
  ghost predicate OnlyInits(es: seq<Event>) { forall e :: e in es ==> e.Start? || e.Cancel? }

  lemma OnlyInitsNone()
    ensures OnlyInits([])
  {}

  lemma OnlyInitsMore(a: seq<Event>, b: seq<Event>)
    requires OnlyInits(a) && OnlyInits(b)
    ensures OnlyInits(a + b)
  {}

  lemma RunsAtMore(lut: map<nat, nat>, ks: set<nat>, k: nat)
    requires k in lut
    ensures RunsAt(lut, ks + {k}) == RunsAt(lut, ks) + {lut[k]}
  {}

  lemma CollectedNone(con: bool, lut: map<nat, nat>, check: Check, now: (map<nat, RunState>, seq<Finish>, seq<Event>))
    ensures Collected(con, lut, check, lut.Keys, [], {}, now, now)
  {
    assert RunsAt(lut, {}) == {} && now.0 - {} == now.0;
  }

  lemma CollectedOne(con: bool, lut: map<nat, nat>, check: Check, todo: set<nat>, order: seq<nat>, remove: set<nat>,
                     before: (map<nat, RunState>, seq<Finish>, seq<Event>),
                     after: (map<nat, RunState>, seq<Finish>, seq<Event>), k: nat)
    requires Collected(con, lut, check, todo, order, remove, before, after) && k in todo
    ensures k in lut && k !in remove
    ensures if check(k).None? then Collected(con, lut, check, todo - {k}, order, remove, before, after)
            else var how := check(k).value;
                 Collected(con, lut, check, todo - {k}, order + [k], remove + {k}, before,
                           (after.0 - {lut[k]}, after.1 + [Finish(lut[k], how)], after.2 + [EndEvent(con, k, how)]))
  {
    if check(k).Some? {
      ListsMore(order, remove, k);
      RunsAtMore(lut, remove, k);
      assert before.0 - (RunsAt(lut, remove) + {lut[k]}) == before.0 - RunsAt(lut, remove) - {lut[k]};
    }
  }

  lemma CollectedAll(con: bool, lut: map<nat, nat>, check: Check, order: seq<nat>, remove: set<nat>,
                     before: (map<nat, RunState>, seq<Finish>, seq<Event>),
                     after: (map<nat, RunState>, seq<Finish>, seq<Event>))
    requires Collected(con, lut, check, {}, order, remove, before, after)
    ensures remove == Ended(lut, check)
  {}

  /** Runs of batch b may have been started since; no run came or went. */
  ghost predicate StartedIn(s: State, t: State, b: nat) {
    && t.batches.Keys == s.batches.Keys && t.runs.Keys == s.runs.Keys && t.lastIdx >= s.lastIdx
    && (forall c :: c in s.batches ==> if c == b then t.batches[c].hasIp == s.batches[c].hasIp
                                       else t.batches[c] == s.batches[c])
    && (forall r :: r in s.runs ==> t.runs[r].batch == s.runs[r].batch &&
                                    if s.runs[r].batch == b && t.runs[r].started
                                    then Launched(s.runs[r], t.runs[r], s.lastIdx)
                                    else t.runs[r] == s.runs[r])
  }

  lemma StartedInItself(s: State, b: nat)
    ensures StartedIn(s, s, b)
  {}

  lemma StartStep(s0: State, s: State, r: nat, b: nat)
    requires StartedIn(s0, s, b) && b in s0.batches && s0.batches[b].hasIp
    requires r in s.runs && s.runs[r].batch == b && !s.runs[r].started
    ensures Enabled(s, Start(r)) && Step(s, Start(r)) == StartRun(s, r) && b in s.batches
    ensures StartedIn(s0, StartRun(s, r), b)
    ensures (set x | x in StartRun(s, r).runs && StartRun(s, r).runs[x].batch == b && !StartRun(s, r).runs[x].started)
         == (set x | x in s.runs && s.runs[x].batch == b && !s.runs[x].started) - {r}
  {}

  /** Step 1 with the batches of todo still to be handled. */
  ghost predicate InitsDone(s: State, t: State, todo: set<nat>) {
    && t.batches.Keys == s.batches.Keys && t.lastIdx >= s.lastIdx
    && (forall b :: b in s.batches ==> t.batches[b].hasIp == s.batches[b].hasIp)
    && (forall b :: b in s.batches && b !in todo && !s.batches[b].hasIp ==> t.batches[b].toDelete)
    && (forall r :: r in t.runs ==> r in s.runs)
    && (forall r :: r in s.runs && s.runs[r].batch in s.batches ==>
                      if s.runs[r].batch in todo then r in t.runs && t.runs[r] == s.runs[r]
                      else (r in t.runs <==> s.batches[s.runs[r].batch].hasIp) &&
                           (r in t.runs ==> Launched(s.runs[r], t.runs[r], s.lastIdx)))
  }

  lemma NoInits(s: State)
    ensures InitsDone(s, s, s.batches.Keys)
  {}

  lemma SameAddress(s: State, t: State, todo: set<nat>, b: nat)
    requires InitsDone(s, t, todo) && b in t.batches
    ensures b in s.batches && t.batches[b].hasIp == s.batches[b].hasIp
  {
    assert b in s.batches.Keys;
  }

  lemma InitsStarted(s: State, t: State, u: State, todo: set<nat>, b: nat)
    requires InitsDone(s, t, todo) && StartedIn(t, u, b) && b in todo && b in s.batches && s.batches[b].hasIp
    requires forall r :: r in s.runs ==> s.runs[r].batch in s.batches
    requires forall r :: r in u.runs && u.runs[r].batch == b ==> u.runs[r].started
    ensures InitsDone(s, u, todo - {b})
  {
    assert forall r :: r in u.runs <==> r in t.runs.Keys;
    assert forall c :: c in u.batches <==> c in t.batches.Keys;
  }

  lemma InitsCanceled(s: State, t: State, u: State, todo: set<nat>, b: nat)
    requires InitsDone(s, t, todo) && b in todo && b in s.batches && !s.batches[b].hasIp && u.lastIdx == t.lastIdx
    requires forall r :: r in s.runs ==> s.runs[r].batch in s.batches
    requires u.runs == t.runs - PlannedOf(t.runs, b)
    requires u.batches.Keys == t.batches.Keys && u.batches[b].toDelete && u.batches[b].hasIp == t.batches[b].hasIp
    requires forall c :: c in t.batches && c != b ==> u.batches[c] == t.batches[c]
    ensures InitsDone(s, u, todo - {b})
  {
    forall r | r in t.runs ensures t.runs[r].batch == s.runs[r].batch {}
    assert forall c :: c in u.batches <==> c in t.batches.Keys;
  }

  lemma InitsComplete(s: State, t: State)
    requires InitsDone(s, t, {}) && forall r :: r in s.runs ==> s.runs[r].batch in s.batches
    ensures Initiated(s, t) && AllStarted(t)
    ensures forall b :: b in t.batches && !t.batches[b].hasIp ==> t.batches[b].toDelete
  {
    forall b | b in t.batches ensures b in s.batches { assert b in s.batches.Keys; }
  }

  lemma AddsAreAdds(due: seq<Scan>)
    ensures forall e :: e in AddsOf(due) ==> e.Add?
  {
    if due != [] { AddsAreAdds(due[..|due| - 1]); }
  }

  /** New batch number j of the added ones: as requested, with all its runs planned. */
  ghost predicate BatchAdded(s: State, t: State, e: Event, j: nat)
    requires e.Add?
  {
    var b := s.nextBatch + j;
    && b in t.batches && t.batches[b] == Batch(e.device, e.hasIp, if e.zmq then 10 else 7, 0, false)
    && |PlannedOf(t.runs, b)| == (if e.zmq then 10 else 7)
    && forall r :: r in t.runs && t.runs[r].batch == b ==> t.runs[r] == RunState(b, e.zmq, false, false, 0)
  }

  ghost predicate Kept(s: State, t: State) {
    && (forall r :: r in s.runs ==> r in t.runs && t.runs[r] == s.runs[r])
    && (forall b :: b in s.batches ==> b in t.batches && t.batches[b] == s.batches[b])
    && t.lastIdx == s.lastIdx && t.bgLut == s.bgLut && t.conLut == s.conLut && t.log == s.log
  }

  lemma AddKeeps(s: State, e: Event)
    requires Inv(s) && e.Add?
    ensures Kept(s, Step(s, e)) && BatchAdded(s, Step(s, e), e, 0) && Step(s, e).nextBatch == s.nextBatch + 1
    ensures forall b: nat :: b < s.nextBatch ==> PlannedOf(Step(s, e).runs, b) == PlannedOf(s.runs, b)
  {
    hide LogOk, LutsOk, BatchesOk;
    assert Step(s, e) == AddBatch(s, e.device, e.hasIp, e.zmq);
    var n := NumCommands(e.zmq);
    assert Kept(s, Step(s, e)) && BatchAdded(s, Step(s, e), e, 0) by {
      AddRunsExact(s.runs, s.nextBatch, e.zmq, s.nextRun, n);
      AddedRuns(s.runs, s.nextBatch, e.zmq, s.nextRun, n);
      hide AddRuns, PlannedOf, RunningOf;
    }
    hide AddRuns, PlannedOf, RunningOf, Kept, BatchAdded;
    forall b: nat | b < s.nextBatch ensures PlannedOf(Step(s, e).runs, b) == PlannedOf(s.runs, b) {
      AddedElsewhere(s.runs, s.nextBatch, e.zmq, s.nextRun, n, b);
    }
  }

  lemma StillAdded(s: State, t: State, u: State, e: Event, j: nat)
    requires e.Add? && BatchAdded(s, t, e, j) && Kept(t, u) && s.nextBatch + j < t.nextBatch
    requires PlannedOf(u.runs, s.nextBatch + j) == PlannedOf(t.runs, s.nextBatch + j)
    ensures BatchAdded(s, u, e, j)
  {
    forall r | r in u.runs && u.runs[r].batch == s.nextBatch + j ensures r in t.runs {
      assert r in PlannedOf(u.runs, s.nextBatch + j);
    }
  }

  /** The batches were added, in order, and nothing else has changed. */
  ghost predicate AllAdded(s: State, t: State, adds: seq<Event>) {
    && Kept(s, t) && t.nextBatch == s.nextBatch + |adds|
    && forall j :: 0 <= j < |adds| ==> adds[j].Add? && BatchAdded(s, t, adds[j], j)
  }

  lemma KeptTwice(s: State, t: State, u: State)
    requires Kept(s, t) && Kept(t, u)
    ensures Kept(s, u)
  {}

  lemma OneMoreAdded(s: State, t: State, adds: seq<Event>, e: Event)
    requires AllAdded(s, t, adds) && Inv(t) && e.Add?
    ensures AllAdded(s, Step(t, e), adds + [e])
  {
    hide Step, BatchAdded, Inv, Kept, PlannedOf;
    AddKeeps(t, e);
    var u := Step(t, e);
    KeptTwice(s, t, u);
    AddedAt(s, t, u, e);
    var more := adds + [e];
    forall j | 0 <= j < |more| ensures more[j].Add? && BatchAdded(s, u, more[j], j) {
      if j < |adds| { StillAdded(s, t, u, adds[j], j); }
    }
  }

  /** Due scans: every one of a capable device adds its batch with all its runs, in order, and
      nothing else changes. */
  lemma {:induction false} AddsEffect(es: seq<Event>, adds: seq<Event>)
    requires Possible(es) && forall e :: e in adds ==> e.Add?
    ensures Possible(es + adds) && AllAdded(After(es), After(es + adds), adds)
  {
    hide Step, AllAdded, Inv;
    if adds == [] {
      assert es + adds == es;
      NothingAdded(After(es));
    } else {
      var init, e := adds[..|adds| - 1], adds[|adds| - 1];
      AddsEffect(es, init);
      Reachable(es + init);
      assert (es + adds)[..|es + adds| - 1] == es + init && adds == init + [e];
      OneMoreAdded(After(es), After(es + init), init, e);
    }
  }

  lemma NothingAdded(s: State)
    ensures AllAdded(s, s, [])
  {}

  lemma AddedAt(s: State, t: State, u: State, e: Event)
    requires e.Add? && BatchAdded(t, u, e, 0) && t.nextBatch >= s.nextBatch
    ensures BatchAdded(s, u, e, t.nextBatch - s.nextBatch)
  {}

  ghost predicate Untouched(s: State, t: State) {
    forall r :: r in s.runs && s.runs[r].running ==>
                  && r in t.runs && t.runs[r] == s.runs[r] && s.runs[r].started
                  && s.runs[r].batch in t.batches && t.batches[s.runs[r].batch].hasIp
  }

  /** The runs that are running keep their state while batches are added, and their batch has an address. */
  lemma OldRunsStay(es: seq<Event>, due: seq<Scan>)
    requires Possible(es)
    ensures Possible(es + AddsOf(due))
    ensures Untouched(After(es), After(es + AddsOf(due)))
  {
    AddsAreAdds(due);
    AddsEffect(es, AddsOf(due));
    Reachable(es);
    hide After, Possible, BatchAdded, LogOk, LutsOk, DroppedOk, BatchesOk;
  }

  ghost predicate AllStarted(s: State) { forall r :: r in s.runs ==> s.runs[r].started }

  /** The runs at the ended table entries are those that do not stay. */
  lemma CollectedRuns(s: State, bg: nat -> BgState, timedOut: nat -> bool)
    requires Inv(s) && AllStarted(s)
    ensures s.runs - RunsAt(s.bgLut, Ended(s.bgLut, BgCheck(bg)))
                   - RunsAt(s.conLut, Ended(s.conLut, ConCheck(timedOut)))
         == map r | r in s.runs && Stays(s.runs[r], bg, timedOut) :: s.runs[r]
  {
    hide LogOk, DroppedOk, BatchesOk;
    forall r | r in s.runs
      ensures r in RunsAt(s.bgLut, Ended(s.bgLut, BgCheck(bg))) ||
              r in RunsAt(s.conLut, Ended(s.conLut, ConCheck(timedOut)))
              <==> !Stays(s.runs[r], bg, timedOut)
    {}
  }

  /** A run that was running before the tick is still there, unchanged, exactly if it stays. */
  lemma OldRunsAfterTick(first: State, added: State, mid: State, runs: map<nat, RunState>, bg: nat -> BgState,
                         timedOut: nat -> bool)
    requires Untouched(first, added) && Initiated(added, mid)
    requires runs == map r | r in mid.runs && Stays(mid.runs[r], bg, timedOut) :: mid.runs[r]
    ensures forall r :: r in first.runs && first.runs[r].running ==>
                          && (r in runs <==> Stays(first.runs[r], bg, timedOut))
                          && (r in runs ==> runs[r] == first.runs[r])
  {
    hide Stays;
    forall r | r in first.runs && first.runs[r].running ensures r in mid.runs && mid.runs[r] == first.runs[r] {
      assert r in mid.runs.Keys;
    }
  }

  lemma SomeStarted(s: State, t: State)
    requires AllStarted(s) && forall r :: r in t.runs ==> r in s.runs && t.runs[r] == s.runs[r]
    ensures AllStarted(t)
  {}

  lemma BatchesAfterTick(t: State)
    requires Inv(t) && AllStarted(t) && forall b :: b in t.batches ==> !t.batches[b].toDelete
    ensures forall r :: r in t.runs ==> t.runs[r].running
    ensures forall b :: b in t.batches ==> t.batches[b].hasIp && PlannedOf(t.runs, b) != {}
  {
    hide LogOk, LutsOk, DroppedOk, CountOk;
    forall b | b in t.batches ensures t.batches[b].hasIp && PlannedOf(t.runs, b) != {} {
      assert DeleteOk(t, b);
      var r :| r in PlannedOf(t.runs, b);
    }
  }

  lemma CancelEffect(s: State, b: nat, order: seq<nat>)
    requires Enabled(s, Cancel(b, order))
    ensures var t := Step(s, Cancel(b, order));
            && t.runs == s.runs - PlannedOf(s.runs, b)
            && t.batches.Keys == s.batches.Keys && t.batches[b].toDelete && t.lastIdx == s.lastIdx
            && t.batches[b].hasIp == s.batches[b].hasIp
            && forall c :: c in s.batches && c != b ==> t.batches[c] == s.batches[c]
  {
    StopAllOthers(s, order, b);
    StopAllTables(s, order);
    assert (set x | x in order) == PlannedOf(s.runs, b);
  }

  lemma StopAllNone(s: State)
    requires Stoppable(s, [])
    ensures StopAll(s, []) == s
  {}

  lemma StopAllStep(s: State, order: seq<nat>, r: nat)
    requires Stoppable(s, order) && r in s.runs && r !in order && s.runs[r].batch in s.batches
    ensures var m := StopAll(s, order);
            && Stoppable(s, order + [r])
            && r in m.runs && m.runs[r].batch in m.batches
            && StopAll(s, order + [r]) == Stop(m, r, Canceled)
  {
    assert (order + [r])[..|order|] == order;
    assert s.runs[r].batch in StopAll(s, order).batches.Keys;
  }

  lemma {:induction false} StopAllOthers(s: State, order: seq<nat>, b: nat)
    requires Stoppable(s, order) && forall r :: r in order ==> s.runs[r].batch == b
    ensures forall c :: c in s.batches && c != b ==> StopAll(s, order).batches[c] == s.batches[c]
    ensures b in s.batches ==> StopAll(s, order).batches[b].hasIp == s.batches[b].hasIp &&
                               StopAll(s, order).batches[b].numRuns == s.batches[b].numRuns
    decreases |order|
  {
    if order != [] {
      var init, r := order[..|order| - 1], order[|order| - 1];
      StopAllOthers(s, init, b);
      assert order == init + [r] && r !in init;
      StopAllStep(s, init, r);
      hide Stop, StopAll, Stoppable;
      StopOthers(StopAll(s, init), r);
    }
  }

  lemma StopOthers(s: State, r: nat)
    requires r in s.runs && s.runs[r].batch in s.batches
    ensures var b, t := s.runs[r].batch, Stop(s, r, Canceled);
            && t.batches.Keys == s.batches.Keys
            && (forall c :: c in s.batches && c != b ==> t.batches[c] == s.batches[c])
            && t.batches[b].hasIp == s.batches[b].hasIp && t.batches[b].numRuns == s.batches[b].numRuns
  {}

  lemma CancelStep(s: State, b: nat, order: seq<nat>)
    requires b in s.batches && !s.batches[b].hasIp && Stoppable(s, order)
    requires forall x :: x in order <==> x in PlannedOf(s.runs, b)
    ensures Enabled(s, Cancel(b, order))
    ensures Step(s, Cancel(b, order)) == MarkDeleted(StopAll(s, order), b)
  {}
}
