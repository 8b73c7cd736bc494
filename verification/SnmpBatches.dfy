/** Two-phase SNMP scans: a batch starts runs, the results come back in any order and are routed
    to their batch by run id; a device lock is held from the start to the end of the scan. */
module SnmpBatches {

  datatype Command = BasicScan | InitialScan | OtherCommand

  /** results: run id and whether its result has arrived; phases: how often runs were started. */
  datatype Batch = Batch(command: Command, results: map<nat, bool>, hasLock: bool, phases: nat)

  /** A lock was closed while so many runs of the batch had no result. */
  datatype Closing = Closing(batch: nat, outstanding: nat)

  /** sent: runs whose result is still under way; finished, closings: history; faults: look-ups
      of unknown run or batch ids. */
  datatype State = State(batches: map<nat, Batch>, lut: map<nat, nat>, lastBatch: nat, lastRun: nat,
                         sent: set<nat>, finished: seq<nat>, closings: seq<Closing>, faults: nat)

  function Init(): State { State(map[], map[], 0, 0, {}, [], [], 0) }

  function Unanswered(results: map<nat, bool>): set<nat> {
    set r | r in results && !results[r]
  }

  predicate AllAnswered(results: map<nat, bool>) {
    forall r :: r in results ==> results[r]
  }

  function Finish(s: State, b: nat): State {
    if b !in s.batches then s.(faults := s.faults + 1)
    else
      var x := s.batches[b];
      s.(batches := s.batches - {b},
         finished := s.finished + [b],
         closings := if x.hasLock then s.closings + [Closing(b, |Unanswered(x.results)|)] else s.closings)
  }

  function NewRun(s: State, b: nat): State
    requires b in s.batches
  {
    var run := s.lastRun + 1;
    var x := s.batches[b];
    s.(lastRun := run,
       lut := s.lut[run := b],
       batches := s.batches[b := x.(results := x.results[run := false])],
       sent := s.sent + {run})
  }

  function NewRuns(s: State, b: nat, n: nat): (t: State)
    requires b in s.batches
    ensures b in t.batches
  {
    if n == 0 then s else NewRun(NewRuns(s, b, n - 1), b)
  }

  /** init_run: forget the results of the previous phase. */
  function InitRun(s: State, b: nat, command: Command): State
    requires b in s.batches
  {
    var x := s.batches[b];
    s.(batches := s.batches[b := x.(command := command, results := map[], phases := x.phases + 1)])
  }

  /** What the constructor finds: an invalid request, a device that is locked, or a free one. */
  datatype Request = Invalid | Locked | Free

  /** next_snmp_batch_id and add_batch. */
  function Register(s: State, x: Batch): State {
    var b: nat := s.lastBatch + 1;
    s.(lastBatch := b, batches := s.batches[b := x])
  }

  function Refused(command: Command): Batch { Batch(command, map[], false, 0) }

  function Accepted(command: Command): Batch { Batch(command, map[], true, if command.BasicScan? then 1 else 0) }

  function NewBatch(s: State, command: Command, req: Request): State {
    var b: nat := s.lastBatch + 1;
    match req
    case Invalid => Finish(Register(s, Refused(command)), b)
    case Locked => Register(s, Refused(command))
    case Free =>
      var t := Register(s, Accepted(command));
      if command.BasicScan? then NewRun(t, b) else Finish(t, b)
  }

  /** All results of a phase are there; schemes: how many of the found schemes want an initial scan. */
  function HandleResults(s: State, b: nat, schemes: nat): State
    requires b in s.batches
  {
    if s.batches[b].command.BasicScan? && schemes > 0 then NewRuns(InitRun(s, b, InitialScan), b, schemes)
    else Finish(s, b)
  }

  function FeedSnmp(s: State, b: nat, run: nat, schemes: nat): State
    requires b in s.batches
  {
    var x := s.batches[b];
    var t := s.(batches := s.batches[b := x.(results := x.results[run := true])]);
    if AllAnswered(t.batches[b].results) then HandleResults(t, b, schemes) else t
  }

  function GlobFeedSnmp(s: State, run: nat, schemes: nat): State {
    if run !in s.lut || s.lut[run] !in s.batches then s.(faults := s.faults + 1)
    else
      var t := FeedSnmp(s, s.lut[run], run, schemes);
      t.(lut := t.lut - {run})
  }

  datatype Event = Scan(command: Command, req: Request) | Result(run: nat, schemes: nat)

  predicate Enabled(s: State, e: Event) {
    e.Scan? || e.run in s.sent
  }

  function Step(s: State, e: Event): State
    requires Enabled(s, e)
  {
    match e
    case Scan(command, req) => NewBatch(s, command, req)
    case Result(run, schemes) => GlobFeedSnmp(s.(sent := s.sent - {run}), run, schemes)
  }

  ghost predicate Possible(es: seq<Event>)
    decreases |es|, 0
  {
    es == [] || (Possible(es[..|es| - 1]) && Enabled(After(es[..|es| - 1]), es[|es| - 1]))
  }

  ghost function After(es: seq<Event>): State
    requires Possible(es)
    decreases |es|, 1
  {
    if es == [] then Init() else Step(After(es[..|es| - 1]), es[|es| - 1])
  }

  // ----- the invariant -----

  /** The routing table holds exactly the unanswered runs of every live batch, apart from the run
      that is just being handled. */
  ghost predicate RoutingOk(s: State, current: set<nat>) {
    && (forall r :: r in s.lut && r !in current ==>
                      1 <= r <= s.lastRun && s.lut[r] in s.batches && r in Unanswered(s.batches[s.lut[r]].results))
    && (forall b, r :: b in s.batches && r in Unanswered(s.batches[b].results) ==>
                         r in s.lut && r !in current && s.lut[r] == b)
    && s.lut.Keys - current == s.sent
    && (forall r :: r in current ==> r in s.lut && 1 <= r <= s.lastRun)
  }

  /** A batch with the lock is in one of its two phases and waits for a result; a batch that was
      refused the lock never starts a run. */
  ghost predicate BatchOk(x: Batch) {
    if x.hasLock then
      && Unanswered(x.results) != {}
      && ((x.command.BasicScan? && x.phases == 1) || (x.command.InitialScan? && x.phases == 2))
    else x.results == map[] && x.phases == 0
  }

  ghost predicate HistoryOk(s: State) {
    && (forall b: nat :: 1 <= b <= s.lastBatch <==> b in s.batches || b in s.finished)
    && (forall b :: b in s.finished ==> b !in s.batches)
    && (forall i, j :: 0 <= i < j < |s.finished| ==> s.finished[i] != s.finished[j])
    && (forall i :: 0 <= i < |s.closings| ==> s.closings[i].batch in s.finished && s.closings[i].outstanding == 0)
    && (forall i, j :: 0 <= i < j < |s.closings| ==> s.closings[i].batch != s.closings[j].batch)
  }

  /** Every batch but the one in open is either waiting for results or was refused by the lock. */
  ghost predicate InvBut(s: State, current: set<nat>, open: set<nat>) {
    && RoutingOk(s, current) && HistoryOk(s) && s.faults == 0
    && (forall b :: b in s.batches && b !in open ==> BatchOk(s.batches[b]))
  }

  ghost predicate Inv(s: State) { InvBut(s, {}, {}) }

  lemma FinishInv(s: State, b: nat, current: set<nat>)
    requires InvBut(s, current, {b}) && b in s.batches && Unanswered(s.batches[b].results) == {}
    ensures InvBut(Finish(s, b), current, {})
    ensures Finish(s, b).finished == s.finished + [b]
  {
    var t := Finish(s, b);
    assert RoutingOk(t, current);
    assert HistoryOk(t) by {
      forall c: nat ensures 1 <= c <= t.lastBatch <==> c in t.batches || c in t.finished {
        assert c in t.finished <==> c in s.finished || c == b;
      }
    }
  }

  lemma NewRunRouting(s: State, b: nat, current: set<nat>)
    requires RoutingOk(s, current) && b in s.batches
    ensures var t := NewRun(s, b);
            RoutingOk(t, current) && s.lastRun + 1 in Unanswered(t.batches[b].results)
  {
    var t := NewRun(s, b);
    var run: nat := s.lastRun + 1;
    assert run !in s.lut;
    assert run !in Unanswered(s.batches[b].results);
    assert Unanswered(t.batches[b].results) == Unanswered(s.batches[b].results) + {run};
    hide Unanswered;
    forall c, r | c in t.batches && r in Unanswered(t.batches[c].results)
      ensures r in t.lut && r !in current && t.lut[r] == c
    {
      if r != run { assert r in Unanswered(s.batches[c].results); }
    }
  }

  lemma NewRunInv(s: State, b: nat, current: set<nat>)
    requires InvBut(s, current, {b}) && b in s.batches
    ensures var t := NewRun(s, b);
            && InvBut(t, current, {b}) && s.lastRun + 1 in Unanswered(t.batches[b].results)
            && t.batches[b] == s.batches[b].(results := t.batches[b].results)
  {
    NewRunRouting(s, b, current);
    hide RoutingOk, Unanswered, BatchOk;
    assert NewRun(s, b).batches.Keys == s.batches.Keys;
  }

  lemma {:induction false} NewRunsInv(s: State, b: nat, n: nat, current: set<nat>)
    requires InvBut(s, current, {b}) && b in s.batches
    ensures var t := NewRuns(s, b, n);
            && InvBut(t, current, {b}) && (n > 0 ==> Unanswered(t.batches[b].results) != {})
            && t.batches[b] == s.batches[b].(results := t.batches[b].results)
            && t.finished == s.finished && t.closings == s.closings
  {
    hide InvBut;
    if n > 0 {
      NewRunsInv(s, b, n - 1, current);
      NewRunInv(NewRuns(s, b, n - 1), b, current);
    }
  }

  lemma HistorySame(s: State, t: State)
    requires HistoryOk(s) && t.batches.Keys == s.batches.Keys && t.lastBatch == s.lastBatch
    requires t.finished == s.finished && t.closings == s.closings
    ensures HistoryOk(t)
  {
    forall b: nat ensures b in t.batches <==> b in s.batches {
      assert b in t.batches.Keys <==> b in s.batches.Keys;
    }
  }

  /** Replacing the batch b by one whose unanswered runs are the same apart from current. */
  lemma ReplaceRouting(s: State, b: nat, x: Batch, current: set<nat>, current': set<nat>, sent: set<nat>)
    requires RoutingOk(s, current) && b in s.batches && current <= current' && sent == s.lut.Keys - current'
    requires forall r :: r in current' ==> r in s.lut && 1 <= r <= s.lastRun
    requires forall r :: r in Unanswered(x.results) <==> r in Unanswered(s.batches[b].results) && r !in current'
    requires forall r :: r in current' && r !in current ==> s.lut[r] == b
    ensures RoutingOk(s.(batches := s.batches[b := x], sent := sent), current')
  {
    hide Unanswered;
    var t := s.(batches := s.batches[b := x], sent := sent);
    forall c, r | c in t.batches && r in Unanswered(t.batches[c].results)
      ensures r in t.lut && r !in current' && t.lut[r] == c
    {
      assert r in Unanswered(s.batches[c].results);
    }
  }

  /** The run's result arrives: it no longer counts as unanswered and is dropped from the table
      at the end. */
  lemma AnswerRun(s: State, run: nat, b: nat)
    requires Inv(s) && run in s.sent && run in s.lut && b == s.lut[run]
    ensures b in s.batches && s.batches[b].hasLock && BatchOk(s.batches[b])
    ensures var x := s.batches[b].(results := s.batches[b].results[run := true]);
            InvBut(s.(batches := s.batches[b := x], sent := s.sent - {run}), {run}, {b})
  {
    assert b in s.batches && run in Unanswered(s.batches[b].results);
    var x := s.batches[b].(results := s.batches[b].results[run := true]);
    assert Unanswered(x.results) == Unanswered(s.batches[b].results) - {run};
    assert BatchOk(s.batches[b]);
    hide Unanswered, HistoryOk;
    var t := s.(batches := s.batches[b := x], sent := s.sent - {run});
    ReplaceRouting(s, b, x, {}, {run}, s.sent - {run});
    assert t.batches.Keys == s.batches.Keys;
    HistorySame(s, t);
    hide RoutingOk;
  }

  lemma DropRun(s: State, run: nat, open: set<nat>)
    requires InvBut(s, {run}, open)
    ensures InvBut(s.(lut := s.lut - {run}), {}, open)
  {
    hide Unanswered, BatchOk;
  }

  lemma InitRunInv(s: State, b: nat, current: set<nat>)
    requires InvBut(s, current, {b}) && b in s.batches && Unanswered(s.batches[b].results) == {}
    ensures InvBut(InitRun(s, b, InitialScan), current, {b})
  {
    var t := InitRun(s, b, InitialScan);
    assert Unanswered(t.batches[b].results) == {};
    hide Unanswered, HistoryOk, RoutingOk, BatchOk;
    ReplaceAll(s, b, t.batches[b], current);
    HistorySame(s, t);
  }

  lemma ReplaceAll(s: State, b: nat, x: Batch, current: set<nat>)
    requires RoutingOk(s, current) && b in s.batches && Unanswered(x.results) == Unanswered(s.batches[b].results)
    ensures RoutingOk(s.(batches := s.batches[b := x]), current)
    ensures s.batches[b := x].Keys == s.batches.Keys
  {
    hide Unanswered;
    assert forall c, r :: c in s.batches && r in Unanswered(s.batches[c].results) ==> r !in current;
    ReplaceRouting(s, b, x, current, current, s.sent);
  }

  /** All results of the phase are there: a second phase begins, or the batch finishes. */
  lemma HandleResultsInv(s: State, b: nat, schemes: nat, current: set<nat>)
    requires InvBut(s, current, {b}) && b in s.batches && Unanswered(s.batches[b].results) == {}
    requires var x := s.batches[b];
             x.hasLock && ((x.command.BasicScan? && x.phases == 1) || (x.command.InitialScan? && x.phases == 2))
    ensures InvBut(HandleResults(s, b, schemes), current, {})
  {
    if s.batches[b].command.BasicScan? && schemes > 0 {
      InitRunInv(s, b, current);
      NewRunsInv(InitRun(s, b, InitialScan), b, schemes, current);
      hide RoutingOk, HistoryOk, NewRuns;
    } else {
      FinishInv(s, b, current);
    }
  }

  /** Every result under way finds its live batch, and the invariant is kept. */
  lemma ResultInv(s: State, run: nat, schemes: nat)
    requires Inv(s) && run in s.sent
    ensures run in s.lut && s.lut[run] in s.batches
    ensures Inv(Step(s, Result(run, schemes)))
  {
    assert run in s.lut.Keys;
    var b := s.lut[run];
    AnswerRun(s, run, b);
    hide RoutingOk, HistoryOk, Unanswered, HandleResults;
    var x := s.batches[b].(results := s.batches[b].results[run := true]);
    var t := s.(batches := s.batches[b := x], sent := s.sent - {run});
    AnsweredIsEmpty(x.results);
    if AllAnswered(x.results) {
      HandleResultsInv(t, b, schemes, {run});
      DropRun(HandleResults(t, b, schemes), run, {});
    } else {
      DropRun(t, run, {b});
    }
  }

  lemma AnsweredIsEmpty(results: map<nat, bool>)
    ensures AllAnswered(results) <==> Unanswered(results) == {}
  {
    if !AllAnswered(results) {
      var r :| r in results && !results[r];
      assert r in Unanswered(results);
    }
  }

  lemma RegisterHistory(s: State, x: Batch)
    requires HistoryOk(s)
    ensures s.lastBatch + 1 !in s.batches && HistoryOk(Register(s, x))
  {}

  lemma RegisterRouting(s: State, x: Batch)
    requires RoutingOk(s, {}) && x.results == map[] && s.lastBatch + 1 !in s.batches
    ensures RoutingOk(Register(s, x), {}) && Unanswered(x.results) == {}
  {
    assert Unanswered(x.results) == {};
    hide Unanswered;
    var t := Register(s, x);
    forall c, r | c in t.batches && r in Unanswered(t.batches[c].results)
      ensures r in t.lut && t.lut[r] == c
    {
      assert c in s.batches && r in Unanswered(s.batches[c].results);
    }
  }

  lemma RegisterInv(s: State, x: Batch)
    requires Inv(s) && x.results == map[]
    ensures var t, b := Register(s, x), s.lastBatch + 1;
            InvBut(t, {}, {b}) && b in t.batches && t.batches[b] == x && Unanswered(x.results) == {}
  {
    hide Unanswered, HistoryOk, RoutingOk, BatchOk;
    RegisterHistory(s, x);
    RegisterRouting(s, x);
  }

  /** A new batch: refused at once, refused by the lock, without work, or scanning. */
  lemma ScanInv(s: State, command: Command, req: Request)
    requires Inv(s)
    ensures Inv(NewBatch(s, command, req))
  {
    hide RoutingOk, HistoryOk, Unanswered, Finish, NewRun, Register;
    var b: nat := s.lastBatch + 1;
    if req.Free? {
      RegisterInv(s, Accepted(command));
      if command.BasicScan? {
        NewRunInv(Register(s, Accepted(command)), b, {});
      } else {
        FinishInv(Register(s, Accepted(command)), b, {});
      }
    } else {
      RegisterInv(s, Refused(command));
      if req.Invalid? {
        FinishInv(Register(s, Refused(command)), b, {});
      }
    }
  }

  lemma StepInv(s: State, e: Event)
    requires Inv(s) && Enabled(s, e)
    ensures Inv(Step(s, e))
  {
    hide InvBut, NewBatch, GlobFeedSnmp;
    match e
    case Scan(command, req) => ScanInv(s, command, req);
    case Result(run, schemes) => ResultInv(s, run, schemes);
  }

  lemma InitInv()
    ensures Inv(Init())
  {}

  /** In every reachable state. */
  lemma {:induction false} Reachable(es: seq<Event>)
    requires Possible(es)
    ensures Inv(After(es))
  {
    hide InvBut, Step;
    if es == [] {
      InitInv();
    } else {
      Reachable(es[..|es| - 1]);
      StepInv(After(es[..|es| - 1]), es[|es| - 1]);
    }
  }

  /** The run ids mapped to a batch are exactly its unanswered runs, the batch is live, and they are
      exactly the runs whose result is under way. */
  lemma RoutingExact(es: seq<Event>, run: nat, b: nat)
    requires Possible(es)
    ensures var s := After(es);
            && (run in s.lut && s.lut[run] == b <==> b in s.batches && run in Unanswered(s.batches[b].results))
            && (run in s.sent <==> run in s.lut)
            && s.faults == 0
  {
    Reachable(es);
    var s := After(es);
    hide After, Possible, HistoryOk, Unanswered, BatchOk;
    assert run in s.lut <==> run in s.lut.Keys;
  }

  /** A batch finishes at most once; its lock is closed at most once, when no run is unanswered; and
      while it is live it is in its first or second phase. */
  lemma FinishesOnce(es: seq<Event>)
    requires Possible(es)
    ensures var s := After(es);
            && (forall i, j :: 0 <= i < j < |s.finished| ==> s.finished[i] != s.finished[j])
            && (forall b :: b in s.finished ==> b !in s.batches)
            && (forall i, j :: 0 <= i < j < |s.closings| ==> s.closings[i].batch != s.closings[j].batch)
            && (forall i :: 0 <= i < |s.closings| ==>
                              s.closings[i].outstanding == 0 && s.closings[i].batch in s.finished)
            && (forall b :: b in s.batches ==> s.batches[b].phases <= 2)
  {
    Reachable(es);
    var s := After(es);
    hide After, Possible, RoutingOk;
    assert forall b :: b in s.batches ==> BatchOk(s.batches[b]);
  }

  /** When no result is under way, every batch that got the lock has finished; what is left are
      batches that were refused the lock. */
  lemma Quiescent(es: seq<Event>)
    requires Possible(es) && After(es).sent == {}
    ensures forall b :: b in After(es).batches ==> !After(es).batches[b].hasLock
  {
    Reachable(es);
    var s := After(es);
    hide After, Possible;
    forall b | b in s.batches ensures !s.batches[b].hasLock {
      if s.batches[b].hasLock {
        ScanningWaits(s, b);
      }
    }
  }

  lemma ScanningWaits(s: State, b: nat)
    requires Inv(s) && b in s.batches && s.batches[b].hasLock
    ensures s.sent != {}
  {
    assert BatchOk(s.batches[b]);
    var r :| r in Unanswered(s.batches[b].results);
    assert r in s.lut.Keys;
  }

  lemma ResultKeepsOthers(s: State, c: nat, run: nat, schemes: nat, b: nat)
    requires c in s.batches && b in s.batches && b != c
    ensures b in FeedSnmp(s, c, run, schemes).batches && FeedSnmp(s, c, run, schemes).batches[b] == s.batches[b]
  {
    hide NewRuns;
    var x := s.batches[c].(results := s.batches[c].results[run := true]);
    var t := s.(batches := s.batches[c := x]);
    NewRunsOthers(InitRun(t, c, InitialScan), c, schemes, b);
  }

  lemma StepKeepsRefused(s: State, e: Event, b: nat)
    requires Inv(s) && Enabled(s, e) && b in s.batches && !s.batches[b].hasLock
    ensures b in Step(s, e).batches && Step(s, e).batches[b] == s.batches[b]
  {
    match e
    case Scan(command, req) =>
      RegisterHistory(s, Refused(command));
      hide InvBut;
    case Result(run, schemes) =>
      assert run in s.lut.Keys;
      AnswerRun(s, run, s.lut[run]);
      hide InvBut, FeedSnmp;
      ResultKeepsOthers(s.(sent := s.sent - {run}), s.lut[run], run, schemes, b);
  }

  lemma {:induction false} NewRunsOthers(s: State, b: nat, n: nat, other: nat)
    requires b in s.batches && other != b && other in s.batches
    ensures other in NewRuns(s, b, n).batches && NewRuns(s, b, n).batches[other] == s.batches[other]
  {
    if n > 0 { NewRunsOthers(s, b, n - 1, other); }
  }

  /** A batch that was refused the lock stays registered for ever: nothing finishes it. */
  lemma {:induction false} RefusedStays(es: seq<Event>, later: seq<Event>, b: nat)
    requires Possible(es) && Possible(es + later)
    requires b in After(es).batches && !After(es).batches[b].hasLock
    ensures b in After(es + later).batches && After(es + later).batches[b] == After(es).batches[b]
  {
    hide Step;
    if later == [] {
      assert es + later == es;
    } else {
      var init := later[..|later| - 1];
      assert (es + later)[..|es + later| - 1] == es + init;
      RefusedStays(es, init, b);
      Reachable(es + init);
      StepKeepsRefused(After(es + init), later[|later| - 1], b);
    }
  }

  /** Not registered, or with the lock: so it stays, because a batch without lock is never made of it. */
  ghost predicate NotRefused(s: State, b: nat) { b in s.batches ==> s.batches[b].hasLock }

  lemma {:induction false} NewRunsLocks(s: State, b: nat, n: nat, c: nat)
    requires b in s.batches && NotRefused(s, c)
    ensures NotRefused(NewRuns(s, b, n), c) && NewRuns(s, b, n).lastBatch == s.lastBatch
  {
    if n > 0 { NewRunsLocks(s, b, n - 1, c); }
  }

  lemma FeedLocks(s: State, b: nat, run: nat, schemes: nat, c: nat)
    requires b in s.batches && NotRefused(s, c)
    ensures NotRefused(FeedSnmp(s, b, run, schemes), c) && FeedSnmp(s, b, run, schemes).lastBatch == s.lastBatch
  {
    hide NewRuns;
    var x := s.batches[b].(results := s.batches[b].results[run := true]);
    NewRunsLocks(InitRun(s.(batches := s.batches[b := x]), b, InitialScan), b, schemes, c);
  }

  lemma StepLocks(s: State, e: Event, b: nat)
    requires Enabled(s, e) && b <= s.lastBatch && NotRefused(s, b)
    ensures NotRefused(Step(s, e), b) && b <= Step(s, e).lastBatch
  {
    if e.Result? && e.run in s.lut && s.lut[e.run] in s.batches {
      FeedLocks(s.(sent := s.sent - {e.run}), s.lut[e.run], e.run, e.schemes, b);
      hide FeedSnmp;
    }
  }

  lemma {:induction false} StaysNotRefused(es: seq<Event>, later: seq<Event>, b: nat)
    requires Possible(es) && Possible(es + later) && b <= After(es).lastBatch && NotRefused(After(es), b)
    ensures NotRefused(After(es + later), b) && b <= After(es + later).lastBatch
  {
    hide Step, NotRefused;
    if later == [] {
      assert es + later == es;
    } else {
      var init := later[..|later| - 1];
      assert (es + later)[..|es + later| - 1] == es + init;
      StaysNotRefused(es, init, b);
      StepLocks(After(es + init), later[|later| - 1], b);
    }
  }

  lemma ScanResult(s: State, command: Command, req: Request)
    requires Inv(s)
    ensures var t, b := Step(s, Scan(command, req)), s.lastBatch + 1;
            && b <= t.lastBatch
            && (if req.Locked? then b in t.batches && !t.batches[b].hasLock else NotRefused(t, b))
  {
    RegisterHistory(s, Refused(command));
    hide InvBut;
  }

  lemma AfterScan(es: seq<Event>, e: Event, later: seq<Event>)
    requires Possible(es + [e] + later)
    ensures Possible(es) && Possible(es + [e]) && Enabled(After(es), e) && After(es + [e]) == Step(After(es), e)
    decreases |later|
  {
    var all := es + [e] + later;
    if later == [] {
      assert all == es + [e] && (es + [e])[..|es|] == es;
    } else {
      assert all[..|all| - 1] == es + [e] + later[..|later| - 1];
      AfterScan(es, e, later[..|later| - 1]);
    }
  }

  /** A requested scan leaves its batch behind for ever exactly if the device was locked: whatever
      happens later, once no result is under way the batch is still registered exactly then. */
  lemma LeftBehindExactly(es: seq<Event>, command: Command, req: Request, later: seq<Event>)
    requires Possible(es + [Scan(command, req)] + later) && After(es + [Scan(command, req)] + later).sent == {}
    ensures Possible(es)
    ensures After(es).lastBatch + 1 in After(es + [Scan(command, req)] + later).batches <==> req.Locked?
  {
    var e := Scan(command, req);
    AfterScan(es, e, later);
    Reachable(es);
    var b := After(es).lastBatch + 1;
    ScanResult(After(es), command, req);
    hide Step, InvBut;
    if req.Locked? {
      RefusedStays(es + [e], later, b);
    } else {
      StaysNotRefused(es + [e], later, b);
      Quiescent(es + [e] + later);
    }
  }

  /** A scan of a locked device: its batch is registered, and nothing is under way. */
  lemma LockedScanStays()
    ensures var es := [Scan(BasicScan, Locked)];
            Possible(es) && After(es).sent == {} && 1 in After(es).batches
  {
    var es := [Scan(BasicScan, Locked)];
    assert es[..0] == [] && Possible([]) && After([]) == Init();
  }

  // ----- every lock is closed -----

  /** The batches that hold a lock, and those whose lock was closed. */
  function Holders(s: State): set<nat> { set b | b in s.batches && s.batches[b].hasLock }

  function ClosedBy(closings: seq<Closing>): set<nat> { set c | c in closings :: c.batch }

  function Owners(s: State): set<nat> { Holders(s) + ClosedBy(s.closings) }

  /** The batches that found their device free. */
  ghost function Granted(es: seq<Event>): set<nat>
    requires Possible(es)
  {
    if es == [] then {}
    else
      var before, e := es[..|es| - 1], es[|es| - 1];
      if e.Scan? && e.req.Free? then Granted(before) + {After(before).lastBatch + 1} else Granted(before)
  }

  lemma ClosedBySnoc(closings: seq<Closing>, c: Closing)
    ensures ClosedBy(closings + [c]) == ClosedBy(closings) + {c.batch}
  {
    assert forall x :: x in closings + [c] <==> x in closings || x == c;
  }

  lemma FinishOwners(s: State, b: nat)
    requires b in s.batches
    ensures Owners(Finish(s, b)) == Owners(s)
  {
    var x, t := s.batches[b], Finish(s, b);
    ClosedBySnoc(s.closings, Closing(b, |Unanswered(x.results)|));
    hide ClosedBy;
    assert Holders(t) == Holders(s) - {b};
    assert b in Holders(s) <==> x.hasLock;
  }

  lemma ReplaceOwners(s: State, b: nat, x: Batch)
    requires b in s.batches && x.hasLock == s.batches[b].hasLock
    ensures Holders(s.(batches := s.batches[b := x])) == Holders(s)
  {}

  lemma {:induction false} NewRunsOwners(s: State, b: nat, n: nat)
    requires b in s.batches
    ensures Owners(NewRuns(s, b, n)) == Owners(s)
  {
    if n > 0 {
      NewRunsOwners(s, b, n - 1);
      var t := NewRuns(s, b, n - 1);
      hide NewRuns, ClosedBy;
      ReplaceOwners(t, b, NewRun(t, b).batches[b]);
    }
  }

  lemma RegisterOwners(s: State, x: Batch)
    requires s.lastBatch + 1 !in s.batches
    ensures Owners(Register(s, x)) == Owners(s) + if x.hasLock then {s.lastBatch + 1} else {}
  {
    hide ClosedBy;
    var b, t := s.lastBatch + 1, Register(s, x);
    assert Holders(t) == Holders(s) + if x.hasLock then {b} else {};
  }

  lemma FeedOwners(s: State, b: nat, run: nat, schemes: nat)
    requires b in s.batches
    ensures Owners(FeedSnmp(s, b, run, schemes)) == Owners(s)
  {
    hide NewRuns, ClosedBy, Finish;
    var x := s.batches[b].(results := s.batches[b].results[run := true]);
    var t := s.(batches := s.batches[b := x]);
    ReplaceOwners(s, b, x);
    var u := InitRun(t, b, InitialScan);
    ReplaceOwners(t, b, u.batches[b]);
    hide Holders;
    NewRunsOwners(u, b, schemes);
    FinishOwners(t, b);
  }

  lemma ScanOwners(s: State, command: Command, req: Request)
    requires s.lastBatch + 1 !in s.batches
    ensures Owners(NewBatch(s, command, req)) == Owners(s) + if req.Free? then {s.lastBatch + 1} else {}
  {
    var b: nat := s.lastBatch + 1;
    RegisterOwners(s, Accepted(command));
    RegisterOwners(s, Refused(command));
    FinishOwners(Register(s, Refused(command)), b);
    FinishOwners(Register(s, Accepted(command)), b);
    NewRunsOwners(Register(s, Accepted(command)), b, 1);
    assert NewRuns(Register(s, Accepted(command)), b, 1) == NewRun(Register(s, Accepted(command)), b);
    hide Owners, Finish, NewRun, NewRuns, Register;
  }

  lemma StepOwners(s: State, e: Event)
    requires Inv(s) && Enabled(s, e)
    ensures Owners(Step(s, e)) == Owners(s) + if e.Scan? && e.req.Free? then {s.lastBatch + 1} else {}
  {
    match e
    case Scan(command, req) =>
      RegisterHistory(s, Refused(command));
      hide InvBut, NewBatch, Owners;
      ScanOwners(s, command, req);
    case Result(run, schemes) =>
      ResultInv(s, run, schemes);
      hide InvBut, FeedSnmp;
      FeedOwners(s.(sent := s.sent - {run}), s.lut[run], run, schemes);
  }

  /** In every reachable state each batch that was given a lock holds it or has closed it, and not
      both; no other batch holds or closes one. */
  lemma {:induction false} LocksExact(es: seq<Event>)
    requires Possible(es)
    ensures Granted(es) == Holders(After(es)) + ClosedBy(After(es).closings)
    ensures Holders(After(es)) !! ClosedBy(After(es).closings)
  {
    Reachable(es);
    hide Step;
    if es != [] {
      var before := es[..|es| - 1];
      LocksExact(before);
      Reachable(before);
      StepOwners(After(before), es[|es| - 1]);
    }
    ClosedNotLive(After(es));
    hide After, Granted, InvBut, Holders, ClosedBy;
  }

  lemma ClosedNotLive(s: State)
    requires Inv(s)
    ensures Holders(s) !! ClosedBy(s.closings)
  {
    hide RoutingOk, BatchOk;
    forall c | c in s.closings ensures c.batch !in s.batches {
      var i :| 0 <= i < |s.closings| && s.closings[i] == c;
    }
  }

  lemma {:induction false} GrantedBound(es: seq<Event>, later: seq<Event>, b: nat)
    requires Possible(es) && Possible(es + later) && b <= After(es).lastBatch
    ensures b <= After(es + later).lastBatch && (b in Granted(es + later) <==> b in Granted(es))
  {
    hide Step;
    if later == [] {
      assert es + later == es;
    } else {
      var init := later[..|later| - 1];
      assert (es + later)[..|es + later| - 1] == es + init;
      GrantedBound(es, init, b);
      LastBatchGrows(After(es + init), later[|later| - 1]);
    }
  }

  lemma LastBatchGrows(s: State, e: Event)
    requires Enabled(s, e)
    ensures Step(s, e).lastBatch == s.lastBatch + if e.Scan? then 1 else 0
  {
    if e.Result? && e.run in s.lut && s.lut[e.run] in s.batches {
      var b := s.lut[e.run];
      var x := s.batches[b].(results := s.batches[b].results[e.run := true]);
      var t := s.(sent := s.sent - {e.run}, batches := s.batches[b := x]);
      NewRunsLastBatch(InitRun(t, b, InitialScan), b, e.schemes);
      hide NewRuns;
    }
  }

  lemma {:induction false} NewRunsLastBatch(s: State, b: nat, n: nat)
    requires b in s.batches
    ensures NewRuns(s, b, n).lastBatch == s.lastBatch
  {
    if n > 0 { NewRunsLastBatch(s, b, n - 1); }
  }

  lemma {:induction false} GrantedBelow(es: seq<Event>, b: nat)
    requires Possible(es) && b in Granted(es)
    ensures b <= After(es).lastBatch
  {
    hide Step;
    var before := es[..|es| - 1];
    LastBatchGrows(After(before), es[|es| - 1]);
    if b in Granted(before) { GrantedBelow(before, b); }
  }

  /** The lock of b was closed exactly once, with no run unanswered. */
  ghost predicate ClosedOnce(cs: seq<Closing>, b: nat) {
    exists i :: 0 <= i < |cs| && cs[i] == Closing(b, 0) && forall j :: 0 <= j < |cs| && cs[j].batch == b ==> j == i
  }

  lemma ClosingOf(cs: seq<Closing>, b: nat)
    requires forall i, j :: 0 <= i < j < |cs| ==> cs[i].batch != cs[j].batch
    requires forall i :: 0 <= i < |cs| ==> cs[i].outstanding == 0
    ensures if b in ClosedBy(cs) then ClosedOnce(cs, b) else forall j :: 0 <= j < |cs| ==> cs[j].batch != b
  {
    if b in ClosedBy(cs) {
      var i :| 0 <= i < |cs| && cs[i].batch == b;
      forall j | 0 <= j < |cs| && cs[j].batch == b ensures j == i {}
      assert cs[i] == Closing(b, 0);
    } else {
      forall j | 0 <= j < |cs| ensures cs[j].batch != b { assert cs[j] in cs; }
    }
  }

  /** The batch of a scan is given a lock exactly if its device is free. */
  lemma GrantedExactly(es: seq<Event>, command: Command, req: Request, later: seq<Event>)
    requires Possible(es + [Scan(command, req)] + later)
    ensures Possible(es) && (After(es).lastBatch + 1 in Granted(es + [Scan(command, req)] + later) <==> req.Free?)
  {
    hide *;
    var e := Scan(command, req);
    AfterScan(es, e, later);
    var b := After(es).lastBatch + 1;
    LastBatchGrows(After(es), e);
    GrantedSnoc(es, e);
    if b in Granted(es) { GrantedBelow(es, b); }
    GrantedBound(es + [e], later, b);
  }

  lemma GrantedSnoc(es: seq<Event>, e: Event)
    requires Possible(es) && Possible(es + [e])
    ensures Granted(es + [e]) == Granted(es) + if e.Scan? && e.req.Free? then {After(es).lastBatch + 1} else {}
  {
    hide After;
    assert (es + [e])[..|es|] == es;
    assert Granted(es) + {} == Granted(es);
  }

  /** With no result under way, the lock of every batch that was given one was closed exactly once. */
  lemma ClosedAtEnd(es: seq<Event>, b: nat)
    requires Possible(es) && After(es).sent == {}
    ensures var cs := After(es).closings;
            if b in Granted(es) then ClosedOnce(cs, b) else forall j :: 0 <= j < |cs| ==> cs[j].batch != b
  {
    LocksExact(es);
    Quiescent(es);
    FinishesOnce(es);
    var s := After(es);
    assert Holders(s) == {};
    hide *;
    ClosingOf(s.closings, b);
  }

  /** The device lock: whatever happens before and later, once no result is under way the lock of a
      requested scan was closed exactly once, with no run unanswered, if the device was free; in the
      other cases there is nothing to close. */
  lemma LockClosedExactly(es: seq<Event>, command: Command, req: Request, later: seq<Event>)
    requires Possible(es + [Scan(command, req)] + later) && After(es + [Scan(command, req)] + later).sent == {}
    ensures Possible(es)
    ensures var b, cs := After(es).lastBatch + 1, After(es + [Scan(command, req)] + later).closings;
            if req.Free? then ClosedOnce(cs, b) else forall j :: 0 <= j < |cs| ==> cs[j].batch != b
  {
    hide *;
    GrantedExactly(es, command, req, later);
    ClosedAtEnd(es + [Scan(command, req)] + later, After(es).lastBatch + 1);
  }

  // ----- what a result does -----

  /** The n ids after the last one. */
  function NewIds(last: nat, n: nat): set<nat> { if n == 0 then {} else NewIds(last, n - 1) + {last + n} }

  lemma {:induction false} NewRunsExact(s: State, b: nat, n: nat)
    requires b in s.batches
    ensures var t := NewRuns(s, b, n);
            && t.lastRun == s.lastRun + n && t.sent == s.sent + NewIds(s.lastRun, n) && t.finished == s.finished
            && t.batches[b] == s.batches[b].(results := t.batches[b].results)
            && (forall r :: r in t.batches[b].results ==>
                              r in NewIds(s.lastRun, n) ||
                              (r in s.batches[b].results && t.batches[b].results[r] == s.batches[b].results[r]))
            && (forall r :: r in NewIds(s.lastRun, n) ==> r in t.batches[b].results && !t.batches[b].results[r])
  {
    if n > 0 {
      NewRunsExact(s, b, n - 1);
    }
  }

  /** What a requested scan does: an invalid one and one of an unknown command are finished at once,
      that of a locked device is registered and does nothing, and a basic scan of a free device holds
      the lock and waits for one new run. Other batches and their runs are as before. */
  ghost predicate Scanned(s: State, command: Command, req: Request, t: State) {
    var b, starts := s.lastBatch + 1, req.Free? && command.BasicScan?;
    && t.lastBatch == b && b !in s.batches && b !in s.finished
    && (forall c :: c in s.batches ==> c in t.batches && t.batches[c] == s.batches[c])
    && (t.finished == s.finished + if req.Invalid? || (req.Free? && !command.BasicScan?) then [b] else [])
    && (b in t.batches <==> req.Locked? || starts)
    && (b in t.batches ==> t.batches[b].command == command && t.batches[b].hasLock == req.Free?)
    && (b in t.batches ==> t.batches[b].results == if starts then map[s.lastRun + 1 := false] else map[])
    && s.lastRun + 1 !in s.sent && (t.sent == s.sent + if starts then {s.lastRun + 1} else {})
  }

  lemma FreshIds(s: State)
    requires Inv(s)
    ensures s.lastBatch + 1 !in s.batches && s.lastBatch + 1 !in s.finished && s.lastRun + 1 !in s.sent
  {
    hide BatchOk, Unanswered;
    var run: nat := s.lastRun + 1;
    assert run !in s.lut.Keys;
  }

  lemma ScanSteps(s: State, command: Command, req: Request)
    requires s.lastBatch + 1 !in s.batches && s.lastBatch + 1 !in s.finished && s.lastRun + 1 !in s.sent
    ensures Scanned(s, command, req, NewBatch(s, command, req))
  {
    hide Unanswered;
    assert s.finished + [] == s.finished && s.sent + {} == s.sent;
  }

  lemma ScanEffect(es: seq<Event>, command: Command, req: Request)
    requires Possible(es)
    ensures Scanned(After(es), command, req, Step(After(es), Scan(command, req)))
  {
    Reachable(es);
    hide After, Possible, Inv, Scanned, NewBatch;
    FreshIds(After(es));
    ScanSteps(After(es), command, req);
  }

  /** What the result of a run of batch b does: for a batch that waits for others it is stored. The last
      one of a basic scan that found schemes with an initial scan starts a second phase with one run for
      each of them; any other last one finishes the batch. */
  ghost predicate Handled(s: State, b: nat, run: nat, schemes: nat, t: State)
    requires b in s.batches
  {
    var waiting := Unanswered(s.batches[b].results) - {run};
    if waiting != {} then
      && b in t.batches && t.lastRun == s.lastRun && t.finished == s.finished
      && t.batches[b].command == s.batches[b].command && Unanswered(t.batches[b].results) == waiting
    else if s.batches[b].command.BasicScan? && schemes > 0 then
      && b in t.batches && t.lastRun == s.lastRun + schemes && t.finished == s.finished
      && t.batches[b].command == InitialScan && t.batches[b].results.Keys == NewIds(s.lastRun, schemes)
      && Unanswered(t.batches[b].results) == NewIds(s.lastRun, schemes) <= t.sent
    else b !in t.batches && t.finished == s.finished + [b]
  }

  lemma ResultEffect(es: seq<Event>, run: nat, schemes: nat)
    requires Possible(es) && run in After(es).sent
    ensures var s := After(es);
            && run in s.lut && s.lut[run] in s.batches && run in Unanswered(s.batches[s.lut[run]].results)
            && Handled(s, s.lut[run], run, schemes, Step(s, Result(run, schemes)))
  {
    Reachable(es);
    var s := After(es);
    hide After, Possible;
    SentRun(s, run);
    hide Inv, FeedSnmp, Unanswered, NewIds;
    FeedEffect(s.(sent := s.sent - {run}), s.lut[run], run, schemes);
  }

  lemma SentRun(s: State, run: nat)
    requires Inv(s) && run in s.sent
    ensures run in s.lut && s.lut[run] in s.batches && run in Unanswered(s.batches[s.lut[run]].results)
  {
    hide HistoryOk, BatchOk, Unanswered;
    assert run in s.lut.Keys;
  }

  lemma FeedEffect(s: State, b: nat, run: nat, schemes: nat)
    requires b in s.batches
    ensures Handled(s, b, run, schemes, FeedSnmp(s, b, run, schemes))
  {
    hide NewRuns;
    var x := s.batches[b].(results := s.batches[b].results[run := true]);
    var t := s.(batches := s.batches[b := x]);
    assert Unanswered(x.results) == Unanswered(s.batches[b].results) - {run};
    AnsweredIsEmpty(x.results);
    hide AllAnswered, Unanswered, NewIds;
    SecondPhase(t, b, schemes);
  }

  lemma SecondPhase(t: State, b: nat, schemes: nat)
    requires b in t.batches
    ensures var u, ids := NewRuns(InitRun(t, b, InitialScan), b, schemes), NewIds(t.lastRun, schemes);
            && b in u.batches && u.lastRun == t.lastRun + schemes && u.finished == t.finished
            && u.batches[b].command == InitialScan && u.batches[b].results.Keys == ids
            && Unanswered(u.batches[b].results) == ids <= u.sent
  {
    hide NewRuns, NewIds;
    NewRunsExact(InitRun(t, b, InitialScan), b, schemes);
    var results, ids := NewRuns(InitRun(t, b, InitialScan), b, schemes).batches[b].results, NewIds(t.lastRun, schemes);
    assert results.Keys == ids;
    assert Unanswered(results) == ids;
  }

  // ----- the code -----

  class SnmpServer {
    var batchDict: map<nat, Batch>
    var runBatchLut: map<nat, nat>
    var lastBatch: nat
    var lastRun: nat
    ghost var sent: set<nat>
    ghost var finished: seq<nat>
    ghost var closings: seq<Closing>

    ghost function View(): State
      reads this
    {
      State(batchDict, runBatchLut, lastBatch, lastRun, sent, finished, closings, 0)
    }

    ghost predicate Valid()
      reads this
    {
      Inv(View())
    }

    constructor ()
      ensures Valid() && View() == Init()
    {
      batchDict, runBatchLut, lastBatch, lastRun := map[], map[], 0, 0;
      sent, finished, closings := {}, [], [];
      new;
      InitInv();
    }

    /** new_run and next_snmp_run_id */
    method StartRun(b: nat)
      requires b in batchDict
      modifies this`batchDict, this`runBatchLut, this`lastRun, this`sent
      ensures View() == NewRun(old(View()), b)
    {
      lastRun := lastRun + 1;
      runBatchLut := runBatchLut[lastRun := b];
      var x := batchDict[b];
      batchDict := batchDict[b := x.(results := x.results[lastRun := false])];
      sent := sent + {lastRun};
    }

    /** One run per scheme. */
    method StartRuns(b: nat, n: nat)
      requires b in batchDict
      modifies this`batchDict, this`runBatchLut, this`lastRun, this`sent
      ensures View() == NewRuns(old(View()), b, n)
    {
      hide NewRun;
      for i := 0 to n
        invariant View() == NewRuns(old(View()), b, i)
      {
        StartRun(b);
      }
    }

    /** init_run */
    method ResetRun(b: nat, command: Command)
      requires b in batchDict
      modifies this`batchDict
      ensures View() == InitRun(old(View()), b, command) && b in batchDict
    {
      var x := batchDict[b];
      batchDict := batchDict[b := x.(command := command, results := map[], phases := x.phases + 1)];
    }

    /** finish and remove_batch: the lock is closed if there is one. */
    method FinishBatch(b: nat)
      requires b in batchDict
      modifies this`batchDict, this`finished, this`closings
      ensures View() == Finish(old(View()), b)
    {
      if batchDict[b].hasLock {
        closings := closings + [Closing(b, |Unanswered(batchDict[b].results)|)];
      }
      batchDict := batchDict - {b};
      finished := finished + [b];
    }

    method AddBatch(x: Batch) returns (b: nat)
      modifies this`batchDict, this`lastBatch
      ensures View() == Register(old(View()), x) && b == old(lastBatch) + 1 && b in batchDict
    {
      lastBatch := lastBatch + 1;
      b := lastBatch;
      batchDict := batchDict[b := x];
    }

    method StartScan(command: Command, req: Request)
      requires Valid()
      modifies this
      ensures Valid() && View() == Step(old(View()), Scan(command, req))
    {
      StepInv(View(), Scan(command, req));
      hide InvBut, NewRun, Finish, Register, Accepted, Refused;
      if req.Free? {
        var b := AddBatch(Accepted(command));
        if command.BasicScan? {
          StartRun(b);
        } else {
          FinishBatch(b);
        }
      } else {
        var b := AddBatch(Refused(command));
        if req.Invalid? {
          FinishBatch(b);
        }
      }
    }

    /** feed_snmp and check_for_result; schemes: how many of the found schemes want an initial scan. */
    method Feed(b: nat, run: nat, schemes: nat)
      requires b in batchDict
      modifies this
      ensures View() == FeedSnmp(old(View()), b, run, schemes)
    {
      hide NewRuns, Finish, InitRun;
      var x := batchDict[b];
      batchDict := batchDict[b := x.(results := x.results[run := true])];
      if AllAnswered(batchDict[b].results) {
        if batchDict[b].command.BasicScan? && schemes > 0 {
          ResetRun(b, InitialScan);
          StartRuns(b, schemes);
        } else {
          FinishBatch(b);
        }
      }
    }

    /** glob_feed_snmp: a result arrives and finds its batch; the table entry is removed last. */
    method GlobFeed(run: nat, schemes: nat)
      requires Valid() && run in sent
      modifies this
      ensures Valid() && View() == Step(old(View()), Result(run, schemes))
    {
      ResultInv(View(), run, schemes);
      hide InvBut, FeedSnmp;
      sent := sent - {run};
      Feed(runBatchLut[run], run, schemes);
      runBatchLut := runBatchLut - {run};
    }
  }
}
