/** Config server: what holds in every reachable state of the two processes. */
module ConfigProtocol {
  import opened ConfigServer
  import opened Enumeration

  // ----- messages under way -----

  function Tokens<M, T>(q: seq<M>, f: M -> multiset<T>): multiset<T> {
    if q == [] then multiset{} else f(q[0]) + Tokens(q[1..], f)
  }

  lemma {:induction false} TokensAppend<M, T>(a: seq<M>, b: seq<M>, f: M -> multiset<T>)
    ensures Tokens(a + b, f) == Tokens(a, f) + Tokens(b, f)
  {
    if a == [] {
      assert a + b == b;
    } else {
      assert (a + b)[1..] == a[1..] + b;
      TokensAppend(a[1..], b, f);
    }
  }

  lemma TokensPush<M, T>(q: seq<M>, m: M, f: M -> multiset<T>)
    ensures Tokens(q + [m], f) == Tokens(q, f) + f(m)
  {
    TokensAppend(q, [m], f);
    assert [m][1..] == [];
  }

  lemma TokensPop<M, T>(q: seq<M>, f: M -> multiset<T>)
    requires q != []
    ensures Tokens(q, f) == f(q[0]) + Tokens(q[1..], f)
  {}

  lemma SetSum<T>(a: set<T>, b: set<T>)
    requires a !! b
    ensures multiset(a + b) == multiset(a) + multiset(b)
  {}

  lemma SetLess<T>(a: set<T>, x: T)
    requires x in a
    ensures multiset(a - {x}) + multiset{x} == multiset(a)
  {}

  lemma Cancel<T>(a: multiset<T>, b: multiset<T>, m: multiset<T>)
    requires a + m == b + m
    ensures a == b
  {
    forall x ensures a[x] == b[x] {
      assert (a + m)[x] == (b + m)[x];
    }
  }

  // Builds are identified by command and device, delayed requests by queue id.
  function GenToken(): ToBuild -> multiset<(nat, nat)> {
    (m: ToBuild) => if m.GenerateConfig? then multiset{(m.run, m.dev)} else multiset{}
  }
  function UpdToken(): ToMain -> multiset<(nat, nat)> {
    (m: ToMain) => if m.ClientUpdate? then multiset{(m.run, m.dev)} else multiset{}
  }
  function ReqToken(): ToBuild -> multiset<nat> {
    (m: ToBuild) => if m.ComplexRequest? then multiset{m.queueId} else multiset{}
  }
  function ResToken(): ToMain -> multiset<nat> {
    (m: ToMain) => if m.ComplexResult? then multiset{m.queueId} else multiset{}
  }

  function BuildsUnderWay(s: State): multiset<(nat, nat)> {
    Tokens(s.toBuild, GenToken()) + Tokens(s.toMain, UpdToken())
  }

  function DelayedUnderWay(s: State): multiset<nat> {
    Tokens(s.toBuild, ReqToken()) + Tokens(s.toMain, ResToken())
  }

  // ----- the invariant -----

  /** Device entries of pending commands that are not done. */
  function Outstanding(table: map<nat, Command>): set<(nat, nat)> {
    set r, d | r in table && d in table[r].state && !table[r].state[d].Done? :: (r, d)
  }

  /** Queued requests that wait for a result of the build process. */
  function Delayed(queue: map<nat, Entry>): set<nat> {
    set q | q in queue && !queue[q].kind.BuildConfig?
  }

  ghost predicate CommandOk(cmd: Command) {
    && !AllDone(cmd.state) && Distinct(cmd.order)
    && (forall d :: d in cmd.state <==> d in cmd.order)
    && (forall d :: d in cmd.state ==> !cmd.state[d].PreInit?)
  }

  /** Every command received is either pending or was answered, once. */
  ghost predicate CommandsOk(c: Commands) {
    && (forall r :: r in c.table ==> 1 <= r <= c.runIdx && r !in c.answered && CommandOk(c.table[r]))
    && (forall r :: r in c.answered ==> 1 <= r <= c.runIdx)
    && (forall r: nat :: 1 <= r <= c.runIdx ==> r in c.table || r in c.answered)
    && Distinct(c.answered)
  }

  ghost predicate IsBuild(c: Control, q: nat, d: nat) {
    q in c.queue && c.queue[q].kind.BuildConfig? && c.queue[q].req.dev == d
  }

  /** A device is pending exactly if one build request for it is queued; it is not done then. */
  ghost predicate BuildsOk(c: Control) {
    && (forall q :: q in c.queue ==> 1 <= q <= c.queueNum)
    && (forall d :: d in c.pending <==> exists q :: IsBuild(c, q, d))
    && (forall q, q', d :: IsBuild(c, q, d) && IsBuild(c, q', d) ==> q == q')
    && c.pending !! c.done.Keys
  }

  ghost predicate IsFor(t: map<nat, Command>, r: nat, q: nat) {
    r in t && t[r].origin == Origin.Control(q)
  }

  /** Queued build requests and commands of config_control belong together one to one. */
  ghost predicate LinkOk(t: map<nat, Command>, c: Control) {
    && (forall r, q :: IsFor(t, r, q) ==>
                         q in c.queue && c.queue[q].kind.BuildConfig? && t[r].order == [c.queue[q].req.dev])
    && (forall q :: q in c.queue && c.queue[q].kind.BuildConfig? ==> exists r :: IsFor(t, r, q))
    && (forall r, r', q :: IsFor(t, r, q) && IsFor(t, r', q) ==> r == r')
  }

  /** Each build outcome is waiting for its device or was delivered, once. */
  ghost predicate OutcomesOk(c: Control) {
    && (forall d :: d in c.done ==> var q := c.done[d].queueId;
                                    1 <= q <= c.queueNum && q !in c.queue && q !in c.delivered)
    && (forall d, d' :: d in c.done && d' in c.done && c.done[d].queueId == c.done[d'].queueId ==> d == d')
    && (forall q :: q in c.delivered ==> 1 <= q <= c.queueNum && q !in c.queue)
    && Distinct(c.delivered)
  }

  ghost predicate Replied(c: Control, n: nat) {
    exists i :: 0 <= i < |c.replies| && c.replies[i].no == n
  }

  ghost predicate WaitsFor(c: Control, q: nat, n: nat) {
    q in c.queue && !c.queue[q].kind.BuildConfig? && c.queue[q].req.no == n
  }

  /** Every node request was answered once, at the id that asked, or its one delayed entry waits. */
  ghost predicate RepliesOk(c: Control) {
    && (forall i :: 0 <= i < |c.replies| ==>
                      c.replies[i].no < |c.asked| && c.replies[i].zmqId == c.asked[c.replies[i].no])
    && (forall i, j :: 0 <= i < j < |c.replies| ==> c.replies[i].no != c.replies[j].no)
    && (forall q :: q in c.queue ==>
                      c.queue[q].req.no < |c.asked| && c.queue[q].req.zmqId == c.asked[c.queue[q].req.no])
    && (forall q, n :: WaitsFor(c, q, n) ==> !Replied(c, n))
    && (forall q, q', n :: WaitsFor(c, q, n) && WaitsFor(c, q', n) ==> q == q')
    && (forall n: nat :: n < |c.asked| ==> Replied(c, n) || exists q :: WaitsFor(c, q, n))
  }

  /** Each outstanding build and each delayed request is under way in exactly one message. */
  ghost predicate FlowOk(s: State) {
    && BuildsUnderWay(s) == multiset(Outstanding(s.cmds.table))
    && DelayedUnderWay(s) == multiset(Delayed(s.ctl.queue))
  }

  ghost predicate Inv(s: State) {
    && FlowOk(s) && CommandsOk(s.cmds) && BuildsOk(s.ctl) && LinkOk(s.cmds.table, s.ctl)
    && OutcomesOk(s.ctl) && RepliesOk(s.ctl)
    && s.faults == 0
  }

  // ----- effect of the command handlers -----

  lemma {:induction false} FreshAll(order: seq<nat>, state: map<nat, DevState>)
    requires forall d :: d in order ==> d in state && state[d].PreInit?
    ensures Fresh(order, state) == order
  {
    if order != [] {
      FreshAll(order[..|order| - 1], state);
      assert order == order[..|order| - 1] + [order[|order| - 1]];
    }
  }

  lemma {:induction false} FreshNone(order: seq<nat>, state: map<nat, DevState>)
    requires forall d :: d in state ==> !state[d].PreInit?
    ensures Fresh(order, state) == []
  {
    if order != [] {
      FreshNone(order[..|order| - 1], state);
    }
  }

  function NewCommand(origin: Origin, devs: seq<nat>): Command {
    Command(origin, devs, AllIn(devs, Generating))
  }

  lemma AllGenerating(devs: seq<nat>)
    ensures SetGenerating(AllIn(devs, PreInit)) == AllIn(devs, Generating)
    ensures devs != [] ==> !AllDone(AllIn(devs, Generating))
  {
    hide AllIn;
    assert devs != [] ==> devs[0] in AllIn(devs, Generating);
  }

  lemma HandleNewCommand(s: State, run: nat, origin: Origin, devs: seq<nat>)
    requires devs != [] && run in s.cmds.table && s.cmds.table[run] == Command(origin, devs, AllIn(devs, PreInit))
    ensures HandleCommand(s, run) ==
            s.(cmds := s.cmds.(table := s.cmds.table[run := NewCommand(origin, devs)]),
               toBuild := s.toBuild + Generates(run, devs))
  {
    FreshAll(devs, AllIn(devs, PreInit));
    AllGenerating(devs);
    hide AllIn, SendReturn, AllDone, SetGenerating, Fresh, Generates;
  }

  /** A command for at least one device sends one generate_config per device and stays pending. */
  lemma WfeEffect(s: State, origin: Origin, devs: seq<nat>)
    requires devs != []
    ensures var run: nat := s.cmds.runIdx + 1;
            HandleWfeCommand(s, origin, devs) ==
            s.(cmds := Commands(s.cmds.table[run := NewCommand(origin, devs)], run, s.cmds.answered),
               toBuild := s.toBuild + Generates(run, devs))
  {
    hide AllIn, HandleCommand, NewCommand, Generates;
    var run: nat := s.cmds.runIdx + 1;
    var cmd := Command(origin, devs, AllIn(devs, PreInit));
    var u: map<nat, Command> := s.cmds.table[run := cmd];
    HandleNewCommand(s.(cmds := s.cmds.(runIdx := run, table := u)), run, origin, devs);
    assert u[run := NewCommand(origin, devs)] == s.cmds.table[run := NewCommand(origin, devs)];
  }

  /** A command for no device is answered at once. */
  lemma WfeEmpty(s: State, uuid: string)
    requires s.cmds.runIdx + 1 !in s.cmds.table
    ensures var run: nat := s.cmds.runIdx + 1;
            HandleWfeCommand(s, External(uuid), []) ==
            s.(cmds := Commands(s.cmds.table, run, s.cmds.answered + [run]))
  {
    var run: nat := s.cmds.runIdx + 1;
    var cmd := Command(External(uuid), [], map[]);
    assert SetGenerating(map[]) == map[];
    var u: map<nat, Command> := s.cmds.table[run := cmd];
    assert u[run := cmd] - {run} == s.cmds.table;
    assert s.toBuild + Generates(run, []) == s.toBuild;
  }

  lemma UpdateEffect(s: State, run: nat, dev: nat, good: bool)
    requires run in s.cmds.table && forall d :: d in s.cmds.table[run].state ==> !s.cmds.table[run].state[d].PreInit?
    ensures var cmd := s.cmds.table[run].(state := s.cmds.table[run].state[dev := Done(good)]);
            var t := s.(cmds := s.cmds.(table := s.cmds.table[run := cmd]));
            HandleClientUpdate(s, run, dev, good) == if AllDone(cmd.state) then SendReturn(t, run) else t
  {
    var cmd := s.cmds.table[run].(state := s.cmds.table[run].state[dev := Done(good)]);
    FreshNone(cmd.order, cmd.state);
    assert SetGenerating(cmd.state) == cmd.state;
    assert s.toBuild + Generates(run, []) == s.toBuild;
    var t := s.cmds.table[run := cmd];
    assert t[run := cmd] == t;
  }

  // ----- conservation of builds -----

  function Pairs(run: nat, devs: seq<nat>): set<(nat, nat)> { set d | d in devs :: (run, d) }

  lemma {:induction false} GenerateTokens(run: nat, devs: seq<nat>)
    requires Distinct(devs)
    ensures Tokens(Generates(run, devs), GenToken()) == multiset(Pairs(run, devs))
    ensures Tokens(Generates(run, devs), ReqToken()) == multiset{}
  {
    hide Pairs, GenToken, ReqToken;
    if devs == [] {
      PairsNone(run);
    } else {
      var init, d := devs[..|devs| - 1], devs[|devs| - 1];
      GenerateTokens(run, init);
      var last := GenerateConfig(run, d);
      assert Generates(run, devs) == Generates(run, init) + [last];
      LastTokens(run, d);
      TokensPush(Generates(run, init), last, GenToken());
      TokensPush(Generates(run, init), last, ReqToken());
      PairsAppend(run, init, d);
      assert devs == init + [d];
    }
  }

  lemma PairsNone(run: nat)
    ensures Pairs(run, []) == {}
  {}

  lemma LastTokens(run: nat, d: nat)
    ensures GenToken()(GenerateConfig(run, d)) == multiset{(run, d)} && ReqToken()(GenerateConfig(run, d)) == multiset{}
  {}

  lemma PairsAppend(run: nat, devs: seq<nat>, d: nat)
    requires d !in devs
    ensures Pairs(run, devs + [d]) == Pairs(run, devs) + {(run, d)} && (run, d) !in Pairs(run, devs)
  {
    assert forall x :: x in devs + [d] <==> x in devs || x == d;
  }

  lemma OutstandingAdd(t: map<nat, Command>, run: nat, origin: Origin, devs: seq<nat>)
    requires run !in t
    ensures Outstanding(t[run := NewCommand(origin, devs)]) == Outstanding(t) + Pairs(run, devs)
    ensures Outstanding(t) !! Pairs(run, devs)
  {}

  lemma OutstandingDone(t: map<nat, Command>, run: nat, dev: nat, good: bool)
    requires run in t
    ensures var cmd := t[run].(state := t[run].state[dev := Done(good)]);
            Outstanding(t[run := cmd]) == Outstanding(t) - {(run, dev)}
  {}

  lemma OutstandingRemove(t: map<nat, Command>, run: nat)
    requires run in t && AllDone(t[run].state)
    ensures Outstanding(t - {run}) == Outstanding(t)
  {}

  // ----- queue, pending and done -----

  lemma AddBuildOk(c: Control, req: Request)
    requires BuildsOk(c) && OutcomesOk(c) && req.dev !in c.pending && req.dev !in c.done
    ensures var c' := Enqueue(c.(pending := c.pending + {req.dev}), req, BuildConfig);
            BuildsOk(c') && OutcomesOk(c') && Delayed(c'.queue) == Delayed(c.queue)
  {
    var c' := Enqueue(c.(pending := c.pending + {req.dev}), req, BuildConfig);
    forall d ensures d in c'.pending <==> exists q :: IsBuild(c', q, d) {
      if d == req.dev {
        assert IsBuild(c', c'.queueNum, d);
      } else if d in c.pending {
        var q :| IsBuild(c, q, d);
        assert IsBuild(c', q, d);
      } else if q :| IsBuild(c', q, d) {
        assert IsBuild(c, q, d);
      }
    }
    forall q, q', d | IsBuild(c', q, d) && IsBuild(c', q', d) ensures q == q' {
      if q != c'.queueNum { assert IsBuild(c, q, d); }
      if q' != c'.queueNum { assert IsBuild(c, q', d); }
    }
  }

  lemma AddDelayedOk(c: Control, req: Request, kind: Kind)
    requires BuildsOk(c) && OutcomesOk(c) && !kind.BuildConfig?
    ensures var c' := Enqueue(c, req, kind);
            BuildsOk(c') && OutcomesOk(c') && Delayed(c'.queue) == Delayed(c.queue) + {c'.queueNum}
  {
    var c' := Enqueue(c, req, kind);
    forall q, d ensures IsBuild(c', q, d) <==> IsBuild(c, q, d) {}
  }

  lemma RemoveDelayedOk(c: Control, q: nat)
    requires BuildsOk(c) && OutcomesOk(c) && q in Delayed(c.queue)
    ensures var c' := c.(queue := c.queue - {q});
            BuildsOk(c') && OutcomesOk(c') && Delayed(c'.queue) == Delayed(c.queue) - {q}
  {
    var c' := c.(queue := c.queue - {q});
    forall p, d ensures IsBuild(c', p, d) <==> IsBuild(c, p, d) {}
  }

  lemma FinishBuildOk(c: Control, q: nat, good: bool)
    requires BuildsOk(c) && OutcomesOk(c) && q in c.queue && c.queue[q].kind.BuildConfig?
    ensures c.queue[q].req.dev in c.pending
    ensures var c' := BuildConfigResult(c, q, good);
            BuildsOk(c') && OutcomesOk(c') && Delayed(c'.queue) == Delayed(c.queue)
  {
    var dev, c' := c.queue[q].req.dev, BuildConfigResult(c, q, good);
    assert IsBuild(c, q, dev);
    forall p, d ensures IsBuild(c', p, d) <==> IsBuild(c, p, d) && p != q {}
    forall d ensures d in c'.pending <==> exists p :: IsBuild(c', p, d) {
      if d in c'.pending {
        var p :| IsBuild(c, p, d);
        assert IsBuild(c', p, d);
      }
    }
  }

  lemma DeliverOk(c: Control, dev: nat)
    requires BuildsOk(c) && OutcomesOk(c) && dev in c.done
    ensures var c' := c.(done := c.done - {dev}, delivered := c.delivered + [c.done[dev].queueId]);
            BuildsOk(c') && OutcomesOk(c')
  {
    var c' := c.(done := c.done - {dev}, delivered := c.delivered + [c.done[dev].queueId]);
    forall q, d ensures IsBuild(c', q, d) <==> IsBuild(c, q, d) {}
  }

  /** Nothing in the queue, pending and done tables depends on the history of replies. */
  lemma SameTablesOk(c: Control, c': Control)
    requires BuildsOk(c) && OutcomesOk(c)
    requires c'.(asked := c.asked, replies := c.replies) == c
    ensures BuildsOk(c') && OutcomesOk(c')
  {
    forall q, d ensures IsBuild(c', q, d) <==> IsBuild(c, q, d) {}
  }

  // ----- one reply per request -----

  lemma AskAndReply(c: Control, c': Control, req: Request, text: string)
    requires RepliesOk(c) && req.no == |c.asked|
    requires c'.asked == c.asked + [req.zmqId] && c'.replies == c.replies + [Reply(req.no, req.zmqId, text)]
    requires forall q :: q in c.queue ==> q in c'.queue && c'.queue[q] == c.queue[q]
    requires forall q :: q in c'.queue && q !in c.queue ==> c'.queue[q].kind.BuildConfig? && c'.queue[q].req == req
    ensures RepliesOk(c')
  {
    forall q, n ensures WaitsFor(c', q, n) <==> WaitsFor(c, q, n) {}
    forall n ensures Replied(c', n) <==> Replied(c, n) || n == req.no {
      if Replied(c, n) {
        var i :| 0 <= i < |c.replies| && c.replies[i].no == n;
        assert c'.replies[i].no == n;
      }
      assert c'.replies[|c.replies|].no == req.no;
    }
    forall n: nat | n < |c'.asked| ensures Replied(c', n) || exists q :: WaitsFor(c', q, n) {
      if n < |c.asked| && !Replied(c, n) {
        var q :| WaitsFor(c, q, n);
        assert WaitsFor(c', q, n);
      }
    }
  }

  lemma AskAndWait(c: Control, req: Request, kind: Kind)
    requires RepliesOk(c) && BuildsOk(c) && req.no == |c.asked| && !kind.BuildConfig?
    ensures RepliesOk(Enqueue(c.(asked := c.asked + [req.zmqId]), req, kind))
  {
    var c' := Enqueue(c.(asked := c.asked + [req.zmqId]), req, kind);
    forall q, n ensures WaitsFor(c', q, n) <==> WaitsFor(c, q, n) || (q == c'.queueNum && n == req.no) {}
    forall n ensures Replied(c', n) <==> Replied(c, n) {}
    forall n: nat | n < |c'.asked| ensures Replied(c', n) || exists q :: WaitsFor(c', q, n) {
      if n == req.no {
        assert WaitsFor(c', c'.queueNum, n);
      } else if !Replied(c, n) {
        var q :| WaitsFor(c, q, n);
        assert WaitsFor(c', q, n);
      }
    }
  }

  lemma DelayedReply(c: Control, q: nat, text: string)
    requires RepliesOk(c) && q in Delayed(c.queue)
    ensures RepliesOk(SendReply(c.(queue := c.queue - {q}), c.queue[q].req, text))
  {
    var req := c.queue[q].req;
    var c' := SendReply(c.(queue := c.queue - {q}), req, text);
    assert WaitsFor(c, q, req.no);
    forall p, n ensures WaitsFor(c', p, n) <==> WaitsFor(c, p, n) && p != q {}
    forall n ensures Replied(c', n) <==> Replied(c, n) || n == req.no {
      if Replied(c, n) {
        var i :| 0 <= i < |c.replies| && c.replies[i].no == n;
        assert c'.replies[i].no == n;
      }
      assert c'.replies[|c.replies|].no == req.no;
    }
    forall n: nat | n < |c'.asked| ensures Replied(c', n) || exists p :: WaitsFor(c', p, n) {
      if !Replied(c, n) && n != req.no {
        var p :| WaitsFor(c, p, n);
        assert WaitsFor(c', p, n);
      }
    }
  }

  /** The completion of a build sends no reply. */
  lemma BuildSendsNoReply(c: Control, q: nat, good: bool)
    requires RepliesOk(c) && q in c.queue && c.queue[q].kind.BuildConfig?
    ensures RepliesOk(BuildConfigResult(c, q, good))
    ensures BuildConfigResult(c, q, good).replies == c.replies
  {
    var c' := BuildConfigResult(c, q, good);
    forall p, n ensures WaitsFor(c', p, n) <==> WaitsFor(c, p, n) {}
    forall n ensures Replied(c', n) <==> Replied(c, n) {}
  }

  // ----- builds and their commands -----

  /** Commands and queue are changed together. */
  lemma LinkSame(t: map<nat, Command>, c: Control, t': map<nat, Command>, c': Control)
    requires LinkOk(t, c)
    requires forall r, q :: IsFor(t', r, q) <==> IsFor(t, r, q)
    requires forall r, q :: IsFor(t, r, q) ==> r in t' && t'[r].order == t[r].order
    requires forall q :: q in c'.queue && c'.queue[q].kind.BuildConfig? <==>
                         q in c.queue && c.queue[q].kind.BuildConfig?
    requires forall q :: q in c.queue && c.queue[q].kind.BuildConfig? ==> c'.queue[q] == c.queue[q]
    ensures LinkOk(t', c')
  {
    forall q | q in c'.queue && c'.queue[q].kind.BuildConfig? ensures exists r :: IsFor(t', r, q) {
      var r :| IsFor(t, r, q);
      assert IsFor(t', r, q);
    }
  }

  lemma LinkAdd(t: map<nat, Command>, c: Control, run: nat, req: Request)
    requires LinkOk(t, c) && run !in t && BuildsOk(c)
    ensures var c' := Enqueue(c.(pending := c.pending + {req.dev}), req, BuildConfig);
            LinkOk(t[run := NewCommand(Origin.Control(c'.queueNum), [req.dev])], c')
  {
    var c' := Enqueue(c.(pending := c.pending + {req.dev}), req, BuildConfig);
    var t' := t[run := NewCommand(Origin.Control(c'.queueNum), [req.dev])];
    forall r, q ensures IsFor(t', r, q) <==> IsFor(t, r, q) || (r == run && q == c'.queueNum) {}
    forall q | q in c'.queue && c'.queue[q].kind.BuildConfig? ensures exists r :: IsFor(t', r, q) {
      if q == c'.queueNum {
        assert IsFor(t', run, q);
      } else {
        var r :| IsFor(t, r, q);
        assert IsFor(t', r, q);
      }
    }
  }

  lemma LinkExternal(t: map<nat, Command>, c: Control, run: nat)
    requires LinkOk(t, c) && run in t && t[run].origin.External?
    ensures LinkOk(t - {run}, c)
  {
    LinkSame(t, c, t - {run}, c);
  }

  lemma LinkRemove(t: map<nat, Command>, c: Control, run: nat, good: bool)
    requires LinkOk(t, c) && run in t && t[run].origin.Control?
    ensures var q := t[run].origin.queueId;
            q in c.queue && LinkOk(t - {run}, BuildConfigResult(c, q, good))
  {
    var q := t[run].origin.queueId;
    assert IsFor(t, run, q);
    var t', c' := t - {run}, BuildConfigResult(c, q, good);
    forall r, p ensures IsFor(t', r, p) <==> IsFor(t, r, p) && r != run {}
    forall p | p in c'.queue && c'.queue[p].kind.BuildConfig? ensures exists r :: IsFor(t', r, p) {
      var r :| IsFor(t, r, p);
      assert IsFor(t', r, p);
    }
  }

  // ----- commands are answered once -----

  lemma CommandAdded(c: Commands, origin: Origin, devs: seq<nat>)
    requires CommandsOk(c) && devs != [] && Distinct(devs)
    ensures c.runIdx + 1 !in c.table
    ensures CommandsOk(Commands(c.table[c.runIdx + 1 := NewCommand(origin, devs)], c.runIdx + 1, c.answered))
  {
    NewCommandOk(origin, devs);
    hide CommandOk, NewCommand, Distinct;
    var run, cmd := c.runIdx + 1, NewCommand(origin, devs);
    assert run !in c.table && run !in c.answered;
    var table := c.table[run := cmd];
    forall r: nat | 1 <= r <= run ensures r in table || r in c.answered {
      assert r <= c.runIdx ==> r in c.table || r in c.answered;
    }
  }

  lemma NewCommandOk(origin: Origin, devs: seq<nat>)
    requires devs != [] && Distinct(devs)
    ensures CommandOk(NewCommand(origin, devs))
  {
    AllGenerating(devs);
    hide AllDone, Distinct;
  }

  lemma CommandEmpty(c: Commands)
    requires CommandsOk(c)
    ensures c.runIdx + 1 !in c.table
    ensures CommandsOk(Commands(c.table, c.runIdx + 1, c.answered + [c.runIdx + 1]))
  {
    var run: nat := c.runIdx + 1;
    var answered: seq<nat> := c.answered + [run];
    assert run !in c.answered;
    forall r: nat ensures r in answered <==> r in c.answered || r == run {}
    assert Distinct(answered);
    forall r: nat | 1 <= r <= run ensures r in c.table || r in answered {
      if r <= c.runIdx {
        assert r in c.table || r in c.answered;
      }
    }
  }

  lemma CommandProgress(c: Commands, run: nat, dev: nat, good: bool)
    requires CommandsOk(c) && run in c.table && dev in c.table[run].state
    ensures var cmd := c.table[run].(state := c.table[run].state[dev := Done(good)]);
            if AllDone(cmd.state) then CommandsOk(c.(table := c.table - {run}, answered := c.answered + [run]))
            else CommandsOk(c.(table := c.table[run := cmd]))
  {
    var cmd := c.table[run].(state := c.table[run].state[dev := Done(good)]);
    if AllDone(cmd.state) {
      var c' := c.(table := c.table - {run}, answered := c.answered + [run]);
      forall r: nat | 1 <= r <= c'.runIdx ensures r in c'.table || r in c'.answered {
        assert r in c.table || r in c.answered;
        assert run in c'.answered;
      }
    }
  }

  // ----- every step keeps the invariant -----

  /** The request is answered at once and nothing else changes. */
  lemma AnswerInv(s: State, req: Request, text: string)
    requires Inv(s) && req.no == |s.ctl.asked|
    ensures Inv(s.(ctl := SendReply(s.ctl.(asked := s.ctl.asked + [req.zmqId]), req, text)))
  {
    hide CommandsOk, BuildsOk, OutcomesOk, RepliesOk, LinkOk, Tokens, Outstanding;
    var c' := SendReply(s.ctl.(asked := s.ctl.asked + [req.zmqId]), req, text);
    AskAndReply(s.ctl, c', req, text);
    SameTablesOk(s.ctl, c');
    LinkSame(s.cmds.table, s.ctl, s.cmds.table, c');
  }

  /** A finished build is acknowledged. */
  lemma DeliverInv(s: State, req: Request)
    requires Inv(s) && req.no == |s.ctl.asked| && req.dev in s.ctl.done
    ensures var o := s.ctl.done[req.dev];
            var c := s.ctl.(asked := s.ctl.asked + [req.zmqId], done := s.ctl.done - {req.dev},
                            delivered := s.ctl.delivered + [o.queueId]);
            Inv(s.(ctl := SendReply(c, req, o.text)))
  {
    hide CommandsOk, BuildsOk, OutcomesOk, RepliesOk, LinkOk, Tokens, Outstanding;
    var o := s.ctl.done[req.dev];
    var d := s.ctl.(done := s.ctl.done - {req.dev}, delivered := s.ctl.delivered + [o.queueId]);
    var c' := SendReply(d.(asked := s.ctl.asked + [req.zmqId]), req, o.text);
    DeliverOk(s.ctl, req.dev);
    SameTablesOk(d, c');
    AskAndReply(s.ctl, c', req, o.text);
    LinkSame(s.cmds.table, s.ctl, s.cmds.table, c');
  }

  lemma ForwardFlow(s: State, c': Control)
    requires FlowOk(s) && c'.queueNum !in Delayed(s.ctl.queue)
    requires Delayed(c'.queue) == Delayed(s.ctl.queue) + {c'.queueNum}
    ensures FlowOk(s.(ctl := c', toBuild := s.toBuild + [ComplexRequest(c'.queueNum)]))
  {
    hide Tokens, Outstanding, Delayed;
    var m := ComplexRequest(c'.queueNum);
    TokensPush(s.toBuild, m, GenToken());
    TokensPush(s.toBuild, m, ReqToken());
    SetSum(Delayed(s.ctl.queue), {c'.queueNum});
  }

  lemma ForwardInv(s: State, req: Request, kind: Kind)
    requires Inv(s) && req.no == |s.ctl.asked| && !kind.BuildConfig?
    ensures Inv(Forward(s.(ctl := s.ctl.(asked := s.ctl.asked + [req.zmqId])), req, kind))
  {
    hide FlowOk, CommandsOk, OutcomesOk, RepliesOk, LinkOk;
    var c0 := s.ctl.(asked := s.ctl.asked + [req.zmqId]);
    var c' := Enqueue(c0, req, kind);
    assert c'.queueNum !in s.ctl.queue;
    SameTablesOk(s.ctl, c0);
    AddDelayedOk(c0, req, kind);
    AskAndWait(s.ctl, req, kind);
    hide BuildsOk;
    LinkSame(s.cmds.table, s.ctl, s.cmds.table, c');
    ForwardFlow(s, c');
  }

  lemma AddFlow(s: State, c': Control, run: nat, origin: Origin, devs: seq<nat>)
    requires FlowOk(s) && run !in s.cmds.table && Distinct(devs) && Delayed(c'.queue) == Delayed(s.ctl.queue)
    ensures FlowOk(s.(ctl := c', cmds := Commands(s.cmds.table[run := NewCommand(origin, devs)], run, s.cmds.answered),
                      toBuild := s.toBuild + Generates(run, devs)))
  {
    hide Tokens, Outstanding, Pairs, NewCommand, Generates;
    GenerateTokens(run, devs);
    OutstandingAdd(s.cmds.table, run, origin, devs);
    SetSum(Outstanding(s.cmds.table), Pairs(run, devs));
    TokensAppend(s.toBuild, Generates(run, devs), GenToken());
    TokensAppend(s.toBuild, Generates(run, devs), ReqToken());
  }

  lemma StartBuildTables(c: Control, t: map<nat, Command>, req: Request, text: string, run: nat)
    requires BuildsOk(c) && OutcomesOk(c) && RepliesOk(c) && LinkOk(t, c) && run !in t
    requires req.no == |c.asked| && req.dev !in c.pending && req.dev !in c.done
    ensures var c0 := c.(asked := c.asked + [req.zmqId], pending := c.pending + {req.dev});
            var c' := SendReply(Enqueue(c0, req, BuildConfig), req, text);
            && BuildsOk(c') && OutcomesOk(c') && RepliesOk(c') && Delayed(c'.queue) == Delayed(c.queue)
            && LinkOk(t[run := NewCommand(Origin.Control(c'.queueNum), [req.dev])], c')
  {
    hide OutcomesOk, RepliesOk, LinkOk, NewCommand;
    var c0 := c.(asked := c.asked + [req.zmqId]);
    var c1 := Enqueue(c0.(pending := c0.pending + {req.dev}), req, BuildConfig);
    var c2 := SendReply(c1, req, text);
    assert c1.queueNum !in c.queue;
    hide BuildsOk;
    SameTablesOk(c, c0);
    AddBuildOk(c0, req);
    SameTablesOk(c1, c2);
    AskAndReply(c, c2, req, text);
    LinkSame(t, c, t, c0);
    LinkAdd(t, c0, run, req);
    var t': map<nat, Command> := t[run := NewCommand(Origin.Control(c1.queueNum), [req.dev])];
    LinkSame(t', c1, t', c2);
  }

  lemma StartBuildInv(s: State, req: Request, text: string)
    requires Inv(s) && req.no == |s.ctl.asked| && req.dev !in s.ctl.pending && req.dev !in s.ctl.done
    ensures Inv(Answer(StartBuild(s.(ctl := s.ctl.(asked := s.ctl.asked + [req.zmqId])), req), req, text))
  {
    hide FlowOk, CommandsOk, BuildsOk, OutcomesOk, RepliesOk, LinkOk, HandleWfeCommand, Generates, NewCommand, Delayed;
    var c0 := s.ctl.(asked := s.ctl.asked + [req.zmqId]);
    var c1 := Enqueue(c0.(pending := c0.pending + {req.dev}), req, BuildConfig);
    var origin, run: nat := Origin.Control(c1.queueNum), s.cmds.runIdx + 1;
    CommandAdded(s.cmds, origin, [req.dev]);
    WfeEffect(s.(ctl := c1), origin, [req.dev]);
    StartBuildTables(s.ctl, s.cmds.table, req, text, run);
    AddFlow(s, SendReply(c1, req, text), run, origin, [req.dev]);
  }

  lemma NodeinfoInv(s: State, dev: nat, zmqId: string, cmd: NodeCommand)
    requires Inv(s)
    ensures Inv(HandleNodeinfo(s, dev, zmqId, cmd))
  {
    hide Inv, StartBuild;
    var req := Request(|s.ctl.asked|, zmqId, dev);
    match cmd
    case Immediate(text) => AnswerInv(s, req, text);
    case CreateBootEntry => ForwardInv(s, req, CreateConfigDir);
    case AskPartition => ForwardInv(s, req, GetPartition);
    case CreateConfig =>
      if dev in s.ctl.pending {
        AnswerInv(s, req, "warn already in pending list");
      } else if dev in s.ctl.done {
        AnswerInv(s, req, "ok config already built");
      } else {
        StartBuildInv(s, req, "ok started building config");
      }
    case AckConfig =>
      if dev in s.ctl.done {
        DeliverInv(s, req);
      } else if dev !in s.ctl.pending {
        StartBuildInv(s, req, "warn waiting for config");
      } else {
        AnswerInv(s, req, "warn waiting for config");
      }
  }

  lemma WebCommandInv(s: State, uuid: string, devs: seq<nat>)
    requires Inv(s) && Distinct(devs)
    ensures Inv(HandleWfeCommand(s, External(uuid), devs))
  {
    if devs == [] {
      hide CommandsOk, BuildsOk, OutcomesOk, RepliesOk, HandleWfeCommand, Outstanding, Delayed, Tokens;
      CommandEmpty(s.cmds);
      WfeEmpty(s, uuid);
    } else {
      hide FlowOk, CommandsOk, BuildsOk, OutcomesOk, RepliesOk, HandleWfeCommand, Generates, LinkOk;
      var run: nat := s.cmds.runIdx + 1;
      WfeEffect(s, External(uuid), devs);
      CommandAdded(s.cmds, External(uuid), devs);
      AddFlow(s, s.ctl, run, External(uuid), devs);
      LinkSame(s.cmds.table, s.ctl, s.cmds.table[run := NewCommand(External(uuid), devs)], s.ctl);
    }
  }

  lemma BuildStepInv(s: State, good: bool)
    requires Inv(s) && s.toBuild != []
    ensures Inv(Step(s, Build(good)))
  {
    hide Outstanding, Delayed, Tokens, CommandsOk, BuildsOk, OutcomesOk, RepliesOk, LinkOk;
    var m := match s.toBuild[0] {
      case GenerateConfig(run, dev) => ClientUpdate(run, dev, good)
      case ComplexRequest(q) => ComplexResult(q, good)
    };
    TokensPush(s.toMain, m, UpdToken());
    TokensPush(s.toMain, m, ResToken());
    TokensPop(s.toBuild, GenToken());
    TokensPop(s.toBuild, ReqToken());
  }

  lemma ResultFlow(s: State, c': Control, q: nat, ok: bool)
    requires FlowOk(s) && s.toMain != [] && s.toMain[0] == ComplexResult(q, ok)
    ensures q in Delayed(s.ctl.queue)
    ensures Delayed(c'.queue) == Delayed(s.ctl.queue) - {q} ==> FlowOk(s.(ctl := c', toMain := s.toMain[1..]))
  {
    hide Outstanding, Delayed, Tokens;
    TokensPop(s.toMain, UpdToken());
    TokensPop(s.toMain, ResToken());
    assert q in DelayedUnderWay(s);
    SetLess(Delayed(s.ctl.queue), q);
    Cancel(Tokens(s.toBuild, ReqToken()) + Tokens(s.toMain[1..], ResToken()),
           multiset(Delayed(s.ctl.queue) - {q}), multiset{q});
  }

  lemma ComplexResultInv(s: State, q: nat, ok: bool)
    requires Inv(s) && s.toMain != [] && s.toMain[0] == ComplexResult(q, ok)
    ensures Inv(QueueResult(s.(toMain := s.toMain[1..]), q, ok))
  {
    hide FlowOk, CommandsOk, OutcomesOk, RepliesOk, BuildsOk, LinkOk;
    ResultFlow(s, s.ctl, q, ok);
    var e := s.ctl.queue[q];
    var c1 := s.ctl.(queue := s.ctl.queue - {q});
    var c2 := SendReply(c1, e.req, DelayedText(e.kind, ok));
    RemoveDelayedOk(s.ctl, q);
    SameTablesOk(c1, c2);
    DelayedReply(s.ctl, q, DelayedText(e.kind, ok));
    LinkSame(s.cmds.table, s.ctl, s.cmds.table, c2);
    ResultFlow(s, c2, q, ok);
  }

  /** An update names a device of a pending command that is not done yet. */
  lemma UpdateFlow(s: State, run: nat, dev: nat, good: bool)
    requires FlowOk(s) && s.toMain != [] && s.toMain[0] == ClientUpdate(run, dev, good)
    ensures (run, dev) in Outstanding(s.cmds.table)
    ensures forall t: State ::
              (&& t.toBuild == s.toBuild && t.toMain == s.toMain[1..]
               && Outstanding(t.cmds.table) == Outstanding(s.cmds.table) - {(run, dev)}
               && Delayed(t.ctl.queue) == Delayed(s.ctl.queue)) ==> FlowOk(t)
  {
    hide Outstanding, Delayed, Tokens;
    TokensPop(s.toMain, UpdToken());
    TokensPop(s.toMain, ResToken());
    assert (run, dev) in BuildsUnderWay(s);
    SetLess(Outstanding(s.cmds.table), (run, dev));
    Cancel(Tokens(s.toBuild, GenToken()) + Tokens(s.toMain[1..], UpdToken()),
           multiset(Outstanding(s.cmds.table) - {(run, dev)}), multiset{(run, dev)});
  }

  lemma Unfinished(table: map<nat, Command>, run: nat, dev: nat)
    requires (run, dev) in Outstanding(table)
    ensures run in table && dev in table[run].state && !table[run].state[dev].Done?
  {}

  /** A device of a command is done, and others are not: the command stays. */
  lemma ProgressInv(s: State, run: nat, dev: nat, good: bool)
    requires Inv(s) && s.toMain != [] && s.toMain[0] == ClientUpdate(run, dev, good) && run in s.cmds.table
    requires !AllDone(s.cmds.table[run].state[dev := Done(good)])
    ensures var cmd := s.cmds.table[run].(state := s.cmds.table[run].state[dev := Done(good)]);
            Inv(s.(toMain := s.toMain[1..], cmds := s.cmds.(table := s.cmds.table[run := cmd])))
  {
    hide FlowOk, CommandsOk, BuildsOk, OutcomesOk, RepliesOk, LinkOk, Outstanding, AllDone;
    var cmd := s.cmds.table[run].(state := s.cmds.table[run].state[dev := Done(good)]);
    UpdateFlow(s, run, dev, good);
    Unfinished(s.cmds.table, run, dev);
    OutstandingDone(s.cmds.table, run, dev, good);
    CommandProgress(s.cmds, run, dev, good);
    LinkSame(s.cmds.table, s.ctl, s.cmds.table[run := cmd], s.ctl);
  }

  /** The state after the last device of a command is done, before the command is answered. */
  function LastDone(s: State, run: nat, dev: nat, good: bool): State
    requires s.toMain != [] && run in s.cmds.table
  {
    var cmd := s.cmds.table[run].(state := s.cmds.table[run].state[dev := Done(good)]);
    s.(toMain := s.toMain[1..], cmds := s.cmds.(table := s.cmds.table[run := cmd]))
  }

  lemma CompletionCommands(s: State, run: nat, dev: nat, good: bool)
    requires Inv(s) && s.toMain != [] && s.toMain[0] == ClientUpdate(run, dev, good) && run in s.cmds.table
    requires AllDone(s.cmds.table[run].state[dev := Done(good)])
    ensures var c := s.cmds.(table := s.cmds.table - {run}, answered := s.cmds.answered + [run]);
            && CommandsOk(c)
            && Outstanding(c.table) == Outstanding(s.cmds.table) - {(run, dev)}
            && LastDone(s, run, dev, good).cmds.table - {run} == c.table
  {
    hide FlowOk, BuildsOk, OutcomesOk, RepliesOk, LinkOk, CommandsOk;
    var table := LastDone(s, run, dev, good).cmds.table;
    OutstandingDone(s.cmds.table, run, dev, good);
    OutstandingRemove(table, run);
    assert table - {run} == s.cmds.table - {run};
    UpdateFlow(s, run, dev, good);
    Unfinished(s.cmds.table, run, dev);
    CommandProgress(s.cmds, run, dev, good);
  }

  /** The last device of a command is done: the command is answered and removed. */
  lemma CompletionInv(s: State, run: nat, dev: nat, good: bool)
    requires Inv(s) && s.toMain != [] && s.toMain[0] == ClientUpdate(run, dev, good) && run in s.cmds.table
    requires AllDone(s.cmds.table[run].state[dev := Done(good)])
    ensures var t := SendReturn(LastDone(s, run, dev, good), run);
            && Inv(t) && t.cmds.answered == s.cmds.answered + [run]
            && run !in t.cmds.table && t.ctl.replies == s.ctl.replies
  {
    hide Inv, LastDone, SendReturn;
    if s.cmds.table[run].origin.External? {
      CompletionExternal(s, run, dev, good);
    } else {
      CompletionControl(s, run, dev, good);
    }
  }

  lemma CompletionExternal(s: State, run: nat, dev: nat, good: bool)
    requires Inv(s) && s.toMain != [] && s.toMain[0] == ClientUpdate(run, dev, good) && run in s.cmds.table
    requires AllDone(s.cmds.table[run].state[dev := Done(good)]) && s.cmds.table[run].origin.External?
    ensures var t := SendReturn(LastDone(s, run, dev, good), run);
            && Inv(t) && t.cmds.answered == s.cmds.answered + [run]
            && run !in t.cmds.table && t.ctl.replies == s.ctl.replies
  {
    CompletionCommands(s, run, dev, good);
    hide FlowOk, CommandsOk, BuildsOk, OutcomesOk, RepliesOk, Outstanding, AllDone, LinkOk, Delayed;
    UpdateFlow(s, run, dev, good);
    LinkExternal(s.cmds.table, s.ctl, run);
  }

  lemma CompletionControl(s: State, run: nat, dev: nat, good: bool)
    requires Inv(s) && s.toMain != [] && s.toMain[0] == ClientUpdate(run, dev, good) && run in s.cmds.table
    requires AllDone(s.cmds.table[run].state[dev := Done(good)]) && s.cmds.table[run].origin.Control?
    ensures var t := SendReturn(LastDone(s, run, dev, good), run);
            && Inv(t) && t.cmds.answered == s.cmds.answered + [run]
            && run !in t.cmds.table && t.ctl.replies == s.ctl.replies
  {
    CompletionCommands(s, run, dev, good);
    hide FlowOk, CommandsOk, BuildsOk, OutcomesOk, RepliesOk, Outstanding, AllDone, Good, LinkOk, Delayed,
         BuildConfigResult;
    var q, ok := s.cmds.table[run].origin.queueId, Good(LastDone(s, run, dev, good).cmds.table[run]);
    UpdateFlow(s, run, dev, good);
    ControlCommand(s.cmds.table, s.ctl, run);
    LinkRemove(s.cmds.table, s.ctl, run, ok);
    FinishBuildOk(s.ctl, q, ok);
    BuildSendsNoReply(s.ctl, q, ok);
  }

  lemma ControlCommand(t: map<nat, Command>, c: Control, run: nat)
    requires LinkOk(t, c) && run in t && t[run].origin.Control?
    ensures var q := t[run].origin.queueId; q in c.queue && c.queue[q].kind.BuildConfig?
  {
    assert IsFor(t, run, t[run].origin.queueId);
  }

  lemma ClientUpdateInv(s: State, run: nat, dev: nat, good: bool)
    requires Inv(s) && s.toMain != [] && s.toMain[0] == ClientUpdate(run, dev, good)
    ensures Inv(HandleClientUpdate(s.(toMain := s.toMain[1..]), run, dev, good))
  {
    UpdateFlow(s, run, dev, good);
    Unfinished(s.cmds.table, run, dev);
    assert CommandOk(s.cmds.table[run]);
    UpdateEffect(s.(toMain := s.toMain[1..]), run, dev, good);
    hide Inv, HandleClientUpdate, SendReturn, AllDone;
    if AllDone(s.cmds.table[run].state[dev := Done(good)]) {
      CompletionInv(s, run, dev, good);
    } else {
      ProgressInv(s, run, dev, good);
    }
  }

  lemma StepInv(s: State, e: Event)
    requires Inv(s) && Enabled(s, e)
    ensures Inv(Step(s, e))
  {
    hide Inv, HandleNodeinfo, HandleWfeCommand, HandleClientUpdate, QueueResult;
    match e
    case NodeInfo(dev, zmqId, cmd) => NodeinfoInv(s, dev, zmqId, cmd);
    case WebCommand(uuid, devs) => WebCommandInv(s, uuid, devs);
    case Build(good) => BuildStepInv(s, good);
    case Main =>
      match s.toMain[0]
      case ClientUpdate(run, dev, good) => ClientUpdateInv(s, run, dev, good);
      case ComplexResult(q, ok) => ComplexResultInv(s, q, ok);
  }

  lemma InitInv()
    ensures Inv(Init())
  {}

  /** In every reachable state of the two processes. */
  lemma {:induction false} Reachable(es: seq<Event>)
    requires Possible(es)
    ensures Inv(After(es))
  {
    hide Inv, Step, Enabled;
    if es == [] {
      InitInv();
    } else {
      Reachable(es[..|es| - 1]);
      StepInv(After(es[..|es| - 1]), es[|es| - 1]);
    }
  }

  // ----- what follows for whole runs -----

  function NumGenerate(q: seq<ToBuild>): nat {
    if q == [] then 0 else (if q[0].GenerateConfig? then 1 else 0) + NumGenerate(q[1..])
  }

  function NumUpdate(q: seq<ToMain>): nat {
    if q == [] then 0 else (if q[0].ClientUpdate? then 1 else 0) + NumUpdate(q[1..])
  }

  lemma {:induction false} CountGenerate(q: seq<ToBuild>)
    ensures |Tokens(q, GenToken())| == NumGenerate(q)
  {
    if q != [] { CountGenerate(q[1..]); }
  }

  lemma {:induction false} CountUpdate(q: seq<ToMain>)
    ensures |Tokens(q, UpdToken())| == NumUpdate(q)
  {
    if q != [] { CountUpdate(q[1..]); }
  }

  /** Conservation: the device entries that are not done are as many as the generate_config and
      client_update messages under way. */
  lemma Conservation(es: seq<Event>)
    requires Possible(es)
    ensures var s := After(es);
            |Outstanding(s.cmds.table)| == NumGenerate(s.toBuild) + NumUpdate(s.toMain)
  {
    Reachable(es);
    var s := After(es);
    hide Tokens, Outstanding, After, Possible;
    CountGenerate(s.toBuild);
    CountUpdate(s.toMain);
    assert |BuildsUnderWay(s)| == |multiset(Outstanding(s.cmds.table))|;
  }

  /** The head of the queue to the main process belongs to a pending, unanswered command. */
  lemma UpdateStep(s: State, run: nat, dev: nat, good: bool)
    requires Inv(s) && s.toMain != [] && s.toMain[0] == ClientUpdate(run, dev, good)
    ensures run in s.cmds.table && run !in s.cmds.answered
    ensures var cmd := s.cmds.table[run].(state := s.cmds.table[run].state[dev := Done(good)]);
            var t := s.(toMain := s.toMain[1..], cmds := s.cmds.(table := s.cmds.table[run := cmd]));
            Step(s, Main) == if AllDone(cmd.state) then SendReturn(t, run) else t
  {
    UpdateFlow(s, run, dev, good);
    Unfinished(s.cmds.table, run, dev);
    assert CommandOk(s.cmds.table[run]);
    hide FlowOk, Outstanding, BuildsOk, LinkOk, RepliesOk, OutcomesOk, HandleClientUpdate, SendReturn, AllDone;
    UpdateEffect(s.(toMain := s.toMain[1..]), run, dev, good);
  }

  lemma OthersDone(state: map<nat, DevState>, dev: nat, good: bool)
    ensures AllDone(state[dev := Done(good)]) <==> forall d :: d in state && d != dev ==> state[d].Done?
  {
    var next := state[dev := Done(good)];
    assert forall d :: d in state && d != dev ==> d in next && next[d] == state[d];
  }

  /** The message under way that completes a command: all its other devices are done. */
  ghost predicate Completes(s: State) {
    s.toMain != [] && s.toMain[0].ClientUpdate? && s.toMain[0].run in s.cmds.table &&
    var state := s.cmds.table[s.toMain[0].run].state;
    forall d :: d in state && d != s.toMain[0].dev ==> state[d].Done?
  }

  /** A command is answered by the update that makes its last device done, and by no other update. */
  lemma UpdateAnswers(s: State)
    requires Inv(s) && s.toMain != [] && s.toMain[0].ClientUpdate?
    ensures var m, t := s.toMain[0], Step(s, Main);
            && m.run in s.cmds.table && m.run !in s.cmds.answered
            && if Completes(s)
               then t.cmds.answered == s.cmds.answered + [m.run] && m.run !in t.cmds.table
               else t.cmds.answered == s.cmds.answered && m.run in t.cmds.table
  {
    hide Inv, Step, SendReturn;
    var m := s.toMain[0];
    UpdateStep(s, m.run, m.dev, m.good);
    var state := s.cmds.table[m.run].state;
    OthersDone(state, m.dev, m.good);
    hide AllDone;
    if AllDone(state[m.dev := Done(m.good)]) {
      CompletionInv(s, m.run, m.dev, m.good);
    }
  }

  lemma AnsweredByLastDevice(es: seq<Event>)
    requires Possible(es) && After(es).toMain != [] && After(es).toMain[0].ClientUpdate?
    ensures var s, m := After(es), After(es).toMain[0];
            var t := Step(s, Main);
            && m.run in s.cmds.table && m.run !in s.cmds.answered
            && if Completes(s)
               then t.cmds.answered == s.cmds.answered + [m.run] && m.run !in t.cmds.table
               else t.cmds.answered == s.cmds.answered && m.run in t.cmds.table
  {
    Reachable(es);
    UpdateAnswers(After(es));
  }

  lemma RequestAnswersNothing(s: State, dev: nat, zmqId: string, cmd: NodeCommand)
    ensures HandleNodeinfo(s, dev, zmqId, cmd).cmds.answered == s.cmds.answered
  {
    var req := Request(|s.ctl.asked|, zmqId, dev);
    var s' := s.(ctl := s.ctl.(asked := s.ctl.asked + [zmqId]));
    var c := Enqueue(s'.ctl.(pending := s'.ctl.pending + {dev}), req, BuildConfig);
    WfeEffect(s'.(ctl := c), Origin.Control(c.queueNum), [dev]);
    hide HandleWfeCommand;
  }

  lemma WebAnswers(s: State, uuid: string, devs: seq<nat>)
    requires Inv(s)
    ensures HandleWfeCommand(s, External(uuid), devs).cmds.answered ==
            if devs == [] then s.cmds.answered + [s.cmds.runIdx + 1] else s.cmds.answered
  {
    CommandEmpty(s.cmds);
    hide Inv, HandleWfeCommand, NewCommand, Generates;
    if devs == [] { WfeEmpty(s, uuid); } else { WfeEffect(s, External(uuid), devs); }
  }

  lemma ResultAnswersNothing(s: State, q: nat, ok: bool)
    ensures QueueResult(s, q, ok).cmds == s.cmds
  {}

  lemma StepAnswers(s: State, e: Event)
    requires Inv(s) && Enabled(s, e)
    ensures Step(s, e).cmds.answered ==
            if e.WebCommand? && e.devs == [] then s.cmds.answered + [s.cmds.runIdx + 1]
            else if e.Main? && Completes(s) then s.cmds.answered + [s.toMain[0].run]
            else s.cmds.answered
  {
    hide Inv, HandleNodeinfo, HandleWfeCommand, HandleClientUpdate, QueueResult;
    match e
    case NodeInfo(dev, zmqId, cmd) => RequestAnswersNothing(s, dev, zmqId, cmd);
    case WebCommand(uuid, devs) => WebAnswers(s, uuid, devs);
    case Build(_) =>
    case Main =>
      match s.toMain[0]
      case ClientUpdate(_, _, _) => UpdateAnswers(s);
      case ComplexResult(q, ok) => ResultAnswersNothing(s.(toMain := s.toMain[1..]), q, ok);
  }

  /** Every event: a command is answered by the update that completes it, or at once if it names no
      device, and otherwise no event answers anything. */
  lemma AnsweredExactly(es: seq<Event>, e: Event)
    requires Possible(es) && Enabled(After(es), e)
    ensures var s := After(es);
            Step(s, e).cmds.answered ==
            if e.WebCommand? && e.devs == [] then s.cmds.answered + [s.cmds.runIdx + 1]
            else if e.Main? && Completes(s) then s.cmds.answered + [s.toMain[0].run]
            else s.cmds.answered
  {
    hide *;
    Reachable(es);
    StepAnswers(After(es), e);
  }

  /** A build command of config_control has one device: its queue entry's, which the update names. */
  lemma ControlDevice(s: State, run: nat, dev: nat, good: bool)
    requires Inv(s) && s.toMain != [] && s.toMain[0] == ClientUpdate(run, dev, good)
    requires run in s.cmds.table && s.cmds.table[run].origin.Control?
    ensures var cmd, q := s.cmds.table[run], s.cmds.table[run].origin.queueId;
            && cmd.order == [dev] && dev in cmd.state && AllDone(cmd.state[dev := Done(good)])
            && q in s.ctl.queue && s.ctl.queue[q].kind.BuildConfig? && s.ctl.queue[q].req.dev == dev
            && dev in s.ctl.pending
  {
    UpdateFlow(s, run, dev, good);
    Unfinished(s.cmds.table, run, dev);
    hide FlowOk, RepliesOk, OutcomesOk, Outstanding;
    assert CommandOk(s.cmds.table[run]);
    var q := s.cmds.table[run].origin.queueId;
    assert IsFor(s.cmds.table, run, q);
    assert IsBuild(s.ctl, q, s.ctl.queue[q].req.dev);
  }

  /** The outcome that waits for the device is what the build process reported for it. */
  lemma BuildOutcome(es: seq<Event>)
    requires Possible(es) && After(es).toMain != [] && After(es).toMain[0].ClientUpdate?
    requires After(es).toMain[0].run in After(es).cmds.table
    requires After(es).cmds.table[After(es).toMain[0].run].origin.Control?
    ensures var s, m := After(es), After(es).toMain[0];
            var t, q := Step(s, Main), s.cmds.table[m.run].origin.queueId;
            && m.dev in t.ctl.done && m.dev !in t.ctl.pending && q !in t.ctl.queue
            && t.ctl.done[m.dev] == Outcome(if m.good then "ok config built" else "error building config", q)
  {
    Reachable(es);
    var s, m := After(es), After(es).toMain[0];
    UpdateStep(s, m.run, m.dev, m.good);
    ControlDevice(s, m.run, m.dev, m.good);
    hide Inv, After, Possible, Step;
  }

  /** A device is pending exactly if there is a queued build request for it and a pending command
      carrying that queue id; both are the only ones, and the device is not done. */
  lemma PendingExactly(es: seq<Event>, d: nat)
    requires Possible(es)
    ensures var s := After(es);
            && (d in s.ctl.pending <==> exists q, r :: IsBuild(s.ctl, q, d) && IsFor(s.cmds.table, r, q))
            && (forall q, r, q', r' ::
                  IsBuild(s.ctl, q, d) && IsFor(s.cmds.table, r, q) &&
                  IsBuild(s.ctl, q', d) && IsFor(s.cmds.table, r', q')
                  ==> q == q' && r == r')
            && !(d in s.ctl.pending && d in s.ctl.done)
  {
    Reachable(es);
    var s := After(es);
    hide After, Possible;
    if d in s.ctl.pending {
      var q :| IsBuild(s.ctl, q, d);
      var r :| IsFor(s.cmds.table, r, q);
    }
  }

  /** Each build outcome is delivered by at most one acknowledgement: what was delivered is neither
      queued nor waiting any more, and no queue id is used twice. */
  lemma DeliveredOnce(es: seq<Event>)
    requires Possible(es)
    ensures var c := After(es).ctl;
            && Distinct(c.delivered)
            && (forall q :: q in c.delivered ==> q !in c.queue && forall d :: d in c.done ==> c.done[d].queueId != q)
            && (forall d :: d in c.done ==> c.done[d].queueId !in c.queue)
            && c.queueNum + 1 !in c.queue && c.queueNum + 1 !in c.delivered
  {
    Reachable(es);
    hide After, Possible, FlowOk, CommandsOk, LinkOk, RepliesOk;
  }

  /** In every reachable state no node request has more than one reply, and a reply goes to the id
      that asked; a request without a reply waits for exactly one result. */
  lemma AtMostOneReply(es: seq<Event>, n: nat)
    requires Possible(es) && n < |After(es).ctl.asked|
    ensures var c := After(es).ctl;
            && (RepliedOnce(c, n) || forall i :: 0 <= i < |c.replies| ==> c.replies[i].no != n)
            && (!RepliedOnce(c, n) ==> exists q :: WaitsFor(c, q, n) && forall q' :: WaitsFor(c, q', n) ==> q' == q)
  {
    Reachable(es);
    var c := After(es).ctl;
    hide After, Possible, FlowOk, CommandsOk, LinkOk, OutcomesOk, BuildsOk;
    if Replied(c, n) {
      var i :| 0 <= i < |c.replies| && c.replies[i].no == n;
    } else {
      var q :| WaitsFor(c, q, n);
    }
  }

  lemma CommandHasWork(c: Commands, r: nat)
    requires CommandsOk(c) && r in c.table
    ensures Outstanding(c.table) != {}
  {
    assert CommandOk(c.table[r]);
    var d :| d in c.table[r].state && !c.table[r].state[d].Done?;
    assert (r, d) in Outstanding(c.table);
  }

  lemma QueueHasWork(t: map<nat, Command>, c: Control, q: nat)
    requires LinkOk(t, c) && q in c.queue
    ensures Delayed(c.queue) != {} || t != map[]
  {
    if c.queue[q].kind.BuildConfig? {
      var r :| IsFor(t, r, q);
      assert r in t;
    } else {
      assert q in Delayed(c.queue);
    }
  }

  lemma NoMessages(s: State)
    requires FlowOk(s) && s.toBuild == [] && s.toMain == []
    ensures Outstanding(s.cmds.table) == {} && Delayed(s.ctl.queue) == {}
  {
    assert |Outstanding(s.cmds.table)| == |multiset(Outstanding(s.cmds.table))| == 0;
    assert |Delayed(s.ctl.queue)| == |multiset(Delayed(s.ctl.queue))| == 0;
  }

  ghost predicate RepliedOnce(c: Control, n: nat)
    requires n < |c.asked|
  {
    exists i :: 0 <= i < |c.replies| && c.replies[i].no == n && c.replies[i].zmqId == c.asked[n] &&
                forall j :: 0 <= j < |c.replies| && c.replies[j].no == n ==> j == i
  }

  /** When no message is under way, no command and no device is pending, and every node request
      has got exactly one reply, at the id that asked. */
  lemma Quiescent(es: seq<Event>)
    requires Possible(es) && After(es).toBuild == [] && After(es).toMain == []
    ensures var s := After(es);
            && s.cmds.table == map[] && s.ctl.pending == {} && s.ctl.queue == map[]
            && forall n: nat :: n < |s.ctl.asked| ==> RepliedOnce(s.ctl, n)
  {
    Reachable(es);
    var s := After(es);
    hide After, Possible, CommandsOk, LinkOk, FlowOk, Outstanding, Delayed;
    NoMessages(s);
    if s.cmds.table != map[] {
      var r :| r in s.cmds.table;
      CommandHasWork(s.cmds, r);
    }
    if s.ctl.queue != map[] {
      var q :| q in s.ctl.queue;
      QueueHasWork(s.cmds.table, s.ctl, q);
    }
    forall n: nat | n < |s.ctl.asked| ensures RepliedOnce(s.ctl, n) {
      assert Replied(s.ctl, n);
      var i :| 0 <= i < |s.ctl.replies| && s.ctl.replies[i].no == n;
    }
  }

  ghost function Work(s: State): nat { 2 * |s.toBuild| + |s.toMain| }

  /** Handling a message under way uses it up and creates no request and no command. */
  lemma WorkDecreases(s: State, e: Event)
    requires Inv(s) && Enabled(s, e) && (e.Build? || e.Main?)
    ensures Work(Step(s, e)) < Work(s)
    ensures Step(s, e).ctl.asked == s.ctl.asked && Step(s, e).cmds.runIdx == s.cmds.runIdx
  {
    hide Inv, AllDone, HandleClientUpdate;
    if e.Main? && s.toMain[0].ClientUpdate? {
      UpdateStep(s, s.toMain[0].run, s.toMain[0].dev, s.toMain[0].good);
    }
  }

  lemma AfterOne(es: seq<Event>, e: Event)
    requires Possible(es) && Enabled(After(es), e)
    ensures Possible(es + [e]) && After(es + [e]) == Step(After(es), e)
  {
    assert (es + [e])[..|es|] == es;
  }

  /** more only handles messages, and after it none is left and nothing new was asked. */
  ghost predicate DrainedBy(es: seq<Event>, more: seq<Event>) {
    && Possible(es) && Possible(es + more)
    && (forall e :: e in more ==> e == Main || e == Build(true))
    && var s, t := After(es), After(es + more);
       t.toBuild == [] && t.toMain == [] && t.ctl.asked == s.ctl.asked && t.cmds.runIdx == s.cmds.runIdx
  }

  lemma DrainedStep(es: seq<Event>, e: Event, rest: seq<Event>)
    requires DrainedBy(es + [e], rest) && (e == Main || e == Build(true))
    requires Possible(es) && After(es).ctl.asked == After(es + [e]).ctl.asked
    requires After(es).cmds.runIdx == After(es + [e]).cmds.runIdx
    ensures DrainedBy(es, [e] + rest)
  {
    hide After, Possible;
    assert es + ([e] + rest) == (es + [e]) + rest;
  }

  /** Whatever has happened, handling the messages under way ends with none left; then every
      command and every request has been answered. */
  lemma {:induction false} Drains(es: seq<Event>) returns (more: seq<Event>)
    requires Possible(es)
    ensures DrainedBy(es, more)
    decreases Work(After(es))
  {
    Reachable(es);
    hide After, Possible, Inv, Step;
    var s := After(es);
    if s.toBuild == [] && s.toMain == [] {
      more := [];
      assert es + more == es;
    } else {
      var e := if s.toMain != [] then Main else Build(true);
      WorkDecreases(s, e);
      AfterOne(es, e);
      hide DrainedBy;
      var rest := Drains(es + [e]);
      more := [e] + rest;
      DrainedStep(es, e, rest);
    }
  }
}
