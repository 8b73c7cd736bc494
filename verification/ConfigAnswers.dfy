/** Config server: what the nodes are told, and that the outcome they are told is the one that the
    build process reported for their request. */
module ConfigAnswers {
  import opened ConfigServer
  import opened ConfigProtocol
  import opened Enumeration
  import opened Options

  // ----- node requests -----

  ghost predicate StartsBuild(c: Control, dev: nat, cmd: NodeCommand) {
    (cmd.CreateConfig? || cmd.AckConfig?) && dev !in c.pending && dev !in c.done
  }

  /** What a node is told at once. */
  ghost function Told(c: Control, dev: nat, cmd: NodeCommand): Option<string> {
    if cmd.Immediate? then Some(cmd.text)
    else if cmd.CreateBootEntry? || cmd.AskPartition? then None
    else if cmd.AckConfig? then Some(if dev in c.done then c.done[dev].text else "warn waiting for config")
    else if dev in c.pending then Some("warn already in pending list")
    else if dev in c.done then Some("ok config already built")
    else Some("ok started building config")
  }

  /** The effect of a node request: the reply, the outcome that is handed over, and the work that
      begins. */
  ghost predicate Requested(s: State, dev: nat, zmqId: string, cmd: NodeCommand, t: State) {
    var c, req := s.ctl, Request(|s.ctl.asked|, zmqId, dev);
    var q, run := s.ctl.queueNum + 1, s.cmds.runIdx + 1;
    && t.ctl.asked == c.asked + [zmqId]
    && t.ctl.replies == c.replies + (match Told(c, dev, cmd)
                                     case None => []
                                     case Some(text) => [Reply(|c.asked|, zmqId, text)])
    && t.ctl.done == (if cmd.AckConfig? then c.done - {dev} else c.done)
    && t.ctl.delivered == c.delivered + (if cmd.AckConfig? && dev in c.done then [c.done[dev].queueId] else [])
    && t.ctl.pending == c.pending + (if StartsBuild(c, dev, cmd) then {dev} else {})
    && t.toMain == s.toMain
    && if StartsBuild(c, dev, cmd) then
         && t.ctl.queue == c.queue[q := Entry(req, BuildConfig)] && t.ctl.queueNum == q
         && t.cmds == Commands(s.cmds.table[run := NewCommand(Origin.Control(q), [dev])], run, s.cmds.answered)
         && t.toBuild == s.toBuild + [GenerateConfig(run, dev)]
       else if cmd.CreateBootEntry? || cmd.AskPartition? then
         && t.ctl.queue == c.queue[q := Entry(req, if cmd.AskPartition? then GetPartition else CreateConfigDir)]
         && t.ctl.queueNum == q && t.cmds == s.cmds && t.toBuild == s.toBuild + [ComplexRequest(q)]
       else t.ctl.queue == c.queue && t.ctl.queueNum == c.queueNum && t.cmds == s.cmds && t.toBuild == s.toBuild
  }

  lemma StartBuildEffect(s: State, req: Request)
    ensures var q, run := s.ctl.queueNum + 1, s.cmds.runIdx + 1;
            StartBuild(s, req) ==
            s.(ctl := s.ctl.(pending := s.ctl.pending + {req.dev}, queueNum := q,
                             queue := s.ctl.queue[q := Entry(req, BuildConfig)]),
               cmds := Commands(s.cmds.table[run := NewCommand(Origin.Control(q), [req.dev])], run, s.cmds.answered),
               toBuild := s.toBuild + [GenerateConfig(run, req.dev)])
  {
    var c := Enqueue(s.ctl.(pending := s.ctl.pending + {req.dev}), req, BuildConfig);
    WfeEffect(s.(ctl := c), Origin.Control(c.queueNum), [req.dev]);
    hide HandleWfeCommand, NewCommand;
    var run := s.cmds.runIdx + 1;
    assert Generates(run, [req.dev]) == [GenerateConfig(run, req.dev)];
  }

  lemma BuildRequest(s: State, dev: nat, zmqId: string, cmd: NodeCommand)
    requires StartsBuild(s.ctl, dev, cmd)
    ensures Requested(s, dev, zmqId, cmd, Step(s, NodeInfo(dev, zmqId, cmd)))
  {
    var req := Request(|s.ctl.asked|, zmqId, dev);
    StartBuildEffect(s.(ctl := s.ctl.(asked := s.ctl.asked + [zmqId])), req);
    hide StartBuild, NewCommand;
    assert s.ctl.delivered + [] == s.ctl.delivered && s.ctl.done - {dev} == s.ctl.done;
  }

  lemma OtherRequest(s: State, dev: nat, zmqId: string, cmd: NodeCommand)
    requires !StartsBuild(s.ctl, dev, cmd)
    ensures Requested(s, dev, zmqId, cmd, Step(s, NodeInfo(dev, zmqId, cmd)))
  {
    hide StartBuild, NewCommand;
    assert s.ctl.replies + [] == s.ctl.replies && s.ctl.delivered + [] == s.ctl.delivered;
    assert s.ctl.pending + {} == s.ctl.pending;
    assert dev !in s.ctl.done ==> s.ctl.done - {dev} == s.ctl.done;
  }

  /** Every node request, in every state: replies, outcomes, pending devices, queue and messages. */
  lemma RequestEffect(s: State, dev: nat, zmqId: string, cmd: NodeCommand)
    ensures Requested(s, dev, zmqId, cmd, Step(s, NodeInfo(dev, zmqId, cmd)))
  {
    hide Requested, Step, StartsBuild;
    if StartsBuild(s.ctl, dev, cmd) {
      BuildRequest(s, dev, zmqId, cmd);
    } else {
      OtherRequest(s, dev, zmqId, cmd);
    }
  }

  /** The result of a delayed request is told to the node that asked; nothing else happens. */
  lemma DelayedAnswer(es: seq<Event>)
    requires Possible(es) && After(es).toMain != [] && After(es).toMain[0].ComplexResult?
    ensures var s, m := After(es), After(es).toMain[0];
            var t := Step(s, Main);
            && m.queueId in s.ctl.queue && !s.ctl.queue[m.queueId].kind.BuildConfig?
            && var e := s.ctl.queue[m.queueId];
               var text := match e.kind {
                 case CreateConfigDir => if m.ok then "ok created config dir" else "error cannot create config dir"
                 case GetPartition =>
                   if m.ok then "ok created partition info" else "error cannot create partition info"
                 case BuildConfig => ""
               };
               t == s.(toMain := s.toMain[1..],
                       ctl := s.ctl.(queue := s.ctl.queue - {m.queueId},
                                     replies := s.ctl.replies + [Reply(e.req.no, e.req.zmqId, text)]))
  {
    Reachable(es);
    var s, m := After(es), After(es).toMain[0];
    hide After, Possible;
    DelayedHead(s, m.queueId, m.ok);
    hide Inv;
  }

  lemma DelayedHead(s: State, q: nat, ok: bool)
    requires Inv(s) && s.toMain != [] && s.toMain[0] == ComplexResult(q, ok)
    ensures q in s.ctl.queue && !s.ctl.queue[q].kind.BuildConfig?
  {
    ResultFlow(s, s.ctl, q, ok);
  }

  // ----- the reports of the build process -----

  /** What the build process reported for the build requests so far, by queue id. */
  ghost function Reported(es: seq<Event>): map<nat, bool>
    requires Possible(es)
  {
    if es == [] then map[]
    else
      var before, e := es[..|es| - 1], es[|es| - 1];
      var s, r := After(before), Reported(before);
      if e.Build? && BuildsFor(s).Some? then r[BuildsFor(s).value := e.good] else r
  }

  /** The queue id of the build request that the build process handles next, if it is one. */
  function BuildsFor(s: State): Option<nat> {
    if s.toBuild != [] && s.toBuild[0].GenerateConfig? && s.toBuild[0].run in s.cmds.table &&
       s.cmds.table[s.toBuild[0].run].origin.Control?
    then Some(s.cmds.table[s.toBuild[0].run].origin.queueId)
    else None
  }

  function Verdict(good: bool): string { if good then "ok config built" else "error building config" }

  /** A request that is still to be built has no report, an update carries its report, and an outcome
      that waits for its device tells the report. */
  ghost predicate Truthful(s: State, r: map<nat, bool>) {
    && (forall q :: q in r ==> q <= s.ctl.queueNum)
    && Unbuilt(s.toBuild, s.cmds.table, r) && Carried(s.toMain, s.cmds.table, r) && Kept(s.ctl.done, r)
  }

  ghost predicate Unbuilt(toBuild: seq<ToBuild>, table: map<nat, Command>, r: map<nat, bool>) {
    forall i, q :: 0 <= i < |toBuild| && toBuild[i].GenerateConfig? && IsFor(table, toBuild[i].run, q) ==> q !in r
  }

  ghost predicate Carried(toMain: seq<ToMain>, table: map<nat, Command>, r: map<nat, bool>) {
    forall i, q :: 0 <= i < |toMain| && toMain[i].ClientUpdate? && IsFor(table, toMain[i].run, q) ==>
                     q in r && r[q] == toMain[i].good
  }

  ghost predicate Kept(done: map<nat, Outcome>, r: map<nat, bool>) {
    forall d :: d in done ==> done[d].queueId in r && done[d].text == Verdict(r[done[d].queueId])
  }

  /** Commands came or went, but none of them is what the messages are about. */
  lemma SameCommands(toBuild: seq<ToBuild>, toMain: seq<ToMain>, t: map<nat, Command>, t': map<nat, Command>,
                     r: map<nat, bool>)
    requires Unbuilt(toBuild, t, r) && Carried(toMain, t, r)
    requires forall i, q :: 0 <= i < |toBuild| && toBuild[i].GenerateConfig? && IsFor(t', toBuild[i].run, q) ==>
                              IsFor(t, toBuild[i].run, q)
    requires forall i, q :: 0 <= i < |toMain| && toMain[i].ClientUpdate? && IsFor(t', toMain[i].run, q) ==>
                              IsFor(t, toMain[i].run, q)
    ensures Unbuilt(toBuild, t', r) && Carried(toMain, t', r)
  {
    hide IsFor;
  }

  lemma UnbuiltPush(toBuild: seq<ToBuild>, more: seq<ToBuild>, t: map<nat, Command>, r: map<nat, bool>)
    requires Unbuilt(toBuild, t, r) && Unbuilt(more, t, r)
    ensures Unbuilt(toBuild + more, t, r)
  {
    hide IsFor;
  }

  lemma {:induction false} TokenAt<M, T>(q: seq<M>, f: M -> multiset<T>, i: nat, x: T)
    requires i < |q| && x in f(q[i])
    ensures Tokens(q, f)[x] >= f(q[i])[x]
  {
    if i > 0 { TokenAt(q[1..], f, i - 1, x); }
  }

  /** A build under way belongs to a command, and no second message is about the same build. */
  lemma OneMessage(s: State, x: (nat, nat))
    requires Inv(s)
    ensures BuildsUnderWay(s)[x] <= 1 && (x in BuildsUnderWay(s) ==> x.0 in s.cmds.table)
  {
    hide Tokens, CommandsOk, BuildsOk, LinkOk, OutcomesOk, RepliesOk;
    if x in BuildsUnderWay(s) {
      assert x in Outstanding(s.cmds.table);
    }
  }

  lemma InToBuild(s: State, i: nat)
    requires Inv(s) && i < |s.toBuild| && s.toBuild[i].GenerateConfig?
    ensures s.toBuild[i].run in s.cmds.table
  {
    var x := (s.toBuild[i].run, s.toBuild[i].dev);
    TokenAt(s.toBuild, GenToken(), i, x);
    OneMessage(s, x);
  }

  lemma InToMain(s: State, i: nat)
    requires Inv(s) && i < |s.toMain| && s.toMain[i].ClientUpdate?
    ensures s.toMain[i].run in s.cmds.table
  {
    var x := (s.toMain[i].run, s.toMain[i].dev);
    TokenAt(s.toMain, UpdToken(), i, x);
    OneMessage(s, x);
  }

  /** The device of a build command of config_control: every message about it names that one. */
  lemma OneDevice(s: State, run: nat, q: nat, dev: nat)
    requires Inv(s) && IsFor(s.cmds.table, run, q) && (run, dev) in BuildsUnderWay(s)
    ensures s.cmds.table[run].order == [dev] && q in s.ctl.queue && q <= s.ctl.queueNum
  {
    assert (run, dev) in multiset(Outstanding(s.cmds.table));
    Unfinished(s.cmds.table, run, dev);
    hide FlowOk, RepliesOk, OutcomesOk, Outstanding;
    assert CommandOk(s.cmds.table[run]);
    assert dev in s.cmds.table[run].order;
  }

  /** While a build request is at the head of the queue, no other message is about it. */
  lemma HeadAlone(s: State, run: nat, dev: nat, q: nat)
    requires Inv(s) && s.toBuild != [] && s.toBuild[0] == GenerateConfig(run, dev) && IsFor(s.cmds.table, run, q)
    ensures q in s.ctl.queue && q <= s.ctl.queueNum
    ensures forall i :: 1 <= i < |s.toBuild| && s.toBuild[i].GenerateConfig? ==> s.toBuild[i].run != run
    ensures forall i :: 0 <= i < |s.toMain| && s.toMain[i].ClientUpdate? ==> s.toMain[i].run != run
  {
    TokensPop(s.toBuild, GenToken());
    hide Inv, Tokens, IsFor;
    OneDevice(s, run, q, dev);
    forall i | 1 <= i < |s.toBuild| && s.toBuild[i].GenerateConfig? ensures s.toBuild[i].run != run {
      NoSecondRequest(s, run, dev, q, i);
    }
    forall i | 0 <= i < |s.toMain| && s.toMain[i].ClientUpdate? ensures s.toMain[i].run != run {
      NoUpdateYet(s, run, dev, q, i);
    }
  }

  lemma NoSecondRequest(s: State, run: nat, dev: nat, q: nat, i: nat)
    requires Inv(s) && s.toBuild != [] && s.toBuild[0] == GenerateConfig(run, dev) && IsFor(s.cmds.table, run, q)
    requires 1 <= i < |s.toBuild| && s.toBuild[i].GenerateConfig?
    ensures s.toBuild[i].run != run
  {
    TokensPop(s.toBuild, GenToken());
    hide Inv, Tokens;
    var d := s.toBuild[i].dev;
    TokenAt(s.toBuild[1..], GenToken(), i - 1, (s.toBuild[i].run, d));
    OneMessage(s, (run, dev));
    OneDevice(s, run, q, dev);
    if s.toBuild[i].run == run { OneDevice(s, run, q, d); }
  }

  lemma NoUpdateYet(s: State, run: nat, dev: nat, q: nat, i: nat)
    requires Inv(s) && s.toBuild != [] && s.toBuild[0] == GenerateConfig(run, dev) && IsFor(s.cmds.table, run, q)
    requires i < |s.toMain| && s.toMain[i].ClientUpdate?
    ensures s.toMain[i].run != run
  {
    TokensPop(s.toBuild, GenToken());
    hide Inv, Tokens;
    var d := s.toMain[i].dev;
    TokenAt(s.toMain, UpdToken(), i, (s.toMain[i].run, d));
    OneMessage(s, (run, dev));
    OneDevice(s, run, q, dev);
    if s.toMain[i].run == run { OneDevice(s, run, q, d); }
  }

  /** The build process takes the first message and reports. */
  lemma BuildEffect(s: State, good: bool)
    requires s.toBuild != []
    ensures var m := match s.toBuild[0] {
              case GenerateConfig(run, dev) => ClientUpdate(run, dev, good)
              case ComplexRequest(q) => ComplexResult(q, good)
            };
            Step(s, Build(good)) == s.(toBuild := s.toBuild[1..], toMain := s.toMain + [m])
  {}

  lemma BuildTruth(s: State, good: bool, r: map<nat, bool>)
    requires Inv(s) && Truthful(s, r) && s.toBuild != []
    ensures var r' := if BuildsFor(s).Some? then r[BuildsFor(s).value := good] else r;
            Truthful(Step(s, Build(good)), r')
  {
    hide Inv, Step, IsFor, Unbuilt, Carried, Kept;
    var head, table := s.toBuild[0], s.cmds.table;
    BuildEffect(s, good);
    if BuildsFor(s).Some? {
      var q := BuildsFor(s).value;
      BuildsForRun(s);
      HeadAlone(s, head.run, head.dev, q);
      OnlyRun(s, head.run, q);
      OutcomeElsewhere(s, q);
      KeptMore(s.ctl.done, r, q, good);
      BuiltMessages(s.toBuild, s.toMain, table, r, q, head.run, head.dev, good);
    } else {
      UnbuiltTail(s.toBuild, table, r);
      OtherMessage(s, good, r);
    }
  }

  lemma BuildsForRun(s: State)
    requires BuildsFor(s).Some?
    ensures s.toBuild != [] && s.toBuild[0].GenerateConfig? && IsFor(s.cmds.table, s.toBuild[0].run, BuildsFor(s).value)
  {}

  lemma KeptMore(done: map<nat, Outcome>, r: map<nat, bool>, q: nat, good: bool)
    requires Kept(done, r) && forall d :: d in done ==> done[d].queueId != q
    ensures Kept(done, r[q := good])
  {}

  lemma UnbuiltTail(toBuild: seq<ToBuild>, t: map<nat, Command>, r: map<nat, bool>)
    requires Unbuilt(toBuild, t, r) && toBuild != []
    ensures Unbuilt(toBuild[1..], t, r)
  {
    hide IsFor;
    assert forall i :: 0 <= i < |toBuild| - 1 ==> toBuild[1..][i] == toBuild[i + 1];
  }

  lemma OtherMessage(s: State, good: bool, r: map<nat, bool>)
    requires Carried(s.toMain, s.cmds.table, r) && s.toBuild != [] && BuildsFor(s).None?
    ensures Carried(Step(s, Build(good)).toMain, s.cmds.table, r)
  {}

  /** No outcome waits under the id of a request that is still queued. */
  lemma OutcomeElsewhere(s: State, q: nat)
    requires Inv(s) && q in s.ctl.queue
    ensures forall d :: d in s.ctl.done ==> s.ctl.done[d].queueId != q
  {
    hide FlowOk, CommandsOk, BuildsOk, RepliesOk, LinkOk;
  }

  /** The head of the queue was built: its report is new, and no other message is about it. */
  lemma BuiltMessages(toBuild: seq<ToBuild>, toMain: seq<ToMain>, t: map<nat, Command>, r: map<nat, bool>,
                      q: nat, run: nat, dev: nat, good: bool)
    requires toBuild != [] && Unbuilt(toBuild, t, r) && Carried(toMain, t, r) && IsFor(t, run, q)
    requires forall x :: IsFor(t, x, q) ==> x == run
    requires forall i :: 1 <= i < |toBuild| && toBuild[i].GenerateConfig? ==> toBuild[i].run != run
    requires forall i :: 0 <= i < |toMain| && toMain[i].ClientUpdate? ==> toMain[i].run != run
    ensures Unbuilt(toBuild[1..], t, r[q := good])
    ensures Carried(toMain + [ClientUpdate(run, dev, good)], t, r[q := good])
  {
    assert forall i :: 0 <= i < |toBuild| - 1 ==> toBuild[1..][i] == toBuild[i + 1];
    assert forall p :: IsFor(t, run, p) ==> p == q;
    hide IsFor;
  }

  lemma OnlyRun(s: State, run: nat, q: nat)
    requires Inv(s) && IsFor(s.cmds.table, run, q)
    ensures forall r :: IsFor(s.cmds.table, r, q) ==> r == run
  {
    hide FlowOk, CommandsOk, BuildsOk, RepliesOk, OutcomesOk;
  }

  /** The commands that messages are about are known. */
  lemma MessagesKnown(s: State)
    requires Inv(s)
    ensures forall i :: 0 <= i < |s.toBuild| && s.toBuild[i].GenerateConfig? ==> s.toBuild[i].run in s.cmds.table
    ensures forall i :: 0 <= i < |s.toMain| && s.toMain[i].ClientUpdate? ==> s.toMain[i].run in s.cmds.table
  {
    hide Inv;
    forall i | 0 <= i < |s.toBuild| && s.toBuild[i].GenerateConfig? ensures s.toBuild[i].run in s.cmds.table {
      InToBuild(s, i);
    }
    forall i | 0 <= i < |s.toMain| && s.toMain[i].ClientUpdate? ensures s.toMain[i].run in s.cmds.table {
      InToMain(s, i);
    }
  }

  /** A new command changes nothing for the messages under way. */
  lemma NewCommandTruth(s: State, cmd: Command, r: map<nat, bool>)
    requires Inv(s) && Truthful(s, r)
    ensures var table := s.cmds.table[s.cmds.runIdx + 1 := cmd];
            Unbuilt(s.toBuild, table, r) && Carried(s.toMain, table, r)
  {
    NewRunUnknown(s);
    MessagesKnown(s);
    hide Inv;
    SameCommands(s.toBuild, s.toMain, s.cmds.table, s.cmds.table[s.cmds.runIdx + 1 := cmd], r);
  }

  lemma RequestTruth(s: State, dev: nat, zmqId: string, cmd: NodeCommand, r: map<nat, bool>)
    requires Inv(s) && Truthful(s, r)
    ensures Truthful(Step(s, NodeInfo(dev, zmqId, cmd)), r)
  {
    RequestEffect(s, dev, zmqId, cmd);
    var t := Step(s, NodeInfo(dev, zmqId, cmd));
    KeptLess(s.ctl.done, r, dev);
    RequestMessages(s, dev, zmqId, cmd, t, r);
    hide Inv, Step, Unbuilt, Carried, Kept, Told, NewCommand;
  }

  lemma RequestMessages(s: State, dev: nat, zmqId: string, cmd: NodeCommand, t: State, r: map<nat, bool>)
    requires Inv(s) && Truthful(s, r) && Requested(s, dev, zmqId, cmd, t)
    ensures Unbuilt(t.toBuild, t.cmds.table, r) && Carried(t.toMain, t.cmds.table, r)
  {
    hide Inv, Unbuilt, Carried, Kept, Told, IsFor;
    var q, run := s.ctl.queueNum + 1, s.cmds.runIdx + 1;
    if StartsBuild(s.ctl, dev, cmd) {
      var new' := NewCommand(Origin.Control(q), [dev]);
      NewCommandTruth(s, new', r);
      UnbuiltNew(s.cmds.table, run, dev, q, r);
      UnbuiltPush(s.toBuild, [GenerateConfig(run, dev)], t.cmds.table, r);
    } else if cmd.CreateBootEntry? || cmd.AskPartition? {
      UnbuiltOther(q, s.cmds.table, r);
      UnbuiltPush(s.toBuild, [ComplexRequest(q)], s.cmds.table, r);
    }
  }

  lemma UnbuiltNew(table: map<nat, Command>, run: nat, dev: nat, q: nat, r: map<nat, bool>)
    requires q !in r
    ensures Unbuilt([GenerateConfig(run, dev)], table[run := NewCommand(Origin.Control(q), [dev])], r)
  {}

  lemma UnbuiltOther(q: nat, table: map<nat, Command>, r: map<nat, bool>)
    ensures Unbuilt([ComplexRequest(q)], table, r)
  {}

  lemma NewRunUnknown(s: State)
    requires Inv(s)
    ensures s.cmds.runIdx + 1 !in s.cmds.table
  {
    hide FlowOk, LinkOk, BuildsOk, RepliesOk, OutcomesOk;
  }

  lemma WebTruth(s: State, uuid: string, devs: seq<nat>, r: map<nat, bool>)
    requires Inv(s) && Truthful(s, r)
    ensures Truthful(HandleWfeCommand(s, External(uuid), devs), r)
  {
    NewRunUnknown(s);
    hide Inv, HandleWfeCommand;
    if devs == [] {
      WfeEmpty(s, uuid);
      hide Unbuilt, Carried, Kept;
    } else {
      var run, cmd := s.cmds.runIdx + 1, NewCommand(External(uuid), devs);
      WfeEffect(s, External(uuid), devs);
      NewCommandTruth(s, cmd, r);
      var table := s.cmds.table[run := cmd];
      assert forall p :: !IsFor(table, run, p);
      assert Unbuilt(Generates(run, devs), table, r);
      hide Carried, Kept, Generates, IsFor;
      UnbuiltPush(s.toBuild, Generates(run, devs), table, r);
      hide Unbuilt;
    }
  }

  lemma CarriedTail(toMain: seq<ToMain>, t: map<nat, Command>, r: map<nat, bool>)
    requires Carried(toMain, t, r) && toMain != []
    ensures Carried(toMain[1..], t, r)
  {
    hide IsFor;
    assert forall i :: 0 <= i < |toMain| - 1 ==> toMain[1..][i] == toMain[i + 1];
  }

  lemma MainTruth(s: State, r: map<nat, bool>)
    requires Inv(s) && Truthful(s, r) && s.toMain != []
    ensures Truthful(Step(s, Main), r)
  {
    hide Inv, Step, Truthful;
    match s.toMain[0]
    case ComplexResult(q, ok) => ResultTruth(s, q, ok, r);
    case ClientUpdate(run, dev, good) =>
      UpdateStep(s, run, dev, good);
      if s.cmds.table[run].origin.Control? {
        ControlTruth(s, run, dev, good, r);
      } else {
        ExternalTruth(s, run, dev, good, r);
      }
  }

  lemma ResultTruth(s: State, q: nat, ok: bool, r: map<nat, bool>)
    requires Inv(s) && Truthful(s, r) && s.toMain != [] && s.toMain[0] == ComplexResult(q, ok)
    ensures Truthful(Step(s, Main), r)
  {
    hide Inv, Unbuilt, Carried, Kept;
    CarriedTail(s.toMain, s.cmds.table, r);
    DelayedHead(s, q, ok);
  }

  lemma ControlTruth(s: State, run: nat, dev: nat, good: bool, r: map<nat, bool>)
    requires Inv(s) && Truthful(s, r) && s.toMain != [] && s.toMain[0] == ClientUpdate(run, dev, good)
    requires run in s.cmds.table && s.cmds.table[run].origin.Control?
    ensures Truthful(Step(s, Main), r)
  {
    hide Inv, Step, Unbuilt, Carried, Kept;
    ControlAnswer(s, run, dev, good);
    var q := s.cmds.table[run].origin.queueId;
    CarriedHead(s.toMain, s.cmds.table, r, q);
    CarriedTail(s.toMain, s.cmds.table, r);
    KeptPut(s.ctl.done, r, dev, q);
    assert forall x, p :: IsFor(s.cmds.table - {run}, x, p) ==> IsFor(s.cmds.table, x, p);
    hide IsFor;
    SameCommands(s.toBuild, s.toMain[1..], s.cmds.table, s.cmds.table - {run}, r);
  }

  lemma ExternalTruth(s: State, run: nat, dev: nat, good: bool, r: map<nat, bool>)
    requires Inv(s) && Truthful(s, r) && s.toMain != [] && s.toMain[0] == ClientUpdate(run, dev, good)
    requires run in s.cmds.table && s.cmds.table[run].origin.External?
    ensures Truthful(Step(s, Main), r)
  {
    hide Inv, Step, Unbuilt, Carried, Kept, IsFor;
    ExternalUpdate(s, run, dev, good);
    CarriedTail(s.toMain, s.cmds.table, r);
    SameCommands(s.toBuild, s.toMain[1..], s.cmds.table, Step(s, Main).cmds.table, r);
  }

  lemma CarriedHead(toMain: seq<ToMain>, t: map<nat, Command>, r: map<nat, bool>, q: nat)
    requires Carried(toMain, t, r) && toMain != [] && toMain[0].ClientUpdate? && IsFor(t, toMain[0].run, q)
    ensures q in r && r[q] == toMain[0].good
  {}

  lemma KeptPut(done: map<nat, Outcome>, r: map<nat, bool>, dev: nat, q: nat)
    requires Kept(done, r) && q in r
    ensures Kept(done[dev := Outcome(Verdict(r[q]), q)], r)
  {}

  lemma KeptLess(done: map<nat, Outcome>, r: map<nat, bool>, dev: nat)
    requires Kept(done, r)
    ensures Kept(done - {dev}, r)
  {}

  /** An update for a command of the frontend leaves the tables of config_control alone. */
  lemma ExternalUpdate(s: State, run: nat, dev: nat, good: bool)
    requires Inv(s) && s.toMain != [] && s.toMain[0] == ClientUpdate(run, dev, good)
    requires run in s.cmds.table && s.cmds.table[run].origin.External?
    ensures var t := Step(s, Main);
            && t.ctl == s.ctl && t.toBuild == s.toBuild && t.toMain == s.toMain[1..]
            && forall x, q :: IsFor(t.cmds.table, x, q) ==> IsFor(s.cmds.table, x, q)
  {
    UpdateStep(s, run, dev, good);
    hide Inv, Step, AllDone;
  }

  /** A build of config_control is answered with its outcome. */
  lemma ControlAnswer(s: State, run: nat, dev: nat, good: bool)
    requires Inv(s) && s.toMain != [] && s.toMain[0] == ClientUpdate(run, dev, good)
    requires run in s.cmds.table && s.cmds.table[run].origin.Control?
    ensures var q := s.cmds.table[run].origin.queueId;
            && IsFor(s.cmds.table, run, q) && Step(s, Main).ctl.done == s.ctl.done[dev := Outcome(Verdict(good), q)]
            && Step(s, Main).cmds.table == s.cmds.table - {run}
            && Step(s, Main).ctl.queueNum == s.ctl.queueNum
            && Step(s, Main).toBuild == s.toBuild && Step(s, Main).toMain == s.toMain[1..]
  {
    UpdateStep(s, run, dev, good);
    ControlDevice(s, run, dev, good);
    hide Inv, Step, AllDone, SendReturn;
    var cmd := s.cmds.table[run].(state := s.cmds.table[run].state[dev := Done(good)]);
    var t := s.(toMain := s.toMain[1..], cmds := s.cmds.(table := s.cmds.table[run := cmd]));
    ReturnOutcome(t, run, dev, good);
    assert s.cmds.table[run := cmd] - {run} == s.cmds.table - {run};
  }

  lemma ReturnOutcome(t: State, run: nat, dev: nat, good: bool)
    requires run in t.cmds.table && t.cmds.table[run].origin.Control? && t.cmds.table[run].order == [dev]
    requires dev in t.cmds.table[run].state && t.cmds.table[run].state[dev] == Done(good) && dev in t.ctl.pending
    requires var q := t.cmds.table[run].origin.queueId;
             q in t.ctl.queue && t.ctl.queue[q].kind.BuildConfig? && t.ctl.queue[q].req.dev == dev
    ensures var u, q := SendReturn(t, run), t.cmds.table[run].origin.queueId;
            && u.ctl.done == t.ctl.done[dev := Outcome(Verdict(good), q)] && u.ctl.queueNum == t.ctl.queueNum
            && u.cmds.table == t.cmds.table - {run} && u.toBuild == t.toBuild && u.toMain == t.toMain
  {}

  lemma StepTruth(s: State, e: Event, r: map<nat, bool>)
    requires Inv(s) && Truthful(s, r) && Enabled(s, e)
    ensures var r' := if e.Build? && BuildsFor(s).Some? then r[BuildsFor(s).value := e.good] else r;
            Truthful(Step(s, e), r')
  {
    match e
    case NodeInfo(dev, zmqId, cmd) => RequestTruth(s, dev, zmqId, cmd, r);
    case WebCommand(uuid, devs) => WebTruth(s, uuid, devs, r);
    case Build(good) => BuildTruth(s, good, r);
    case Main => MainTruth(s, r);
  }

  lemma {:induction false} ReportsTruthful(es: seq<Event>)
    requires Possible(es)
    ensures Truthful(After(es), Reported(es))
  {
    hide Step, Truthful, Inv;
    if es == [] {
      NothingReported();
    } else {
      var before := es[..|es| - 1];
      ReportsTruthful(before);
      Reachable(before);
      StepTruth(After(before), es[|es| - 1], Reported(before));
    }
  }

  lemma NothingReported()
    ensures Truthful(Init(), map[])
  {}

  /** The acknowledgement delivers what the build process reported: the one reply reads "ok config
      built" exactly if the report for the queue id that is delivered was good. */
  lemma AckTellsReport(es: seq<Event>, dev: nat, zmqId: string)
    requires Possible(es) && dev in After(es).ctl.done
    ensures var c, t := After(es).ctl, Step(After(es), NodeInfo(dev, zmqId, AckConfig));
            var q := c.done[dev].queueId;
            && q in Reported(es) && t.ctl.delivered == c.delivered + [q] && dev !in t.ctl.done
            && var text := if Reported(es)[q] then "ok config built" else "error building config";
               t.ctl.replies == c.replies + [Reply(|c.asked|, zmqId, text)]
  {
    ReportsTruthful(es);
    RequestEffect(After(es), dev, zmqId, AckConfig);
    hide After, Possible, Step, Reported;
  }

  /** A build request is reported at most once. */
  lemma ReportedOnce(es: seq<Event>)
    requires Possible(es) && BuildsFor(After(es)).Some?
    ensures BuildsFor(After(es)).value !in Reported(es)
  {
    ReportsTruthful(es);
    var s := After(es);
    hide After, Possible, Reported;
    assert IsFor(s.cmds.table, s.toBuild[0].run, BuildsFor(s).value);
  }
}
