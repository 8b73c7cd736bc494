/** Config server: the main process as an object whose handlers change its tables in place. */
module ConfigProcess {
  import opened ConfigServer
  import opened ConfigProtocol
  import opened Enumeration

  class MainProcess {
    var cmds: Commands
    var ctl: Control
    var toBuild: seq<ToBuild>
    var toMain: seq<ToMain>
    var faults: nat

    ghost function View(): State
      reads this
    {
      State(cmds, ctl, toBuild, toMain, faults)
    }

    ghost predicate Valid()
      reads this
    {
      Inv(View())
    }

    constructor ()
      ensures Valid() && View() == Init()
    {
      cmds, ctl := Commands(map[], 0, []), Ctl({}, map[], map[], 0, [], [], []);
      toBuild, toMain, faults := [], [], 0;
      new;
      InitInv();
    }

    method SendSimpleReturn(req: Request, text: string)
      modifies this`ctl
      ensures ctl == SendReply(old(ctl), req, text)
    {
      ctl := ctl.(replies := ctl.replies + [Reply(req.no, req.zmqId, text)]);
    }

    /** config_control.complex_result, complex_config_result and the *_result functions. */
    method ComplexResult(q: nat, ok: bool)
      modifies this`ctl, this`faults
      ensures View() == QueueResult(old(View()), q, ok)
    {
      if q !in ctl.queue {
        faults := faults + 1;
        return;
      }
      var e := ctl.queue[q];
      var text := "";
      match e.kind {
        case BuildConfig =>
          if e.req.dev !in ctl.pending {
            faults := faults + 1;
            return;
          }
          ctl := ctl.(queue := ctl.queue - {q});
          ctl := ctl.(pending := ctl.pending - {e.req.dev});
          text := if ok then "ok config built" else "error building config";
          ctl := ctl.(done := ctl.done[e.req.dev := Outcome(text, q)]);
          return;
        case CreateConfigDir =>
          text := if ok then "ok created config dir" else "error cannot create config dir";
        case GetPartition =>
          text := if ok then "ok created partition info" else "error cannot create partition info";
      }
      ctl := ctl.(queue := ctl.queue - {q});
      SendSimpleReturn(e.req, text);
    }

    /** Sends generate_config for the devices that are new and counts those that are not done. */
    method StartDevices(run: nat, cmd: Command) returns (state: map<nat, DevState>, numPending: nat)
      requires Distinct(cmd.order) && forall d :: d in cmd.state <==> d in cmd.order
      modifies this`toBuild
      ensures state == SetGenerating(cmd.state) && (numPending == 0 <==> AllDone(state))
      ensures toBuild == old(toBuild) + Generates(run, Fresh(cmd.order, cmd.state))
    {
      hide Fresh, Generates, SetGenerating, AllDone, Distinct, GeneratingIn, DoneIn;
      NothingYet(run, cmd.state);
      state, numPending := cmd.state, 0;
      for i := 0 to |cmd.order|
        invariant toBuild == old(toBuild) + Generates(run, Fresh(cmd.order[..i], cmd.state))
        invariant state == GeneratingIn(cmd.state, cmd.order[..i])
        invariant numPending == 0 <==> DoneIn(cmd.state, cmd.order[..i])
      {
        var d := cmd.order[i];
        assert cmd.order[..i + 1] == cmd.order[..i] + [d];
        GenerateOneMore(run, cmd.order[..i], cmd.state, d);
        assert d !in cmd.order[..i] by { DistinctAt(cmd.order, i); }
        OneMoreDevice(cmd.state, cmd.order[..i], d);
        if state[d].PreInit? {
          state := state[d := Generating];
          toBuild := toBuild + [GenerateConfig(run, d)];
        }
        if !state[d].Done? {
          numPending := numPending + 1;
        }
      }
      assert cmd.order[..|cmd.order|] == cmd.order;
      AllWalked(cmd.order, cmd.state, state);
    }

    method HandleCommand(run: nat)
      requires run in cmds.table && Distinct(cmds.table[run].order)
      requires forall d :: d in cmds.table[run].state <==> d in cmds.table[run].order
      modifies this
      ensures View() == ConfigServer.HandleCommand(old(View()), run)
    {
      hide Fresh, Generates, SetGenerating, AllDone, ConfigServer.SendReturn;
      var cmd := cmds.table[run];
      var state, numPending := StartDevices(run, cmd);
      cmds := cmds.(table := cmds.table[run := cmd.(state := state)]);
      if numPending == 0 {
        SendReturn(run);
      }
    }

    method SendReturn(run: nat)
      requires run in cmds.table
      modifies this`ctl, this`faults, this`cmds
      ensures View() == ConfigServer.SendReturn(old(View()), run)
    {
      var cmd := cmds.table[run];
      if cmd.origin.Control? {
        ComplexResult(cmd.origin.queueId, Good(cmd));
      }
      cmds := cmds.(table := cmds.table - {run}, answered := cmds.answered + [run]);
    }

    method HandleWfeCommand(origin: Origin, devs: seq<nat>)
      requires Distinct(devs)
      modifies this
      ensures View() == ConfigServer.HandleWfeCommand(old(View()), origin, devs)
    {
      hide AllIn, ConfigServer.HandleCommand;
      var run: nat := cmds.runIdx + 1;
      cmds := cmds.(runIdx := run);
      cmds := cmds.(table := cmds.table[run := Command(origin, devs, AllIn(devs, PreInit))]);
      HandleCommand(run);
    }

    method HandleClientUpdate(run: nat, dev: nat, good: bool)
      requires run in cmds.table && Distinct(cmds.table[run].order) && dev in cmds.table[run].order
      requires forall d :: d in cmds.table[run].state <==> d in cmds.table[run].order
      modifies this
      ensures View() == ConfigServer.HandleClientUpdate(old(View()), run, dev, good)
    {
      hide ConfigServer.HandleCommand;
      var cmd := cmds.table[run];
      cmds := cmds.(table := cmds.table[run := cmd.(state := cmd.state[dev := Done(good)])]);
      HandleCommand(run);
    }

    /** Handles the first message from the build process. */
    method Receive()
      requires Valid() && toMain != []
      modifies this
      ensures Valid() && View() == Step(old(View()), Main)
    {
      hide Inv, Step, Enabled, QueueResult, ConfigServer.HandleClientUpdate, Distinct;
      MainStep(View());
      var m := toMain[0];
      toMain := toMain[1..];
      match m
      case ClientUpdate(run, dev, good) => HandleClientUpdate(run, dev, good);
      case ComplexResult(q, ok) => ComplexResult(q, ok);
    }

    method StartBuild(req: Request)
      modifies this
      ensures View() == ConfigServer.StartBuild(old(View()), req)
    {
      hide ConfigServer.HandleWfeCommand;
      ctl := ctl.(pending := ctl.pending + {req.dev});
      ctl := Enqueue(ctl, req, BuildConfig);
      HandleWfeCommand(Origin.Control(ctl.queueNum), [req.dev]);
    }

    method ComplexConfigRequest(req: Request, kind: Kind)
      modifies this
      ensures View() == Forward(old(View()), req, kind)
    {
      ctl := ctl.(queueNum := ctl.queueNum + 1);
      ctl := ctl.(queue := ctl.queue[ctl.queueNum := Entry(req, kind)]);
      toBuild := toBuild + [ComplexRequest(ctl.queueNum)];
    }

    method Call(req: Request, cmd: NodeCommand) returns (ret: Returned)
      modifies this
      ensures (View(), ret) == ComCall(old(View()), req, cmd)
    {
      hide ConfigServer.StartBuild, Forward;
      match cmd
      case Immediate(t) => ret := Text(t);
      case CreateBootEntry =>
        ComplexConfigRequest(req, CreateConfigDir);
        ret := Later;
      case AskPartition =>
        ComplexConfigRequest(req, GetPartition);
        ret := Later;
      case CreateConfig =>
        if req.dev in ctl.pending {
          ret := Text("warn already in pending list");
        } else if req.dev in ctl.done {
          ret := Text("ok config already built");
        } else {
          StartBuild(req);
          ret := Text("ok started building config");
        }
      case AckConfig =>
        if req.dev in ctl.done {
          ret := Text(ctl.done[req.dev].text);
          ctl := ctl.(done := ctl.done - {req.dev}, delivered := ctl.delivered + [ctl.done[req.dev].queueId]);
        } else {
          if req.dev !in ctl.pending {
            StartBuild(req);
          }
          ret := Text("warn waiting for config");
        }
    }

    /** A node asks; there is no reply yet when the answer comes later. */
    method HandleNodeinfo(dev: nat, zmqId: string, cmd: NodeCommand)
      requires Valid()
      modifies this
      ensures Valid() && View() == ConfigServer.HandleNodeinfo(old(View()), dev, zmqId, cmd)
    {
      NodeinfoInv(View(), dev, zmqId, cmd);
      hide Inv, ComCall;
      var req := Request(|ctl.asked|, zmqId, dev);
      ctl := ctl.(asked := ctl.asked + [zmqId]);
      var ret := Call(req, cmd);
      if ret.Text? {
        SendSimpleReturn(req, ret.text);
      }
    }
  }

  lemma MainStep(s: State)
    requires Inv(s) && s.toMain != []
    ensures Enabled(s, Main) && Inv(Step(s, Main))
    ensures var t := s.(toMain := s.toMain[1..]);
            match s.toMain[0] {
              case ClientUpdate(run, dev, good) =>
                && run in s.cmds.table && dev in s.cmds.table[run].order && Distinct(s.cmds.table[run].order)
                && (forall d :: d in s.cmds.table[run].state <==> d in s.cmds.table[run].order)
                && Step(s, Main) == ConfigServer.HandleClientUpdate(t, run, dev, good)
              case ComplexResult(q, ok) => Step(s, Main) == QueueResult(t, q, ok)
            }
  {
    hide Inv, QueueResult, Distinct, ConfigServer.HandleClientUpdate, ConfigServer.HandleNodeinfo,
         ConfigServer.HandleWfeCommand;
    StepInv(s, Main);
    if s.toMain[0].ClientUpdate? {
      UpdateKnown(s, s.toMain[0].run, s.toMain[0].dev, s.toMain[0].good);
    }
  }

  lemma UpdateKnown(s: State, run: nat, dev: nat, good: bool)
    requires Inv(s) && s.toMain != [] && s.toMain[0] == ClientUpdate(run, dev, good)
    ensures run in s.cmds.table && dev in s.cmds.table[run].order && Distinct(s.cmds.table[run].order)
    ensures forall d :: d in s.cmds.table[run].state <==> d in s.cmds.table[run].order
  {
    UpdateFlow(s, run, dev, good);
    Unfinished(s.cmds.table, run, dev);
    assert CommandOk(s.cmds.table[run]);
  }

  /** The devices of ds that were new are being generated. */
  function GeneratingIn(state: map<nat, DevState>, ds: seq<nat>): map<nat, DevState> {
    map d | d in state :: if d in ds && state[d].PreInit? then Generating else state[d]
  }

  lemma DistinctAt(order: seq<nat>, i: nat)
    requires Distinct(order) && i < |order|
    ensures order[i] !in order[..i]
  {}

  lemma AllWalked(order: seq<nat>, before: map<nat, DevState>, state: map<nat, DevState>)
    requires (forall d :: d in before <==> d in order) && state == GeneratingIn(before, order)
    ensures state == SetGenerating(before)
    ensures AllDone(state) <==> DoneIn(before, order)
  {
    if AllDone(state) {
      forall d | d in order ensures before[d].Done? { assert state[d].Done?; }
    }
  }

  ghost predicate DoneIn(state: map<nat, DevState>, ds: seq<nat>) {
    forall d :: d in ds ==> d in state && state[d].Done?
  }

  lemma OneMoreDevice(state: map<nat, DevState>, ds: seq<nat>, d: nat)
    requires d in state && d !in ds
    ensures var g, more := GeneratingIn(state, ds), GeneratingIn(state, ds + [d]);
            && d in g && g[d] == state[d] && more == (if state[d].PreInit? then g[d := Generating] else g)
    ensures DoneIn(state, ds + [d]) <==> DoneIn(state, ds) && state[d].Done?
  {
    assert forall x :: x in ds + [d] <==> x in ds || x == d;
  }

  lemma NothingYet(run: nat, state: map<nat, DevState>)
    ensures Generates(run, Fresh([], state)) == [] && GeneratingIn(state, []) == state && DoneIn(state, [])
  {}

  lemma GenerateOneMore(run: nat, order: seq<nat>, state: map<nat, DevState>, d: nat)
    requires d in state
    ensures Generates(run, Fresh(order + [d], state)) ==
            if state[d].PreInit? then Generates(run, Fresh(order, state)) + [GenerateConfig(run, d)]
            else Generates(run, Fresh(order, state))
  {
    assert (order + [d])[..|order|] == order;
  }
}
