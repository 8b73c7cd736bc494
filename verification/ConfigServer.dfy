/** Config server: the main process and the build process exchange messages over two FIFO queues.
    Nodes ask for things (nodeinfo), the web frontend sends commands for several devices, and
    configurations are built for both. A device stands for its unique name and key. */
module ConfigServer {
  import opened Enumeration

  // ----- data -----

  /** A node request: its number, the 0MQ id that asked, the device. */
  datatype Request = Request(no: nat, zmqId: string, dev: nat)

  datatype Kind = BuildConfig | CreateConfigDir | GetPartition

  datatype Entry = Entry(req: Request, kind: Kind)

  datatype Origin = External(uuid: string) | Control(queueId: nat)

  datatype DevState = PreInit | Generating | Done(good: bool)

  datatype Command = Command(origin: Origin, order: seq<nat>, state: map<nat, DevState>)

  datatype ToBuild = GenerateConfig(run: nat, dev: nat) | ComplexRequest(queueId: nat)

  datatype ToMain = ClientUpdate(run: nat, dev: nat, good: bool) | ComplexResult(queueId: nat, ok: bool)

  datatype Reply = Reply(no: nat, zmqId: string, text: string)

  /** The outcome of a build, kept until it is acknowledged. */
  datatype Outcome = Outcome(text: string, queueId: nat)

  /** __pending_commands and __run_idx; answered is the history of returned commands. */
  datatype Commands = Commands(table: map<nat, Command>, runIdx: nat, answered: seq<nat>)

  /** Class state of config_control; asked, replies and delivered are history. */
  datatype Control = Ctl(pending: set<nat>, done: map<nat, Outcome>, queue: map<nat, Entry>, queueNum: nat,
                         asked: seq<string>, replies: seq<Reply>, delivered: seq<nat>)

  /** faults counts look-ups of unknown run indices, queue ids or pending devices. */
  datatype State = State(cmds: Commands, ctl: Control, toBuild: seq<ToBuild>, toMain: seq<ToMain>, faults: nat)

  function Init(): State {
    State(Commands(map[], 0, []), Ctl({}, map[], map[], 0, [], [], []), [], [], 0)
  }

  // ----- main process, results -----

  function SendReply(c: Control, req: Request, text: string): Control {
    c.(replies := c.replies + [Reply(req.no, req.zmqId, text)])
  }

  /** build_config_result: returns nothing, so no reply is sent. */
  function BuildConfigResult(c: Control, q: nat, good: bool): Control
    requires q in c.queue
  {
    var dev := c.queue[q].req.dev;
    c.(queue := c.queue - {q},
       pending := c.pending - {dev},
       done := c.done[dev := Outcome(if good then "ok config built" else "error building config", q)])
  }

  function DelayedText(kind: Kind, ok: bool): string {
    match kind
    case BuildConfig => ""
    case CreateConfigDir => if ok then "ok created config dir" else "error cannot create config dir"
    case GetPartition => if ok then "ok created partition info" else "error cannot create partition info"
  }

  /** config_control.complex_result */
  function QueueResult(s: State, q: nat, ok: bool): State {
    if q !in s.ctl.queue then s.(faults := s.faults + 1)
    else
      var e := s.ctl.queue[q];
      if e.kind.BuildConfig? then
        if e.req.dev !in s.ctl.pending then s.(faults := s.faults + 1)
        else s.(ctl := BuildConfigResult(s.ctl, q, ok))
      else
        s.(ctl := SendReply(s.ctl.(queue := s.ctl.queue - {q}), e.req, DelayedText(e.kind, ok)))
  }

  // ----- main process, commands -----

  function Fresh(order: seq<nat>, state: map<nat, DevState>): seq<nat> {
    if order == [] then []
    else
      var init, d := order[..|order| - 1], order[|order| - 1];
      if d in state && state[d].PreInit? then Fresh(init, state) + [d] else Fresh(init, state)
  }

  function Generates(run: nat, devs: seq<nat>): seq<ToBuild> {
    seq(|devs|, i requires 0 <= i < |devs| => GenerateConfig(run, devs[i]))
  }

  function SetGenerating(state: map<nat, DevState>): map<nat, DevState> {
    map d | d in state :: if state[d].PreInit? then Generating else state[d]
  }

  predicate AllDone(state: map<nat, DevState>) {
    forall d :: d in state ==> state[d].Done?
  }

  /** The result level of a command for one device. */
  function Good(cmd: Command): bool {
    cmd.order != [] && cmd.order[0] in cmd.state && cmd.state[cmd.order[0]].Done? && cmd.state[cmd.order[0]].good
  }

  /** _send_return and the removal of the command. */
  function SendReturn(s: State, run: nat): State
    requires run in s.cmds.table
  {
    var cmd := s.cmds.table[run];
    var t := if cmd.origin.External? then s else QueueResult(s, cmd.origin.queueId, Good(cmd));
    t.(cmds := s.cmds.(table := s.cmds.table - {run}, answered := s.cmds.answered + [run]))
  }

  function HandleCommand(s: State, run: nat): State
    requires run in s.cmds.table
  {
    var cmd := s.cmds.table[run];
    var state := SetGenerating(cmd.state);
    var t := s.(cmds := s.cmds.(table := s.cmds.table[run := cmd.(state := state)]),
                toBuild := s.toBuild + Generates(run, Fresh(cmd.order, cmd.state)));
    if AllDone(state) then SendReturn(t, run) else t
  }

  /** Every device of the list in the given state. */
  function AllIn(devs: seq<nat>, st: DevState): (r: map<nat, DevState>)
    ensures forall d :: d in r <==> d in devs
    ensures forall d :: d in r ==> r[d] == st
  {
    if devs == [] then map[]
    else
      assert devs == devs[..|devs| - 1] + [devs[|devs| - 1]];
      AllIn(devs[..|devs| - 1], st)[devs[|devs| - 1] := st]
  }

  function HandleWfeCommand(s: State, origin: Origin, devs: seq<nat>): State {
    var run: nat := s.cmds.runIdx + 1;
    var cmd := Command(origin, devs, AllIn(devs, PreInit));
    HandleCommand(s.(cmds := s.cmds.(runIdx := run, table := s.cmds.table[run := cmd])), run)
  }

  function HandleClientUpdate(s: State, run: nat, dev: nat, good: bool): State {
    if run !in s.cmds.table then s.(faults := s.faults + 1)
    else
      var cmd := s.cmds.table[run];
      var t := s.(cmds := s.cmds.(table := s.cmds.table[run := cmd.(state := cmd.state[dev := Done(good)])]));
      HandleCommand(t, run)
  }

  // ----- main process, node requests -----

  /** Immediate stands for every other command, an unknown one or one that fails. */
  datatype NodeCommand = CreateConfig | AckConfig | CreateBootEntry | AskPartition | Immediate(text: string)

  function Enqueue(c: Control, req: Request, kind: Kind): Control {
    c.(queueNum := c.queueNum + 1, queue := c.queue[c.queueNum + 1 := Entry(req, kind)])
  }

  /** The device becomes pending and a build command is created. */
  function StartBuild(s: State, req: Request): State {
    var c := Enqueue(s.ctl.(pending := s.ctl.pending + {req.dev}), req, BuildConfig);
    HandleWfeCommand(s.(ctl := c), Control(c.queueNum), [req.dev])
  }

  /** complex_config_request: forwarded to the build process, answered later. */
  function Forward(s: State, req: Request, kind: Kind): State {
    var c := Enqueue(s.ctl, req, kind);
    s.(ctl := c, toBuild := s.toBuild + [ComplexRequest(c.queueNum)])
  }

  function Answer(s: State, req: Request, text: string): State {
    s.(ctl := SendReply(s.ctl, req, text))
  }

  /** What a command handler returns: a text, or nothing when the answer comes later. */
  datatype Returned = Later | Text(text: string)

  function ComCall(s: State, req: Request, cmd: NodeCommand): (State, Returned) {
    var dev := req.dev;
    match cmd
    case Immediate(text) => (s, Text(text))
    case CreateBootEntry => (Forward(s, req, CreateConfigDir), Later)
    case AskPartition => (Forward(s, req, GetPartition), Later)
    case CreateConfig =>
      if dev in s.ctl.pending then (s, Text("warn already in pending list"))
      else if dev in s.ctl.done then (s, Text("ok config already built"))
      else (StartBuild(s, req), Text("ok started building config"))
    case AckConfig =>
      if dev in s.ctl.done then
        var o := s.ctl.done[dev];
        (s.(ctl := s.ctl.(done := s.ctl.done - {dev}, delivered := s.ctl.delivered + [o.queueId])), Text(o.text))
      else if dev !in s.ctl.pending then (StartBuild(s, req), Text("warn waiting for config"))
      else (s, Text("warn waiting for config"))
  }

  function HandleNodeinfo(s: State, dev: nat, zmqId: string, cmd: NodeCommand): State {
    var req := Request(|s.ctl.asked|, zmqId, dev);
    var (t, ret) := ComCall(s.(ctl := s.ctl.(asked := s.ctl.asked + [zmqId])), req, cmd);
    if ret.Later? then t else Answer(t, req, ret.text)
  }

  // ----- steps -----

  /** A message is handled: Build by the build process with the given success, Main by the main
      process. */
  datatype Event =
    | NodeInfo(dev: nat, zmqId: string, cmd: NodeCommand)
    | WebCommand(uuid: string, devs: seq<nat>)
    | Build(good: bool)
    | Main

  ghost predicate Enabled(s: State, e: Event) {
    match e
    case NodeInfo(_, _, _) => true
    case WebCommand(_, devs) => Distinct(devs)
    case Build(_) => s.toBuild != []
    case Main => s.toMain != []
  }

  function Step(s: State, e: Event): State
    requires Enabled(s, e)
  {
    match e
    case NodeInfo(dev, zmqId, cmd) => HandleNodeinfo(s, dev, zmqId, cmd)
    case WebCommand(uuid, devs) => HandleWfeCommand(s, External(uuid), devs)
    case Build(good) =>
      var m := match s.toBuild[0] {
        case GenerateConfig(run, dev) => ClientUpdate(run, dev, good)
        case ComplexRequest(q) => ComplexResult(q, good)
      };
      s.(toBuild := s.toBuild[1..], toMain := s.toMain + [m])
    case Main =>
      var t := s.(toMain := s.toMain[1..]);
      match s.toMain[0]
      case ClientUpdate(run, dev, good) => HandleClientUpdate(t, run, dev, good)
      case ComplexResult(q, ok) => QueueResult(t, q, ok)
  }

  ghost predicate Possible(es: seq<Event>)
    decreases |es|, 0
  {
    es == [] || (Possible(es[..|es| - 1]) && Enabled(After(es[..|es| - 1]), es[|es| - 1]))
  }

  ghost function After(es: seq<Event>): State
    requires Possible(es)
    decreases |es|, 1
  {
    if es == [] then Init() else Step(After(es[..|es| - 1]), es[|es| - 1])
  }
}
