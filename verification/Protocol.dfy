/** The operator, one agent per node, the administrator and the external checks
    as one transition system. Every step is a single API call, so every
    interleaving of calls is a run. */
module Protocol {
  import opened Nodes
  import opened Passes

  /** The next call of an agent's process (pkg/agent/agent.go:83-231). */
  datatype Pc =
    | Boot                              // read agent-made-unschedulable
    | Reset(makeSchedulable: bool)      // write reboot-needed, reboot-in-progress = false
    | WaitNotOk(makeSchedulable: bool)  // until reboot-ok is seen not true
    | Uncordon
    | ClearMade                         // write agent-made-unschedulable = false
    | WaitOk                            // until reboot-ok and reboot-needed are seen true
    | Permitted                         // read whether the node is already cordoned
    | Marking(already: bool)            // write reboot-in-progress = true
    | Cordon
    | Drain
    | Rebooting

  /** Not yet seen, in this run of the agent, that permission was withdrawn. */
  predicate Early(pc: Pc) {
    pc.Boot? || pc.Reset? || pc.WaitNotOk?
  }

  /** Between seeing permission and rebooting. */
  predicate Danger(pc: Pc) {
    pc.Permitted? || pc.Marking? || pc.Cordon? || pc.Drain? || pc.Rebooting?
  }

  /** The update_engine watcher runs beside the rest of the process. */
  predicate Watching(pc: Pc) {
    pc.WaitOk? || Danger(pc)
  }

  /** A status message of update_engine. */
  datatype UpdateStatus = UpdateStatus(operation: string, lastChecked: string, newVersion: string)

  const NEED_REBOOT := "UPDATE_STATUS_UPDATED_NEED_REBOOT"

  /** What happens at one node without the operator. */
  datatype Event =
    | Agent                             // the agent makes its next call
    | Crash                             // the agent dies, or gives up on a failed call, and is restarted
    | Signal(status: UpdateStatus)      // the status callback commits its write
    | Pause(value: Flag)               // the administrator writes reboot-paused
    | SetCordon(on: bool)               // the administrator cordons or uncordons
    | WriteCheck(name: string, value: Flag)
    | DeleteCheck(name: string)

  function ResetNode(n: Node): Node {
    n.(rebootInProgress := False, rebootNeeded := False, neededLabel := False)
  }

  function StatusNode(n: Node, st: UpdateStatus): Node {
    var m := n.(status := Text(st.operation), lastChecked := Text(st.lastChecked), newVersion := Text(st.newVersion));
    if st.operation == NEED_REBOOT then m.(rebootNeeded := True, neededLabel := True) else m
  }

  /** The agent's next call on its node. A waiting agent stays where it is until
      the node shows what it waits for; a delayed watch event is the same step
      followed late by the next one. */
  function AgentCall(n: Node, pc: Pc): (Node, Pc) {
    match pc
    case Boot => (n, Reset(n.madeUnschedulable == True))
    case Reset(ms) => (ResetNode(n), WaitNotOk(ms))
    case WaitNotOk(ms) => (n, if Ok(n) then pc else if ms then Uncordon else WaitOk)
    case Uncordon => (n.(unschedulable := false), ClearMade)
    case ClearMade => (n.(madeUnschedulable := False), WaitOk)
    case WaitOk => (n, if StillRebooting(n) then Permitted else pc)
    case Permitted => (n, Marking(n.unschedulable))
    case Marking(already) =>
      if already then (n.(rebootInProgress := True), Drain)
      else (n.(rebootInProgress := True, madeUnschedulable := True), Cordon)
    case Cordon => (n.(unschedulable := true), Drain)
    case Drain => (n, Rebooting)
    case Rebooting => (n, Boot)
  }

  function Local(n: Node, pc: Pc, e: Event): (Node, Pc) {
    match e
    case Agent => AgentCall(n, pc)
    case Crash => (n, Boot)
    case Signal(st) => (if Watching(pc) then StatusNode(n, st) else n, pc)
    case Pause(v) => (n.(rebootPaused := v), pc)
    case SetCordon(on) => (n.(unschedulable := on), pc)
    case WriteCheck(name, v) => (n.(checks := n.checks[name := v]), pc)
    case DeleteCheck(name) => (n.(checks := n.checks - {name}), pc)
  }

  /** The operator is about to list for a phase, or has the rest of a phase's
      updates before it. */
  datatype Op = ToList(phase: Phase) | Updating(phase: Phase, work: seq<nat>)

  const IDLE := ToList(CleanupState)

  datatype State = State(nodes: seq<Node>, agents: seq<Pc>, op: Op)

  datatype Label =
    | List(inWindow: bool)
    | Update
    | Advance
    | Abort                             // a call failed, or the operator restarted
    | At(i: nat, e: Event)

  /** One step; a label that cannot happen leaves the state as it is. */
  function Step(cfg: Config, s: State, l: Label): State {
    match l
    case List(w) =>
      if s.op.ToList? then s.(op := Updating(s.op.phase, Select(cfg, s.op.phase, w, s.nodes))) else s
    case Update =>
      if s.op.Updating? && s.op.work != [] && s.op.work[0] < |s.nodes| then
        var i := s.op.work[0];
        s.(nodes := s.nodes[i := Apply(cfg, s.op.phase, s.nodes[i])], op := Updating(s.op.phase, s.op.work[1..]))
      else s
    case Advance =>
      if s.op.Updating? && s.op.work == [] then s.(op := ToList(Following(s.op.phase))) else s
    case Abort => s.(op := IDLE)
    case At(i, e) =>
      if i < |s.nodes| && i < |s.agents| then
        var (n, pc) := Local(s.nodes[i], s.agents[i], e);
        s.(nodes := s.nodes[i := n], agents := s.agents[i := pc])
      else s
  }

  function Exec(cfg: Config, s: State, ls: seq<Label>): State {
    if ls == [] then s
    else Step(cfg, Exec(cfg, s, ls[..|ls| - 1]), ls[|ls| - 1])
  }

  /** Every step of the run satisfies p in the state it is taken from. */
  ghost predicate Always(cfg: Config, s: State, ls: seq<Label>, p: (State, Label) -> bool) {
    ls == [] || (Always(cfg, s, ls[..|ls| - 1], p) && p(Exec(cfg, s, ls[..|ls| - 1]), ls[|ls| - 1]))
  }

  /** A cluster the operator has not touched; agents are starting. */
  predicate Fresh(s: State) {
    && |s.agents| == |s.nodes|
    && s.op == IDLE
    && (forall i :: 0 <= i < |s.nodes| ==> s.agents[i].Boot?)
    && (forall i :: 0 <= i < |s.nodes| ==> !InFlight(s.nodes[i]) && s.nodes[i].beforeReboot == Absent)
  }

  lemma {:induction false} ExecAppend(cfg: Config, s: State, a: seq<Label>, b: seq<Label>)
    ensures Exec(cfg, s, a + b) == Exec(cfg, Exec(cfg, s, a), b)
  {
    if b == [] {
      assert a + b == a;
    } else {
      var k := |b| - 1;
      assert (a + b)[..|a + b| - 1] == a + b[..k];
      ExecAppend(cfg, s, a, b[..k]);
    }
  }

  lemma {:induction false} AlwaysWeaken(cfg: Config, s: State, ls: seq<Label>,
                                        p: (State, Label) -> bool, q: (State, Label) -> bool)
    requires Always(cfg, s, ls, p)
    requires forall t: State, l: Label :: p(t, l) ==> q(t, l)
    ensures Always(cfg, s, ls, q)
  {
    if ls != [] {
      AlwaysWeaken(cfg, s, ls[..|ls| - 1], p, q);
    }
  }

  lemma {:induction false} AlwaysAppend(cfg: Config, s: State, a: seq<Label>, b: seq<Label>, p: (State, Label) -> bool)
    requires Always(cfg, s, a, p) && Always(cfg, Exec(cfg, s, a), b, p)
    ensures Always(cfg, s, a + b, p)
  {
    if b == [] {
      assert a + b == a;
    } else {
      var k := |b| - 1;
      assert (a + b)[..|a + b| - 1] == a + b[..k];
      AlwaysAppend(cfg, s, a, b[..k], p);
      ExecAppend(cfg, s, a, b[..k]);
    }
  }

  // Steps the theorems single out.

  predicate Updates(s: State, l: Label, p: Phase, i: nat) {
    l.Update? && s.op.Updating? && s.op.phase == p && s.op.work != [] && s.op.work[0] == i < |s.nodes|
  }

  predicate Grants(s: State, l: Label, i: nat) {
    Updates(s, l, CheckBeforeReboot, i)
  }

  predicate Resets(s: State, l: Label, i: nat) {
    l == At(i, Agent) && i < |s.nodes| && i < |s.agents| && s.agents[i].Reset?
  }

  /** The agent of node i sees permission and sets out to drain. */
  predicate EntersDrain(s: State, l: Label, i: nat) {
    && l == At(i, Agent) && i < |s.nodes| && i < |s.agents|
    && s.agents[i].WaitOk? && StillRebooting(s.nodes[i])
  }
}
