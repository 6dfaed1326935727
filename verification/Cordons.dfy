/** The agent gives the cordon back as it found it, wherever it crashes. */
module Cordons {
  import opened Nodes
  import opened Protocol
  import opened Agents

  /** The cordon as the administrator last set it. */
  function Intended(s: State, ls: seq<Label>, i: nat): bool
    requires i < |s.nodes|
  {
    if ls == [] then s.nodes[i].unschedulable
    else
      var l := ls[|ls| - 1];
      if l.At? && l.i == i && l.e.SetCordon? then l.e.on else Intended(s, ls[..|ls| - 1], i)
  }

  /** The administrator does not cordon a node while agent-made-unschedulable is
      true, nor between the agent's finding it not cordoned and that mark. */
  predicate CalmCordon(n: Node, pc: Pc, e: Event) {
    e == SetCordon(true) ==> n.madeUnschedulable != True && pc != Marking(false)
  }

  function CalmCordonOf(i: nat): (State, Label) -> bool {
    (s: State, l: Label) => l.At? && l.i == i && i < |s.nodes| && i < |s.agents| ==> CalmCordon(s.nodes[i], s.agents[i], l.e)
  }

  predicate CordonKept(n: Node, pc: Pc, want: bool) {
    && (if n.madeUnschedulable == True then !want else n.unschedulable == want)
    && (pc.Reset? || pc.WaitNotOk? ==> pc.makeSchedulable == (n.madeUnschedulable == True))
    && (pc.Uncordon? || pc.ClearMade? || pc.Cordon? ==> n.madeUnschedulable == True)
    && (pc.ClearMade? ==> !n.unschedulable)
    && (pc.WaitOk? || pc.Permitted? || pc.Marking? ==> n.madeUnschedulable != True)
    && (pc == Marking(false) ==> !n.unschedulable)
  }

  /** One event at the node keeps this exactly when it is calm. */
  lemma CordonLocal(n: Node, pc: Pc, e: Event, want: bool)
    requires CordonKept(n, pc, want)
    ensures var (m, pc') := Local(n, pc, e);
      CordonKept(m, pc', if e.SetCordon? then e.on else want) <==> CalmCordon(n, pc, e)
    ensures !e.SetCordon? && n.unschedulable && !Local(n, pc, e).0.unschedulable ==> !want
  {
  }

  lemma OthersLeaveCordon(cfg: Config, s: State, l: Label, i: nat)
    requires |s.agents| == |s.nodes| && i < |s.nodes|
    ensures var t := Step(cfg, s, l);
      && |t.agents| == |t.nodes| == |s.nodes|
      && (l.At? && l.i == i ==> (t.nodes[i], t.agents[i]) == Local(s.nodes[i], s.agents[i], l.e))
      && (!(l.At? && l.i == i) ==>
           && t.agents[i] == s.agents[i]
           && t.nodes[i].unschedulable == s.nodes[i].unschedulable
           && t.nodes[i].madeUnschedulable == s.nodes[i].madeUnschedulable)
  {
  }

  /** Whenever the agent waits for permission the cordon is as the administrator last set it; and the agent never lifts
      a cordon the administrator has set. */
  lemma {:induction false} CordonRoundTrip(cfg: Config, s: State, ls: seq<Label>, i: nat)
    requires |s.agents| == |s.nodes| && i < |s.nodes|
    requires s.agents[i].Boot? && s.nodes[i].madeUnschedulable != True
    requires Always(cfg, s, ls, CalmCordonOf(i))
    ensures var t := Exec(cfg, s, ls);
      && |t.agents| == |t.nodes| == |s.nodes|
      && CordonKept(t.nodes[i], t.agents[i], Intended(s, ls, i))
      && (t.agents[i].WaitOk? ==> t.nodes[i].unschedulable == Intended(s, ls, i))
      && (t.nodes[i].unschedulable && !AgentCall(t.nodes[i], t.agents[i]).0.unschedulable ==> !Intended(s, ls, i))
  {
    if ls != [] {
      var k := |ls| - 1;
      CordonRoundTrip(cfg, s, ls[..k], i);
      var t := Exec(cfg, s, ls[..k]);
      OthersLeaveCordon(cfg, t, ls[k], i);
      if ls[k].At? && ls[k].i == i {
        CordonLocal(t.nodes[i], t.agents[i], ls[k].e, Intended(s, ls[..k], i));
      }
    }
    var t := Exec(cfg, s, ls);
    CordonLocal(t.nodes[i], t.agents[i], Agent, Intended(s, ls, i));
  }

  /** Outside that condition it fails: a cordon set while the mark is true is
      lifted by the next start of the agent. */
  lemma CordonLost(n: Node)
    requires n.madeUnschedulable == True && !Ok(n)
    ensures !CalmCordon(n, Boot, SetCordon(true))
    ensures var (m, pc) := AgentCalls(Local(n, Boot, SetCordon(true)).0, Boot, 5);
      pc == WaitOk && !m.unschedulable
  {
  }

  /** k calls of agent i at the end of a run. */
  lemma {:induction false} CallsAtEnd(cfg: Config, s: State, ls: seq<Label>, i: nat, k: nat) returns (ls': seq<Label>)
    requires i < |s.nodes|
    requires var t := Exec(cfg, s, ls); i < |t.nodes| && i < |t.agents|
    ensures Intended(s, ls', i) == Intended(s, ls, i)
    ensures var t := Exec(cfg, s, ls);
      var u := Exec(cfg, s, ls');
      && i < |u.nodes| && i < |u.agents|
      && (u.nodes[i], u.agents[i]) == AgentCalls(t.nodes[i], t.agents[i], k)
    decreases k
  {
    if k == 0 {
      ls' := ls;
    } else {
      var one := ls + [At(i, Agent)];
      assert one[..|ls|] == ls;
      ls' := CallsAtEnd(cfg, s, one, i, k - 1);
    }
  }

  /** So a run that comes to a start with the mark true and permission withdrawn
      goes on to one in which the agent waits for permission and the
      administrator's cordon is gone. */
  lemma CordonLostAfter(cfg: Config, s: State, ls: seq<Label>, i: nat) returns (ls': seq<Label>)
    requires i < |s.nodes|
    requires var t := Exec(cfg, s, ls);
      && i < |t.nodes| && i < |t.agents|
      && t.agents[i] == Boot && t.nodes[i].madeUnschedulable == True && !Ok(t.nodes[i])
    ensures var u := Exec(cfg, s, ls');
      && i < |u.nodes| && i < |u.agents|
      && u.agents[i] == WaitOk && !u.nodes[i].unschedulable && Intended(s, ls', i)
  {
    var cordoned := ls + [At(i, SetCordon(true))];
    assert cordoned[..|ls|] == ls;
    CordonLost(Exec(cfg, s, ls).nodes[i]);
    var k := 5;
    ls' := CallsAtEnd(cfg, s, cordoned, i, k);
  }

  // ---------------------------------------------------------------------
  // While it is drained

  /** The administrator does not uncordon a node the agent is about to drain or
      is draining. */
  predicate LeavesCordon(pc: Pc, e: Event) {
    e == SetCordon(false) ==> pc != Marking(true) && !pc.Drain? && !pc.Rebooting?
  }

  function LeavesCordonOf(i: nat): (State, Label) -> bool {
    (s: State, l: Label) => l.At? && l.i == i && i < |s.agents| ==> LeavesCordon(s.agents[i], l.e)
  }

  predicate Shielded(n: Node, pc: Pc) {
    pc == Marking(true) || pc.Drain? || pc.Rebooting? ==> n.unschedulable
  }

  lemma ShieldedLocal(n: Node, pc: Pc, e: Event)
    requires Shielded(n, pc)
    ensures var (m, pc') := Local(n, pc, e); Shielded(m, pc') <==> LeavesCordon(pc, e)
  {
  }

  /** Then no pod is evicted from a node that takes new ones. */
  lemma {:induction false} DrainedIsCordoned(cfg: Config, s: State, ls: seq<Label>, i: nat)
    requires |s.agents| == |s.nodes| && i < |s.nodes| && s.agents[i].Boot?
    requires Always(cfg, s, ls, LeavesCordonOf(i))
    ensures var t := Exec(cfg, s, ls);
      |t.agents| == |t.nodes| == |s.nodes| && Shielded(t.nodes[i], t.agents[i])
  {
    if ls != [] {
      var k := |ls| - 1;
      var t := Exec(cfg, s, ls[..k]);
      DrainedIsCordoned(cfg, s, ls[..k], i);
      OthersLeaveCordon(cfg, t, ls[k], i);
      if ls[k].At? && ls[k].i == i {
        ShieldedLocal(t.nodes[i], t.agents[i], ls[k].e);
      }
    }
  }
}
