/** Between its grant and its release a node reboots exactly once, as long as its
    agent is not cut off. */
module Reboots {
  import opened Nodes
  import opened Passes
  import opened Protocol
  import opened Safety
  import opened Permits

  predicate Reboots(s: State, l: Label, i: nat) {
    l == At(i, Agent) && i < |s.agents| && s.agents[i].Rebooting?
  }

  /** How often node i reboots in a run. */
  function RebootCount(cfg: Config, s: State, ls: seq<Label>, i: nat): nat {
    if ls == [] then 0
    else
      var k := |ls| - 1;
      RebootCount(cfg, s, ls[..k], i) + (if Reboots(Exec(cfg, s, ls[..k]), ls[k], i) then 1 else 0)
  }

  /** The agent of node i deletes the pods of its node. */
  predicate Drains(s: State, l: Label, i: nat) {
    l == At(i, Agent) && i < |s.nodes| && i < |s.agents| && s.agents[i].Drain?
  }

  function DrainCount(cfg: Config, s: State, ls: seq<Label>, i: nat): nat {
    if ls == [] then 0
    else
      var k := |ls| - 1;
      DrainCount(cfg, s, ls[..k], i) + (if Drains(Exec(cfg, s, ls[..k]), ls[k], i) then 1 else 0)
  }

  /** Each reboot comes after a drain of its own, and each drain after a sight of
      permission of its own. */
  predicate InTurn(pc: Pc, reboots: nat, drains: nat, tickets: nat) {
    && reboots + (if pc.Rebooting? then 1 else 0) <= drains
    && drains + (if Danger(pc) && !pc.Rebooting? then 1 else 0) <= tickets
  }

  lemma {:induction false} DrainedBeforeReboot(cfg: Config, s: State, ls: seq<Label>, i: nat)
    requires |s.agents| == |s.nodes| && i < |s.nodes| && Early(s.agents[i])
    ensures var t := Exec(cfg, s, ls);
      && |t.agents| == |t.nodes| == |s.nodes|
      && RebootCount(cfg, s, ls, i) + (if t.agents[i].Rebooting? then 1 else 0) <= DrainCount(cfg, s, ls, i)
      && DrainCount(cfg, s, ls, i) + (if Danger(t.agents[i]) && !t.agents[i].Rebooting? then 1 else 0)
         <= |Tickets(cfg, s, ls, i)|
      && |Tickets(cfg, s, ls, i)| <= GrantCount(cfg, s, ls, i)
  {
    DrainsBounded(cfg, s, ls, i);
    if ls != [] {
      var k := |ls| - 1;
      DrainedBeforeReboot(cfg, s, ls[..k], i);
      InTurnStep(cfg, Exec(cfg, s, ls[..k]), ls[k], i,
                 RebootCount(cfg, s, ls[..k], i), DrainCount(cfg, s, ls[..k], i), |Tickets(cfg, s, ls[..k], i)|);
    }
  }

  lemma InTurnStep(cfg: Config, s: State, l: Label, i: nat, reboots: nat, drains: nat, tickets: nat)
    requires |s.agents| == |s.nodes| && i < |s.nodes| && InTurn(s.agents[i], reboots, drains, tickets)
    ensures var t := Step(cfg, s, l);
      && |t.agents| == |t.nodes| == |s.nodes|
      && InTurn(t.agents[i], reboots + (if Reboots(s, l, i) then 1 else 0), drains + (if Drains(s, l, i) then 1 else 0),
                tickets + (if EntersDrain(s, l, i) then 1 else 0))
  {
  }

  function NoRebootOf(i: nat): (State, Label) -> bool {
    (s, l) => !Reboots(s, l, i)
  }

  /** The operator takes back node i's permission. */
  predicate Releases(s: State, l: Label, i: nat) {
    Updates(s, l, CheckAfterReboot, i)
  }

  function ReleaseCount(cfg: Config, s: State, ls: seq<Label>, i: nat): nat {
    if ls == [] then 0
    else
      var k := |ls| - 1;
      ReleaseCount(cfg, s, ls[..k], i) + (if Releases(Exec(cfg, s, ls[..k]), ls[k], i) then 1 else 0)
  }

  /** Agent i does not die between its grant and its reboot, and is not starting
      up when its node is granted. */
  predicate Timely(s: State, l: Label, i: nat) {
    i < |s.nodes| && i < |s.agents| ==>
      && (l == At(i, Crash) && StillRebooting(s.nodes[i]) ==> Early(s.agents[i]))
      && (Grants(s, l, i) ==> !Early(s.agents[i]))
  }

  function TimelyOf(i: nat): (State, Label) -> bool {
    (s, l) => Timely(s, l, i)
  }

  /** How the numbers of grants, reboots and releases stand to each other. */
  predicate InStep(n: Node, pc: Pc, grants: nat, reboots: nat, releases: nat) {
    if !Ok(n) then grants == reboots == releases
    else if Needed(n) && !Early(pc) then grants == reboots + 1 == releases + 1
    else grants == reboots == releases + 1
  }

  /** One step keeps them in step exactly when it is timely. */
  lemma InStepStep(cfg: Config, s: State, l: Label, i: nat, grants: nat, reboots: nat, releases: nat)
    requires Base(s) && Kept(s, i) && CalmResetOf(i)(s, l)
    requires InStep(s.nodes[i], s.agents[i], grants, reboots, releases)
    ensures var t := Step(cfg, s, l);
      && |t.nodes| == |s.nodes| && |t.agents| == |s.agents|
      && (InStep(t.nodes[i], t.agents[i], grants + (if Grants(s, l, i) then 1 else 0),
                 reboots + (if Reboots(s, l, i) then 1 else 0), releases + (if Releases(s, l, i) then 1 else 0))
          <==> Timely(s, l, i))
  {
    if l.Update? && s.op.Updating? && s.op.work != [] {
      UpdateOne(cfg, s);
    } else if l.At? && l.i == i {
      LocalFrame(s.nodes[i], s.agents[i], l.e);
      LocalSafe(s.nodes[i], s.agents[i], l.e);
    }
  }

  /** So in every timely run a node has rebooted exactly once for each grant that
      has been released or is about to be. */
  lemma {:induction false} OneRebootPerRelease(cfg: Config, s: State, ls: seq<Label>, i: nat)
    requires Fresh(s) && i < |s.nodes| && Always(cfg, s, ls, CalmResetOf(i)) && Always(cfg, s, ls, TimelyOf(i))
    ensures var t := Exec(cfg, s, ls);
      && |t.agents| == |t.nodes| == |s.nodes|
      && InStep(t.nodes[i], t.agents[i],
                GrantCount(cfg, s, ls, i), RebootCount(cfg, s, ls, i), ReleaseCount(cfg, s, ls, i))
      && (Releases(t, Update, i) ==>
           GrantCount(cfg, s, ls, i) == RebootCount(cfg, s, ls, i) == ReleaseCount(cfg, s, ls, i) + 1)
  {
    FreshIsSafe(cfg, s);
    assert Kept(s, i);
    if ls != [] {
      var k := |ls| - 1;
      OneRebootPerRelease(cfg, s, ls[..k], i);
      KeptRun(cfg, s, ls[..k], i);
      InStepStep(cfg, Exec(cfg, s, ls[..k]), ls[k], i,
                 GrantCount(cfg, s, ls[..k], i), RebootCount(cfg, s, ls[..k], i), ReleaseCount(cfg, s, ls[..k], i));
    }
    KeptRun(cfg, s, ls, i);
    var t := Exec(cfg, s, ls);
    if Releases(t, Update, i) {
      UpdateOne(cfg, t);
    }
  }
}
