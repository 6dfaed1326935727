/** What the agent's annotations tell an observer, in every run. */
module Annotations {
  import opened Nodes
  import opened Protocol

  predicate Mirrored(s: State, i: nat) {
    |s.nodes| == |s.agents| && i < |s.nodes| && s.nodes[i].neededLabel == s.nodes[i].rebootNeeded
  }

  lemma MirrorStep(cfg: Config, s: State, l: Label, i: nat)
    requires |s.nodes| == |s.agents| && i < |s.nodes|
    ensures Mirrored(s, i) || Resets(s, l, i) ==> Mirrored(Step(cfg, s, l), i)
  {
  }

  /** From a node's first startup reset on, its reboot-needed label mirrors its
      reboot-needed annotation. */
  lemma {:induction false} NeededLabelMirrors(cfg: Config, s: State, l: Label, ls: seq<Label>, i: nat)
    requires |s.nodes| == |s.agents| && Resets(s, l, i)
    ensures Mirrored(Exec(cfg, Step(cfg, s, l), ls), i)
  {
    if ls == [] {
      MirrorStep(cfg, s, l, i);
    } else {
      var k := |ls| - 1;
      NeededLabelMirrors(cfg, s, l, ls[..k], i);
      MirrorStep(cfg, Exec(cfg, Step(cfg, s, l), ls[..k]), ls[k], i);
    }
  }

  /** reboot-in-progress says what the agent is doing. */
  predicate Truthful(n: Node, pc: Pc) {
    match pc
    case Boot => true
    case Reset(_) => true
    case Cordon => n.rebootInProgress == True
    case Drain => n.rebootInProgress == True
    case Rebooting => n.rebootInProgress == True
    case _ => n.rebootInProgress == False
  }

  lemma TruthfulStep(cfg: Config, s: State, l: Label, i: nat)
    requires |s.nodes| == |s.agents| && i < |s.nodes| && Truthful(s.nodes[i], s.agents[i])
    ensures var t := Step(cfg, s, l);
      |t.nodes| == |t.agents| == |s.nodes| && Truthful(t.nodes[i], t.agents[i])
  {
  }

  /** From an agent's start on, reboot-in-progress is true while it drains and
      reboots its node, and false from its reset until it sets out to drain. */
  lemma {:induction false} InProgressTruthful(cfg: Config, s: State, ls: seq<Label>, i: nat)
    requires |s.nodes| == |s.agents| && i < |s.nodes| && s.agents[i].Boot?
    ensures var t := Exec(cfg, s, ls);
      |t.nodes| == |t.agents| == |s.nodes| && Truthful(t.nodes[i], t.agents[i])
  {
    if ls != [] {
      InProgressTruthful(cfg, s, ls[..|ls| - 1], i);
      TruthfulStep(cfg, Exec(cfg, s, ls[..|ls| - 1]), ls[|ls| - 1], i);
    }
  }
}
