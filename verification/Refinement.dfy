/** A whole error-free pass, over lists and with five rounds of updates, is one
    small step of each node plus labels on the first nodes in line. */
module Refinement {
  import opened Lists
  import opened Nodes
  import opened Passes
  import opened Protocol
  import opened Safety

  /** What the invariant says of a node between passes. */
  predicate Tidy(n: Node) {
    && Labelled(n)
    && (Ok(n) ==> Needed(n) || IsReset(n))
    && (After(n) ==> IsReset(n))
  }

  predicate AllTidy(nodes: seq<Node>) {
    forall i :: 0 <= i < |nodes| ==> Tidy(nodes[i])
  }

  /** So the states of every run without untimely resets are tidy, between
      passes and within them. */
  lemma RunsAreTidy(cfg: Config, s: State, ls: seq<Label>)
    requires Fresh(s) && Always(cfg, s, ls, CalmReset)
    ensures AllTidy(Exec(cfg, s, ls).nodes)
  {
    FreshIsSafe(cfg, s);
    SafeRun(cfg, s, ls);
    var t := Exec(cfg, s, ls);
    forall i: nat | i < |t.nodes| ensures Tidy(t.nodes[i]) {
      assert Kept(t, i);
    }
  }

  /** The one thing a pass does to a node, new labels apart. */
  function Turn(cfg: Config, n: Node): Node {
    if After(n) then
      if HasAll(n, cfg.after) then Release(cfg, n) else n
    else if JustRebooted(n) then MarkAfter(cfg, n)
    else if Before(n) then
      if !Wants(n) then DeleteChecks(n, cfg.before).(beforeReboot := Absent)
      else if HasAll(n, cfg.before) then Grant(cfg, n)
      else n
    else n
  }

  function Turned(cfg: Config, nodes: seq<Node>): seq<Node> {
    seq(|nodes|, i requires 0 <= i < |nodes| => Turn(cfg, nodes[i]))
  }

  /** How many more nodes may be in flight. */
  function Room(cfg: Config, nodes: seq<Node>): nat {
    if Count(nodes, InFlight) < cfg.max then cfg.max - Count(nodes, InFlight) else 0
  }

  /** The nodes to label: the first in list order that want a reboot. */
  function Chosen(cfg: Config, inWindow: bool, nodes: seq<Node>): seq<nat> {
    if inWindow then Take(Ids(nodes, Rebootable), Room(cfg, nodes)) else []
  }

  function Once(cfg: Config, p: Phase, n: Node): Node {
    if Due(cfg, p, n) then Apply(cfg, p, n) else n
  }

  lemma PhaseAt(cfg: Config, p: Phase, inWindow: bool, nodes: seq<Node>, i: nat)
    requires i < |nodes| && !p.MarkBeforeReboot?
    ensures RunPhase(cfg, p, inWindow, nodes)[i] == Once(cfg, p, nodes[i])
  {
    SelectExact(cfg, p, inWindow, nodes);
    ApplyAllAt(cfg, p, nodes, Select(cfg, p, inWindow, nodes), i);
  }

  /** Four conditional updates in a row, of which a tidy node meets one. */
  lemma TurnComposes(cfg: Config, n: Node)
    requires Tidy(n)
    ensures Once(cfg, CheckBeforeReboot, Once(cfg, MarkAfterReboot,
              Once(cfg, CheckAfterReboot, Once(cfg, CleanupState, n)))) == Turn(cfg, n)
  {
  }

  lemma TurnCounts(cfg: Config, n: Node)
    requires Tidy(n)
    ensures var m := Turn(cfg, n);
      && (InFlight(m) <==> StillRebooting(m) || Before(m) || After(m))
      && !(StillRebooting(m) && Before(m)) && !(Before(m) && After(m)) && !(StillRebooting(m) && After(m))
      && (InFlight(m) ==> InFlight(n))
      && (Rebootable(m) ==> m == n && !InFlight(n))
  {
  }

  /** The first k phases, as they show at one node. */
  function Onces(cfg: Config, n: Node, k: nat): Node
    requires k <= |ORDER|
  {
    if k == 0 then n else Once(cfg, ORDER[k - 1], Onces(cfg, n, k - 1))
  }

  lemma {:induction false} PhasesAt(cfg: Config, inWindow: bool, nodes: seq<Node>, k: nat, i: nat)
    requires i < |nodes| && k < |ORDER|
    ensures RunPhases(cfg, inWindow, nodes, k)[i] == Onces(cfg, nodes[i], k)
  {
    if k > 0 {
      PhasesAt(cfg, inWindow, nodes, k - 1, i);
      OrderFollows(k - 1);
      PhaseAt(cfg, ORDER[k - 1], inWindow, RunPhases(cfg, inWindow, nodes, k - 1), i);
    }
  }

  lemma OncesTurn(cfg: Config, n: Node, k: nat)
    requires Tidy(n) && k + 1 == |ORDER|
    ensures Onces(cfg, n, k) == Turn(cfg, n)
  {
    TurnComposes(cfg, n);
    assert Onces(cfg, n, k - 4) == n;
    assert Onces(cfg, n, k - 3) == Once(cfg, CleanupState, n);
    assert Onces(cfg, n, k - 2) == Once(cfg, CheckAfterReboot, Onces(cfg, n, k - 3));
    assert Onces(cfg, n, k - 1) == Once(cfg, MarkAfterReboot, Onces(cfg, n, k - 2));
  }

  lemma PrepareTurns(cfg: Config, inWindow: bool, nodes: seq<Node>, k: nat)
    requires AllTidy(nodes) && k + 1 == |ORDER|
    ensures RunPhases(cfg, inWindow, nodes, k) == Turned(cfg, nodes)
  {
    forall i: nat | i < |nodes| ensures RunPhases(cfg, inWindow, nodes, k)[i] == Turn(cfg, nodes[i]) {
      PhasesAt(cfg, inWindow, nodes, k, i);
      OncesTurn(cfg, nodes[i], k);
    }
  }

  lemma PassEnds(cfg: Config, inWindow: bool, nodes: seq<Node>, k: nat, m: seq<Node>)
    requires k + 1 == |ORDER| && m == RunPhases(cfg, inWindow, nodes, k)
    ensures Pass(cfg, inWindow, nodes) == RunPhase(cfg, MarkBeforeReboot, inWindow, m)
  {
    OrderFollows(k);
  }

  /** What becomes of node i: its turn, and a label if it is among the chosen. */
  function Outcome(cfg: Config, inWindow: bool, nodes: seq<Node>, i: nat): Node
    requires i < |nodes|
  {
    var m := Turned(cfg, nodes);
    if i in Chosen(cfg, inWindow, m) then MarkBefore(cfg, m[i]) else m[i]
  }

  lemma LastPhase(cfg: Config, inWindow: bool, m: seq<Node>)
    requires Busy(m) == Count(m, InFlight)
    ensures InRange(Chosen(cfg, inWindow, m), |m|)
    ensures RunPhase(cfg, MarkBeforeReboot, inWindow, m) == ApplyAll(cfg, MarkBeforeReboot, m, Chosen(cfg, inWindow, m))
  {
    SelectExact(cfg, MarkBeforeReboot, inWindow, m);
    assert Select(cfg, MarkBeforeReboot, inWindow, m) == Chosen(cfg, inWindow, m);
  }

  /** An error-free pass is a turn of every node, then labels on the first
      min(max - in flight, eligible) of them. */
  lemma PassRefines(cfg: Config, inWindow: bool, nodes: seq<Node>)
    requires AllTidy(nodes)
    ensures InRange(Chosen(cfg, inWindow, Turned(cfg, nodes)), |nodes|)
    ensures Pass(cfg, inWindow, nodes)
            == ApplyAll(cfg, MarkBeforeReboot, Turned(cfg, nodes), Chosen(cfg, inWindow, Turned(cfg, nodes)))
  {
    var k := |ORDER| - 1;
    PrepareTurns(cfg, inWindow, nodes, k);
    PassEnds(cfg, inWindow, nodes, k, Turned(cfg, nodes));
    BusyIsInFlight(cfg, nodes);
    LastPhase(cfg, inWindow, Turned(cfg, nodes));
  }

  /** In particular from every state a run without untimely resets reaches. */
  lemma ReachablePassRefines(cfg: Config, s: State, ls: seq<Label>, inWindow: bool)
    requires Fresh(s) && Always(cfg, s, ls, CalmReset)
    ensures var nodes := Exec(cfg, s, ls).nodes;
      && InRange(Chosen(cfg, inWindow, Turned(cfg, nodes)), |nodes|)
      && Pass(cfg, inWindow, nodes)
         == ApplyAll(cfg, MarkBeforeReboot, Turned(cfg, nodes), Chosen(cfg, inWindow, Turned(cfg, nodes)))
  {
    RunsAreTidy(cfg, s, ls);
    PassRefines(cfg, inWindow, Exec(cfg, s, ls).nodes);
  }

  lemma PassAt(cfg: Config, inWindow: bool, nodes: seq<Node>, i: nat)
    requires AllTidy(nodes) && i < |nodes|
    ensures Pass(cfg, inWindow, nodes)[i] == Outcome(cfg, inWindow, nodes, i)
  {
    var m := Turned(cfg, nodes);
    PassRefines(cfg, inWindow, nodes);
    ChosenIsRebootable(cfg, inWindow, m);
    ApplyAllAt(cfg, MarkBeforeReboot, m, Chosen(cfg, inWindow, m), i);
  }

  lemma BusyIsInFlight(cfg: Config, nodes: seq<Node>)
    requires AllTidy(nodes)
    ensures Busy(Turned(cfg, nodes)) == Count(Turned(cfg, nodes), InFlight)
  {
    var m := Turned(cfg, nodes);
    forall i | 0 <= i < |m|
      ensures InFlight(m[i]) <==> StillRebooting(m[i]) || Before(m[i]) || After(m[i])
      ensures !(StillRebooting(m[i]) && Before(m[i])) && !(Before(m[i]) && After(m[i]))
      ensures !(StillRebooting(m[i]) && After(m[i]))
    {
      TurnCounts(cfg, nodes[i]);
    }
    CountCover(m, InFlight, StillRebooting, Before, After);
  }

  // ---------------------------------------------------------------------
  // One phase at a time

  datatype Stage = Resting | Queued | Going | Back | Checking

  function StageOf(n: Node): Stage {
    if After(n) then Checking
    else if JustRebooted(n) then Back
    else if Ok(n) then Going
    else if Before(n) then Queued
    else Resting
  }

  /** A stage and the next; a queued node may also drop out. */
  predicate NextStage(a: Stage, b: Stage) {
    || a == b
    || (a == Resting && b == Queued)
    || (a == Queued && (b == Going || b == Resting))
    || (a == Back && b == Checking)
    || (a == Checking && b == Resting)
  }

  lemma OneStage(cfg: Config, n: Node)
    requires Tidy(n)
    ensures var m := Turn(cfg, n);
      && NextStage(StageOf(n), StageOf(m)) && (m != n ==> StageOf(m) != StageOf(n))
      && (Rebootable(m) ==> StageOf(n) == Resting && StageOf(MarkBefore(cfg, m)) == Queued)
  {
  }

  /** A pass changes a node only by taking it one stage on. */
  lemma OneStagePerPass(cfg: Config, inWindow: bool, nodes: seq<Node>, i: nat)
    requires AllTidy(nodes) && i < |nodes|
    ensures var n := Pass(cfg, inWindow, nodes)[i];
      NextStage(StageOf(nodes[i]), StageOf(n)) && (n != nodes[i] ==> StageOf(n) != StageOf(nodes[i]))
  {
    PassAt(cfg, inWindow, nodes, i);
    ChosenIsRebootable(cfg, inWindow, Turned(cfg, nodes));
    OneStage(cfg, nodes[i]);
  }

  lemma ChosenIsRebootable(cfg: Config, inWindow: bool, m: seq<Node>)
    ensures Ascending(Chosen(cfg, inWindow, m)) && InRange(Chosen(cfg, inWindow, m), |m|)
    ensures |Chosen(cfg, inWindow, m)| <= Room(cfg, m)
    ensures forall i: nat :: i in Chosen(cfg, inWindow, m) ==> i < |m| && Rebootable(m[i])
    ensures inWindow && |Chosen(cfg, inWindow, m)| < Room(cfg, m) ==>
      forall i: nat :: i < |m| && Rebootable(m[i]) ==> i in Chosen(cfg, inWindow, m)
  {
    IdsExact(m, Rebootable);
    TakeExact(Ids(m, Rebootable), Room(cfg, m));
    var ids := Chosen(cfg, inWindow, m);
    assert forall j :: 0 <= j < |ids| ==> ids[j] in ids;
  }

  // ---------------------------------------------------------------------
  // Work conservation

  lemma {:induction false} LabelsCount(cfg: Config, m: seq<Node>, ids: seq<nat>)
    requires InRange(ids, |m|) && Ascending(ids)
    requires forall j :: 0 <= j < |ids| ==> !InFlight(m[ids[j]])
    ensures Count(ApplyAll(cfg, MarkBeforeReboot, m, ids), InFlight) == Count(m, InFlight) + |ids|
  {
    if ids != [] {
      var k := |ids| - 1;
      var r := ApplyAll(cfg, MarkBeforeReboot, m, ids[..k]);
      LabelsCount(cfg, m, ids[..k]);
      ApplyAllAt(cfg, MarkBeforeReboot, m, ids[..k], ids[k]);
      CountUpdate(r, ids[k], Apply(cfg, MarkBeforeReboot, r[ids[k]]), InFlight);
    }
  }

  /** After an error-free pass inside the window, either max nodes are in flight
      or no node that wants a reboot is left without a label; and a pass never
      goes over the limit. */
  lemma WorkConserved(cfg: Config, inWindow: bool, nodes: seq<Node>)
    requires AllTidy(nodes)
    ensures var r := Pass(cfg, inWindow, nodes);
      && (Count(nodes, InFlight) <= cfg.max ==> Count(r, InFlight) <= cfg.max)
      && (inWindow && Count(r, InFlight) < cfg.max ==> forall i: nat :: i < |r| ==> !Rebootable(r[i]))
  {
    var m := Turned(cfg, nodes);
    var r := Pass(cfg, inWindow, nodes);
    var ids := Chosen(cfg, inWindow, m);
    PassRefines(cfg, inWindow, nodes);
    ChosenIsRebootable(cfg, inWindow, m);
    forall i: nat | i < |m| ensures InFlight(m[i]) ==> InFlight(nodes[i])
      ensures Rebootable(m[i]) ==> !InFlight(m[i])
    {
      TurnCounts(cfg, nodes[i]);
    }
    CountLe(m, InFlight, nodes, InFlight);
    LabelsCount(cfg, m, ids);
    forall i: nat | i < |r| ensures r[i] == if i in ids then MarkBefore(cfg, m[i]) else m[i] {
      ApplyAllAt(cfg, MarkBeforeReboot, m, ids, i);
    }
  }

  /** Outside the window a pass is the turns alone: nodes under way go on, and
      no node is newly labelled. */
  lemma ClosedPassTurns(cfg: Config, nodes: seq<Node>)
    requires AllTidy(nodes)
    ensures Pass(cfg, false, nodes) == Turned(cfg, nodes)
  {
    PassRefines(cfg, false, nodes);
  }
}
