/** The operator's reconcile pass on node values: which nodes each phase
    selects from its list, what it does to them, and what a whole error-free
    pass amounts to. */
module Passes {
  import opened Lists
  import opened Nodes

  datatype Phase = CleanupState | CheckAfterReboot | MarkAfterReboot | CheckBeforeReboot | MarkBeforeReboot

  predicate Rebootable(n: Node) {
    Wants(n) && !Before(n)
  }

  /** What markBeforeReboot takes for the number of rebooting nodes. */
  function Busy(nodes: seq<Node>): nat {
    Count(nodes, StillRebooting) + Count(nodes, Before) + Count(nodes, After)
  }

  /** Whether a phase other than the last will update a node it lists. */
  predicate Due(cfg: Config, p: Phase, n: Node) {
    match p
    case CleanupState => true
    case CheckAfterReboot => After(n) && HasAll(n, cfg.after)
    case MarkAfterReboot => JustRebooted(n) && !After(n)
    case CheckBeforeReboot => Before(n) && HasAll(n, cfg.before)
    case MarkBeforeReboot => false
  }

  function DueIn(cfg: Config, p: Phase): Node -> bool {
    n => Due(cfg, p, n)
  }

  /** The nodes a phase will update, as computed from its list. */
  function Select(cfg: Config, p: Phase, inWindow: bool, nodes: seq<Node>): seq<nat> {
    if !p.MarkBeforeReboot? then Ids(nodes, DueIn(cfg, p))
    else if !inWindow || Busy(nodes) >= cfg.max then []
    else Take(Ids(nodes, Rebootable), cfg.max - Busy(nodes))
  }

  /** The update a phase makes to one node, on the node as it is by then. */
  function Apply(cfg: Config, p: Phase, n: Node): Node {
    match p
    case CleanupState => Cleanup(cfg, n)
    case CheckAfterReboot => Release(cfg, n)
    case MarkAfterReboot => MarkAfter(cfg, n)
    case CheckBeforeReboot => Grant(cfg, n)
    case MarkBeforeReboot => MarkBefore(cfg, n)
  }

  /** Exactly which nodes markBeforeReboot chooses, in terms of the three lists and
      of the nodes that come first. */
  lemma ChosenExactly(cfg: Config, inWindow: bool, nodes: seq<Node>, i: nat)
    requires i < |nodes|
    ensures i in Select(cfg, MarkBeforeReboot, inWindow, nodes) <==>
      && inWindow && Wants(nodes[i]) && nodes[i].beforeReboot != True
      && Count(nodes, StillRebooting) + Count(nodes, Before) + Count(nodes, After)
         + Count(nodes[..i], Rebootable) < cfg.max
  {
    if Busy(nodes) < cfg.max {
      TakeIds(nodes, Rebootable, cfg.max - Busy(nodes), i);
    }
  }

  /** An update writes nothing but the two labels, reboot-ok and the configured
      checks. Of the checks it deletes the configured ones and keeps the others. */
  lemma UpdateFrame(cfg: Config, p: Phase, n: Node, k: string)
    ensures var m := Apply(cfg, p, n);
      var names := if p.CheckAfterReboot? || p.MarkAfterReboot? then cfg.after else cfg.before;
      && m == n.(beforeReboot := m.beforeReboot, afterReboot := m.afterReboot, rebootOk := m.rebootOk, checks := m.checks)
      && (p.CleanupState? && (n.beforeReboot == Absent || Wants(n)) ==> m == n)
      && (if k in names && !(p.CleanupState? && (n.beforeReboot == Absent || Wants(n))) then k !in m.checks
          else (k in m.checks <==> k in n.checks) && (k in m.checks ==> m.checks[k] == n.checks[k]))
  {
  }

  /** And what it writes to the labels and to reboot-ok. */
  lemma UpdateWrites(cfg: Config, p: Phase, n: Node)
    ensures var m := Apply(cfg, p, n);
      match p
      case CleanupState =>
        && m.afterReboot == n.afterReboot && m.rebootOk == n.rebootOk
        && m.beforeReboot == if Wants(n) then n.beforeReboot else Absent
      case CheckAfterReboot => m.beforeReboot == n.beforeReboot && m.afterReboot == Absent && m.rebootOk == False
      case MarkAfterReboot => m.beforeReboot == n.beforeReboot && m.afterReboot == True && m.rebootOk == n.rebootOk
      case CheckBeforeReboot => m.beforeReboot == Absent && m.afterReboot == n.afterReboot && m.rebootOk == True
      case MarkBeforeReboot => m.beforeReboot == True && m.afterReboot == n.afterReboot && m.rebootOk == n.rebootOk
  {
  }

  predicate InRange(ids: seq<nat>, n: nat) {
    forall j :: 0 <= j < |ids| ==> ids[j] < n
  }

  function ApplyAll(cfg: Config, p: Phase, nodes: seq<Node>, ids: seq<nat>): (r: seq<Node>)
    requires InRange(ids, |nodes|)
    ensures |r| == |nodes|
  {
    if ids == [] then nodes
    else
      var k := |ids| - 1;
      var m := ApplyAll(cfg, p, nodes, ids[..k]);
      m[ids[k] := Apply(cfg, p, m[ids[k]])]
  }

  lemma SelectExact(cfg: Config, p: Phase, inWindow: bool, nodes: seq<Node>)
    ensures Ascending(Select(cfg, p, inWindow, nodes))
    ensures InRange(Select(cfg, p, inWindow, nodes), |nodes|)
    ensures forall i: nat :: i in Select(cfg, p, inWindow, nodes) ==> i < |nodes|
    ensures forall i: nat :: i < |nodes| && !p.MarkBeforeReboot? ==>
      (i in Select(cfg, p, inWindow, nodes) <==> Due(cfg, p, nodes[i]))
    ensures p.MarkBeforeReboot? ==> forall i: nat :: i in Select(cfg, p, inWindow, nodes) ==> Rebootable(nodes[i])
    ensures p.MarkBeforeReboot? && Select(cfg, p, inWindow, nodes) != [] ==>
      |Select(cfg, p, inWindow, nodes)| + Busy(nodes) <= cfg.max
  {
    IdsExact(nodes, DueIn(cfg, p));
    IdsExact(nodes, Rebootable);
    if Busy(nodes) < cfg.max {
      TakeExact(Ids(nodes, Rebootable), cfg.max - Busy(nodes));
    }
    var ids := Select(cfg, p, inWindow, nodes);
    forall j | 0 <= j < |ids| ensures ids[j] < |nodes| {
      assert ids[j] in ids;
    }
  }

  /** Updating distinct nodes touches each of them once and nothing else. */
  lemma {:induction false} ApplyAllAt(cfg: Config, p: Phase, nodes: seq<Node>, ids: seq<nat>, i: nat)
    requires InRange(ids, |nodes|) && Ascending(ids) && i < |nodes|
    ensures ApplyAll(cfg, p, nodes, ids)[i] == if i in ids then Apply(cfg, p, nodes[i]) else nodes[i]
  {
    if ids != [] {
      var k := |ids| - 1;
      ApplyAllAt(cfg, p, nodes, ids[..k], i);
      assert ids == ids[..k] + [ids[k]];
    }
  }

  function RunPhase(cfg: Config, p: Phase, inWindow: bool, nodes: seq<Node>): (r: seq<Node>)
    ensures |r| == |nodes|
  {
    SelectExact(cfg, p, inWindow, nodes);
    ApplyAll(cfg, p, nodes, Select(cfg, p, inWindow, nodes))
  }

  function Following(p: Phase): Phase {
    match p
    case CleanupState => CheckAfterReboot
    case CheckAfterReboot => MarkAfterReboot
    case MarkAfterReboot => CheckBeforeReboot
    case CheckBeforeReboot => MarkBeforeReboot
    case MarkBeforeReboot => CleanupState
  }

  const ORDER := [CleanupState, CheckAfterReboot, MarkAfterReboot, CheckBeforeReboot, MarkBeforeReboot]

  /** The first k phases of process, one after the other. */
  function RunPhases(cfg: Config, inWindow: bool, nodes: seq<Node>, k: nat): (r: seq<Node>)
    requires k <= |ORDER|
    ensures |r| == |nodes|
  {
    if k == 0 then nodes else RunPhase(cfg, ORDER[k - 1], inWindow, RunPhases(cfg, inWindow, nodes, k - 1))
  }

  /** An error-free pass with nothing else happening meanwhile. */
  function Pass(cfg: Config, inWindow: bool, nodes: seq<Node>): (r: seq<Node>)
    ensures |r| == |nodes|
  {
    RunPhases(cfg, inWindow, nodes, |ORDER|)
  }

  lemma OrderFollows(k: nat)
    requires k < |ORDER|
    ensures k + 1 < |ORDER| <==> ORDER[k] != MarkBeforeReboot
    ensures k + 1 < |ORDER| ==> Following(ORDER[k]) == ORDER[k + 1]
    ensures k + 1 == |ORDER| ==> Following(ORDER[k]) == ORDER[0]
  {
  }
}
