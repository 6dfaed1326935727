/** The operator as it is written: lists, filters, closures that change a node
    object in place, and calls that may fail. */
module Controller {
  import opened Lists
  import opened Nodes
  import opened Passes
  import opened Protocol
  import opened Safety

  /** A node as a list returns it. */
  datatype Item = Item(id: nat, node: Node)

  function Listed(nodes: seq<Node>): seq<Item> {
    seq(|nodes|, i requires 0 <= i < |nodes| => Item(i, nodes[i]))
  }

  function On(p: Node -> bool): Item -> bool {
    (it: Item) => p(it.node)
  }

  function All(): Item -> bool {
    it => true
  }

  /** The nodes a phase's last loop updates. */
  function WorkOf(items: seq<Item>, required: seq<string>): seq<nat> {
    if items == [] then []
    else
      var k := |items| - 1;
      WorkOf(items[..k], required) + (if HasAll(items[k].node, required) then [items[k].id] else [])
  }

  lemma WorkSnoc(items: seq<Item>, j: nat, required: seq<string>)
    requires j < |items|
    ensures WorkOf(items[..j + 1], required)
            == WorkOf(items[..j], required) + (if HasAll(items[j].node, required) then [items[j].id] else [])
  {
    assert items[..j + 1][..j] == items[..j];
  }

  lemma {:induction false} WorkPrefix(items: seq<Item>, j: nat, required: seq<string>)
    requires j <= |items|
    ensures WorkOf(items[..j], required) <= WorkOf(items, required)
    ensures required == [] ==> |WorkOf(items[..j], required)| == j
    decreases |items|
  {
    if j < |items| {
      WorkPrefix(items[..|items| - 1], j, required);
      assert items[..|items| - 1][..j] == items[..j];
    } else {
      assert items[..j] == items;
      if j > 0 {
        WorkPrefix(items[..j - 1], j - 1, required);
        assert items[..j - 1][..j - 1] == items[..j - 1];
      }
    }
  }

  lemma WorkNext(items: seq<Item>, j: nat, required: seq<string>, done: nat)
    requires j < |items| && done <= |WorkOf(items, required)|
    requires WorkOf(items, required)[..done] == WorkOf(items[..j], required)
    ensures var work := WorkOf(items, required);
      if HasAll(items[j].node, required)
      then done < |work| && work[done] == items[j].id && work[..done + 1] == WorkOf(items[..j + 1], required)
      else work[..done] == WorkOf(items[..j + 1], required)
  {
    WorkSnoc(items, j, required);
    WorkPrefix(items, j + 1, required);
  }

  lemma ApplyNext(cfg: Config, p: Phase, nodes: seq<Node>, work: seq<nat>, done: nat)
    requires InRange(work, |nodes|) && done < |work|
    ensures var m := ApplyAll(cfg, p, nodes, work[..done]);
      ApplyAll(cfg, p, nodes, work[..done + 1]) == m[work[done] := Apply(cfg, p, m[work[done]])]
  {
    assert work[..done + 1][..done] == work[..done];
  }

  /** Filtering the listed items selects the same nodes, in the same order. */
  lemma {:induction false} WorkOfListed(nodes: seq<Node>, sel: Item -> bool, required: seq<string>, p: Node -> bool)
    requires forall i: nat :: i < |nodes| ==> (sel(Item(i, nodes[i])) && HasAll(nodes[i], required) <==> p(nodes[i]))
    ensures WorkOf(Filter(Listed(nodes), sel), required) == Ids(nodes, p)
  {
    if nodes != [] {
      var k := |nodes| - 1;
      WorkOfListed(nodes[..k], sel, required, p);
      assert Listed(nodes)[..k] == Listed(nodes[..k]);
      var front := Filter(Listed(nodes[..k]), sel);
      assert Listed(nodes)[k] == Item(k, nodes[k]);
      if sel(Item(k, nodes[k])) {
        assert (front + [Item(k, nodes[k])])[..|front|] == front;
      } else {
        assert Filter(Listed(nodes), sel) == front;
      }
    }
  }

  /** Steps of the operator alone, as a run without agents. */
  ghost predicate Replays(cfg: Config, a: seq<Node>, from: Op, ls: seq<Label>, b: seq<Node>, to: Op) {
    && (forall j :: 0 <= j < |ls| ==> !ls[j].At?)
    && Exec(cfg, State(a, [], from), ls) == State(b, [], to)
  }

  /** They do the same whatever the agents are. */
  lemma {:induction false} ReplaysBesideAgents(cfg: Config, a: seq<Node>, agents: seq<Pc>, from: Op, ls: seq<Label>)
    requires forall j :: 0 <= j < |ls| ==> !ls[j].At?
    ensures Exec(cfg, State(a, agents, from), ls) == Exec(cfg, State(a, [], from), ls).(agents := agents)
    ensures Exec(cfg, State(a, [], from), ls).agents == []
  {
    if ls != [] {
      ReplaysBesideAgents(cfg, a, agents, from, ls[..|ls| - 1]);
    }
  }

  lemma ReplaysThen(cfg: Config, a: seq<Node>, from: Op, l1: seq<Label>, b: seq<Node>, mid: Op,
                    l2: seq<Label>, c: seq<Node>, to: Op)
    requires Replays(cfg, a, from, l1, b, mid) && Replays(cfg, b, mid, l2, c, to)
    ensures Replays(cfg, a, from, l1 + l2, c, to)
  {
    ExecAppend(cfg, State(a, [], from), l1, l2);
  }

  function Times(k: nat): seq<Label> {
    seq(k, _ => Update)
  }

  lemma {:induction false} UpdatesReplay(cfg: Config, p: Phase, nodes: seq<Node>, work: seq<nat>, k: nat)
    requires InRange(work, |nodes|) && k <= |work|
    ensures Replays(cfg, nodes, Updating(p, work), Times(k), ApplyAll(cfg, p, nodes, work[..k]), Updating(p, work[k..]))
  {
    if k == 0 {
      assert work[..0] == [] && work[0..] == work;
    } else {
      UpdatesReplay(cfg, p, nodes, work, k - 1);
      assert work[..k][..k - 1] == work[..k - 1];
      assert work[k - 1..][1..] == work[k..];
      assert Times(k)[..k - 1] == Times(k - 1);
    }
  }

  /** The steps of a phase that commits `done` updates and then ends. */
  function PhaseSteps(inWindow: bool, done: nat, err: bool): seq<Label> {
    [List(inWindow)] + Times(done) + [if err then Abort else Advance]
  }

  function PhaseEnd(p: Phase, err: bool): Op {
    if err then IDLE else ToList(Following(p))
  }

  lemma PhaseReplays(cfg: Config, p: Phase, inWindow: bool, nodes: seq<Node>, done: nat, err: bool)
    requires var work := Select(cfg, p, inWindow, nodes);
      done <= |work| && (!err ==> done == |work|) && InRange(work, |nodes|)
    ensures Replays(cfg, nodes, ToList(p), PhaseSteps(inWindow, done, err),
                    ApplyAll(cfg, p, nodes, Select(cfg, p, inWindow, nodes)[..done]), PhaseEnd(p, err))
  {
    var work := Select(cfg, p, inWindow, nodes);
    var m := ApplyAll(cfg, p, nodes, work[..done]);
    var last := [if err then Abort else Advance];
    UpdatesReplay(cfg, p, nodes, work, done);
    assert [List(inWindow)][..0] == [] && last[..0] == [];
    ReplaysThen(cfg, nodes, ToList(p), [List(inWindow)], nodes, Updating(p, work), Times(done), m, Updating(p, work[done..]));
    ReplaysThen(cfg, nodes, ToList(p), [List(inWindow)] + Times(done), m, Updating(p, work[done..]), last, m, PhaseEnd(p, err));
  }

  /** hasAllAnnotations */
  method HasAllAnnotations(n: Node, names: seq<string>) returns (r: bool)
    ensures r <==> HasAll(n, names)
    ensures r <==> forall j :: 0 <= j < |names| ==> names[j] in n.checks && n.checks[names[j]] == True
  {
    for j := 0 to |names|
      invariant forall i :: 0 <= i < j ==> names[i] in n.checks && n.checks[names[i]] == True
    {
      if names[j] !in n.checks || n.checks[names[j]] != True {
        return false;
      }
    }
    return true;
  }

  /** FilterNodesByAnnotation and FilterNodesByRequirement */
  method FilterNodes(list: seq<Item>, sel: Node -> bool) returns (ret: seq<Item>)
    ensures ret == Filter(list, On(sel))
    ensures forall it :: it in ret <==> it in list && sel(it.node)
  {
    ret := [];
    for j := 0 to |list|
      invariant ret == Filter(list[..j], On(sel))
      invariant forall it :: it in ret <==> it in list[..j] && sel(it.node)
    {
      FilterSnoc(list, j, On(sel));
      if sel(list[j].node) {
        ret := ret + [list[j]];
      }
    }
    assert list[..|list|] == list;
  }

  /** The first nodes in list order, as many as there is room for. */
  method ChooseNodes(rebootable: seq<Item>, remaining: nat) returns (chosen: seq<Item>)
    ensures chosen == Take(rebootable, remaining)
    ensures chosen <= rebootable && |chosen| == if remaining < |rebootable| then remaining else |rebootable|
  {
    chosen := [];
    var i := 0;
    while i < remaining && i < |rebootable|
      invariant i <= remaining && i <= |rebootable|
      invariant chosen == rebootable[..i]
    {
      chosen := chosen + [rebootable[i]];
      i := i + 1;
    }
  }

  lemma {:induction false} FilterAll(items: seq<Item>)
    ensures Filter(items, All()) == items
  {
    if items != [] {
      FilterAll(items[..|items| - 1]);
      assert items == items[..|items| - 1] + [items[|items| - 1]];
    }
  }

  lemma FilterCount(nodes: seq<Node>, p: Node -> bool)
    ensures |Filter(Listed(nodes), On(p))| == Count(nodes, p)
  {
    WorkOfListed(nodes, On(p), [], p);
    var items := Filter(Listed(nodes), On(p));
    WorkPrefix(items, |items|, []);
    assert items[..|items|] == items;
  }

  lemma WorkOfTake(items: seq<Item>, n: nat)
    ensures WorkOf(Take(items, n), []) == Take(WorkOf(items, []), n)
  {
    WorkPrefix(items, |items|, []);
    assert items[..|items|] == items;
    if n < |items| {
      WorkPrefix(items, n, []);
    }
  }

  /** A phase that listed a has turned it into b: its first `done` updates, all
      of them unless it reports an error. */
  ghost predicate Ran(cfg: Config, p: Phase, inWindow: bool, a: seq<Node>, b: seq<Node>, err: bool, done: nat) {
    var work := Select(cfg, p, inWindow, a);
    && InRange(work, |a|)
    && done <= |work| && (!err ==> done == |work|)
    && b == ApplyAll(cfg, p, a, work[..done])
  }

  /** A pass that began with a has turned it into b, and got this far. */
  ghost predicate Stopped(cfg: Config, inWindow: bool, a: seq<Node>, b: seq<Node>, err: bool, k: nat, done: nat) {
    && k < |ORDER|
    && (!err ==> k + 1 == |ORDER|)
    && Ran(cfg, ORDER[k], inWindow, RunPhases(cfg, inWindow, a, k), b, err, done)
  }

  /** The calls of the first k phases: a list each, and an update for each node
      selected. */
  function CallsBefore(cfg: Config, inWindow: bool, a: seq<Node>, k: nat): nat
    requires k <= |ORDER|
  {
    if k == 0 then 0
    else
      CallsBefore(cfg, inWindow, a, k - 1) + 1 + |Select(cfg, ORDER[k - 1], inWindow, RunPhases(cfg, inWindow, a, k - 1))|
  }

  /** The calls of a pass that got into phase k: those of the phases before, one
      list, an update for each node done, and at most one call that was refused. */
  predicate CallsMade(cfg: Config, inWindow: bool, a: seq<Node>, k: nat, made: int, err: bool, done: nat) {
    && k <= |ORDER|
    && var calls := CallsBefore(cfg, inWindow, a, k) + 1 + done;
       calls <= made <= calls + if err then 1 else 0
  }

  lemma PhaseEnds(cfg: Config, inWindow: bool, k: nat, a: seq<Node>, b: seq<Node>, c: seq<Node>, err: bool, done: nat)
    requires k + 1 < |ORDER|
    requires b == RunPhases(cfg, inWindow, a, k) && Ran(cfg, ORDER[k], false, b, c, err, done)
    ensures err ==> Stopped(cfg, inWindow, a, c, err, k, done)
    ensures !err ==> c == RunPhases(cfg, inWindow, a, k + 1)
    ensures !err ==> CallsBefore(cfg, inWindow, a, k + 1) == CallsBefore(cfg, inWindow, a, k) + 1 + done
  {
    OrderFollows(k);
    var work := Select(cfg, ORDER[k], inWindow, b);
    assert work[..|work|] == work;
  }

  /** A pass that reports no error is exactly Pass. */
  lemma StoppedAtEnd(cfg: Config, inWindow: bool, a: seq<Node>, b: seq<Node>, k: nat, done: nat)
    requires Stopped(cfg, inWindow, a, b, false, k, done)
    ensures b == Pass(cfg, inWindow, a)
  {
    var work := Select(cfg, ORDER[k], inWindow, RunPhases(cfg, inWindow, a, k));
    assert work[..|work|] == work;
  }

  lemma PhaseReplaysFully(cfg: Config, p: Phase, inWindow: bool, a: seq<Node>, b: seq<Node>) returns (steps: seq<Label>)
    requires b == RunPhase(cfg, p, inWindow, a)
    ensures Replays(cfg, a, ToList(p), steps, b, ToList(Following(p)))
  {
    SelectExact(cfg, p, inWindow, a);
    var work := Select(cfg, p, inWindow, a);
    assert work[..|work|] == work;
    PhaseReplays(cfg, p, inWindow, a, |work|, false);
    steps := PhaseSteps(inWindow, |work|, false);
  }

  lemma PhaseReplaysAfter(cfg: Config, a: seq<Node>, front: seq<Label>, b: seq<Node>, p: Phase, inWindow: bool, c: seq<Node>)
    returns (steps: seq<Label>)
    requires Replays(cfg, a, IDLE, front, b, ToList(p)) && c == RunPhase(cfg, p, inWindow, b)
    ensures Replays(cfg, a, IDLE, steps, c, ToList(Following(p)))
  {
    var last := PhaseReplaysFully(cfg, p, inWindow, b, c);
    steps := front + last;
    ReplaysThen(cfg, a, IDLE, front, b, ToList(p), last, c, ToList(Following(p)));
  }

  /** The first k phases are a run of operator steps. */
  ghost predicate PhasesReplayed(cfg: Config, inWindow: bool, a: seq<Node>, k: nat)
    requires k < |ORDER|
  {
    exists steps :: Replays(cfg, a, IDLE, steps, RunPhases(cfg, inWindow, a, k), ToList(ORDER[k]))
  }

  lemma NextPhaseReplays(cfg: Config, inWindow: bool, a: seq<Node>, k: nat)
    requires k + 1 < |ORDER| && PhasesReplayed(cfg, inWindow, a, k)
    ensures PhasesReplayed(cfg, inWindow, a, k + 1)
  {
    var b := RunPhases(cfg, inWindow, a, k);
    var c := RunPhases(cfg, inWindow, a, k + 1);
    var front :| Replays(cfg, a, IDLE, front, b, ToList(ORDER[k]));
    OrderFollows(k);
    var steps := PhaseReplaysAfter(cfg, a, front, b, ORDER[k], inWindow, c);
    assert Replays(cfg, a, IDLE, steps, c, ToList(ORDER[k + 1]));
  }

  lemma {:induction false} PhasesReplay(cfg: Config, inWindow: bool, a: seq<Node>, k: nat)
    requires k < |ORDER|
    ensures PhasesReplayed(cfg, inWindow, a, k)
  {
    if k == 0 {
      assert Replays(cfg, a, IDLE, [], RunPhases(cfg, inWindow, a, k), ToList(ORDER[k]));
    } else {
      PhasesReplay(cfg, inWindow, a, k - 1);
      NextPhaseReplays(cfg, inWindow, a, k - 1);
    }
  }

  /** Wherever it stopped, a pass is a run of operator steps from idle to idle,
      so what is proved of all runs holds of it. */
  lemma PassReplays(cfg: Config, inWindow: bool, a: seq<Node>, b: seq<Node>, err: bool, k: nat, done: nat,
                    agents: seq<Pc>) returns (steps: seq<Label>)
    requires Stopped(cfg, inWindow, a, b, err, k, done)
    ensures Exec(cfg, State(a, agents, IDLE), steps) == State(b, agents, IDLE)
    ensures forall j :: 0 <= j < |steps| ==> !steps[j].At?
  {
    var n := RunPhases(cfg, inWindow, a, k);
    PhasesReplay(cfg, inWindow, a, k);
    var front :| Replays(cfg, a, IDLE, front, n, ToList(ORDER[k]));
    OrderFollows(k);
    PhaseReplays(cfg, ORDER[k], inWindow, n, done, err);
    steps := front + PhaseSteps(inWindow, done, err);
    ReplaysThen(cfg, a, IDLE, front, n, ToList(ORDER[k]), PhaseSteps(inWindow, done, err), b, IDLE);
    ReplaysBesideAgents(cfg, a, agents, IDLE, steps);
  }

  lemma {:induction false} AloneIsCalm(cfg: Config, s: State, ls: seq<Label>)
    requires forall j :: 0 <= j < |ls| ==> !ls[j].At?
    ensures Always(cfg, s, ls, CalmReset) && Always(cfg, s, ls, CalmCount)
  {
    if ls != [] {
      AloneIsCalm(cfg, s, ls[..|ls| - 1]);
    }
  }

  /** In particular a pass keeps the limits, whichever of its calls fail. */
  lemma PassKeepsLimits(cfg: Config, inWindow: bool, a: seq<Node>, b: seq<Node>, err: bool, k: nat, done: nat,
                        agents: seq<Pc>)
    requires Stopped(cfg, inWindow, a, b, err, k, done) && Flight(cfg, State(a, agents, IDLE))
    ensures Flight(cfg, State(b, agents, IDLE)) && Count(b, InFlight) <= cfg.max
  {
    var steps := PassReplays(cfg, inWindow, a, b, err, k, done, agents);
    AloneIsCalm(cfg, State(a, agents, IDLE), steps);
    FlightRun(cfg, State(a, agents, IDLE), steps);
  }

  /** The nodes still rebooting, and those running their checks. */
  method RebootingNodes(list: seq<Item>, ghost nodes: seq<Node>) returns (rebooting: seq<Item>)
    requires list == Listed(nodes)
    ensures |rebooting| == Busy(nodes)
  {
    rebooting := FilterNodes(list, StillRebooting);
    var beforeReboot := FilterNodes(list, Before);
    rebooting := rebooting + beforeReboot;
    var afterReboot := FilterNodes(list, After);
    rebooting := rebooting + afterReboot;
    FilterCount(nodes, StillRebooting);
    FilterCount(nodes, Before);
    FilterCount(nodes, After);
  }

  method RebootableNodes(list: seq<Item>, ghost nodes: seq<Node>) returns (rebootable: seq<Item>)
    requires list == Listed(nodes)
    ensures WorkOf(rebootable, []) == Ids(nodes, Rebootable)
  {
    var notBefore: Node -> bool := n => !Before(n);
    rebootable := FilterNodes(list, Wants);
    rebootable := FilterNodes(rebootable, notBefore);
    FilterTwice(list, On(Wants), On(notBefore));
    WorkOfListed(nodes, Both(On(Wants), On(notBefore)), [], Rebootable);
  }

  /** The nodes that just rebooted and are not labelled yet. */
  method JustRebootedNodes(cfg: Config, list: seq<Item>, ghost nodes: seq<Node>) returns (justRebooted: seq<Item>)
    requires list == Listed(nodes)
    ensures WorkOf(justRebooted, []) == Ids(nodes, DueIn(cfg, Phase.MarkAfterReboot))
  {
    var notAfter: Node -> bool := n => !After(n);
    justRebooted := FilterNodes(list, JustRebooted);
    justRebooted := FilterNodes(justRebooted, notAfter);
    FilterTwice(list, On(JustRebooted), On(notAfter));
    WorkOfListed(nodes, Both(On(JustRebooted), On(notAfter)), [], DueIn(cfg, Phase.MarkAfterReboot));
  }

  /** What markBeforeReboot chooses from its list: nothing outside the window or
      at the limit, and otherwise as many nodes as there is room for. */
  method ChosenNodes(cfg: Config, inWindow: bool, list: seq<Item>, ghost nodes: seq<Node>) returns (chosen: seq<Item>)
    requires list == Listed(nodes)
    ensures WorkOf(chosen, []) == Select(cfg, MarkBeforeReboot, inWindow, nodes)
  {
    chosen := [];
    if !inWindow {
      return;
    }
    var rebooting := RebootingNodes(list, nodes);
    if |rebooting| >= cfg.max {
      return;
    }
    var rebootable := RebootableNodes(list, nodes);
    chosen := ChooseNodes(rebootable, cfg.max - |rebooting|);
    WorkOfTake(rebootable, cfg.max - |rebooting|);
  }

  /** A node object in the hands of an update closure. */
  class NodeObject {
    var node: Node

    constructor (n: Node)
      ensures node == n
    {
      node := n;
    }

    method DeleteAnnotations(names: seq<string>)
      modifies this
      ensures node == DeleteChecks(old(node), names)
      ensures node == old(node).(checks := node.checks)
      ensures forall k :: k in node.checks <==> k in old(node).checks && k !in names
      ensures forall k :: k in node.checks ==> node.checks[k] == old(node).checks[k]
    {
      for j := 0 to |names|
        invariant node == DeleteChecks(old(node), names[..j])
      {
        assert names[..j + 1] == names[..j] + [names[j]];
        node := node.(checks := node.checks - {names[j]});
      }
      assert names[..|names|] == names;
    }

    method CleanupClosure(cfg: Config)
      modifies this
      ensures node == Cleanup(cfg, old(node))
    {
      if node.beforeReboot != Absent {
        if !Wants(node) {
          node := node.(beforeReboot := Absent);
          DeleteAnnotations(cfg.before);
        }
      }
    }

    method GrantClosure(cfg: Config)
      modifies this
      ensures node == Grant(cfg, old(node))
    {
      node := node.(beforeReboot := Absent);
      DeleteAnnotations(cfg.before);
      node := node.(rebootOk := True);
    }

    method ReleaseClosure(cfg: Config)
      modifies this
      ensures node == Release(cfg, old(node))
    {
      node := node.(afterReboot := Absent);
      DeleteAnnotations(cfg.after);
      node := node.(rebootOk := False);
    }

    method MarkClosure(cfg: Config, p: Phase)
      requires p == MarkBeforeReboot || p == MarkAfterReboot
      modifies this
      ensures node == Apply(cfg, p, old(node))
    {
      if p == MarkBeforeReboot {
        DeleteAnnotations(cfg.before);
        node := node.(beforeReboot := True);
      } else {
        DeleteAnnotations(cfg.after);
        node := node.(afterReboot := True);
      }
    }
  }

  /** How an API call ends. A lost call was carried out and reports failure. */
  datatype Reply = Done | Refused | Lost

  class Kontroller {
    const cfg: Config
    const replies: nat -> Reply
    var calls: nat
    /** The node objects at the API server. */
    var nodes: seq<Node>

    /** Every call from number a up to b succeeded. */
    predicate Smooth(a: nat, b: nat) {
      forall k: nat :: a <= k < b ==> replies(k) == Done
    }

    constructor (cfg: Config, replies: nat -> Reply, nodes: seq<Node>)
      ensures this.cfg == cfg && this.replies == replies && this.nodes == nodes && calls == 0
    {
      this.cfg := cfg;
      this.replies := replies;
      this.nodes := nodes;
      calls := 0;
    }

    method ListNodes() returns (err: bool, items: seq<Item>)
      modifies this`calls
      ensures calls == old(calls) + 1 && (err <==> !Smooth(old(calls), calls))
      ensures !err ==> items == Listed(nodes)
    {
      err := replies(calls) != Done;
      calls := calls + 1;
      items := if err then [] else Listed(nodes);
    }

    /** UpdateNodeRetry with the closure of phase p, as one atomic update. */
    method UpdateNode(p: Phase, i: nat) returns (err: bool, committed: bool)
      requires i < |nodes|
      modifies this
      ensures calls == old(calls) + 1 && (err <==> !Smooth(old(calls), calls))
      ensures committed <==> replies(old(calls)) != Refused
      ensures nodes == if committed then old(nodes)[i := Apply(cfg, p, old(nodes)[i])] else old(nodes)
    {
      var reply := replies(calls);
      calls := calls + 1;
      err, committed := reply != Done, reply != Refused;
      if committed {
        var n := new NodeObject(nodes[i]);
        if p.CleanupState? {
          n.CleanupClosure(cfg);
        } else if p.CheckAfterReboot? {
          n.ReleaseClosure(cfg);
        } else if p.CheckBeforeReboot? {
          n.GrantClosure(cfg);
        } else {
          n.MarkClosure(cfg, p);
        }
        nodes := nodes[i := n.node];
      }
    }

    /** One more update of a phase that began with n0 and has `done` behind it. */
    method UpdateNext(p: Phase, i: nat, ghost n0: seq<Node>, ghost work: seq<nat>, done: nat)
      returns (failed: bool, done': nat)
      requires InRange(work, |n0|) && done < |work| && work[done] == i
      requires nodes == ApplyAll(cfg, p, n0, work[..done])
      modifies this
      ensures calls == old(calls) + 1 && (failed <==> !Smooth(old(calls), calls))
      ensures done' == if replies(old(calls)) == Refused then done else done + 1
      ensures nodes == ApplyAll(cfg, p, n0, work[..done'])
    {
      ApplyNext(cfg, p, n0, work, done);
      var committed;
      failed, committed := UpdateNode(p, i);
      done' := if committed then done + 1 else done;
    }

    /** The loop every phase ends with: update the nodes of `items` that have
        every required annotation, in order, and stop at the first failure. */
    method UpdateEach(p: Phase, items: seq<Item>, required: seq<string>, ghost work: seq<nat>)
      returns (err: bool, done: nat)
      requires work == WorkOf(items, required) && InRange(work, |nodes|)
      modifies this
      ensures calls >= old(calls) && (err <==> !Smooth(old(calls), calls))
      ensures err ==> calls > old(calls) && Smooth(old(calls), calls - 1)
      ensures calls == old(calls) + done + if err && replies(calls - 1) == Refused then 1 else 0
      ensures done <= |work| && (!err ==> done == |work|)
      ensures nodes == ApplyAll(cfg, p, old(nodes), work[..done])
    {
      done := 0;
      for j := 0 to |items|
        invariant calls == old(calls) + done && Smooth(old(calls), calls)
        invariant done <= |work| && work[..done] == WorkOf(items[..j], required)
        invariant nodes == ApplyAll(cfg, p, old(nodes), work[..done])
      {
        WorkNext(items, j, required, done);
        var holds := HasAllAnnotations(items[j].node, required);
        if holds {
          var failed;
          failed, done := UpdateNext(p, items[j].id, old(nodes), work, done);
          if failed {
            return true, done;
          }
        }
      }
      assert items[..|items|] == items;
      err := false;
    }

    method CleanupState() returns (err: bool, done: nat)
      modifies this
      ensures calls > old(calls) && (err <==> !Smooth(old(calls), calls))
      ensures err ==> Smooth(old(calls), calls - 1)
      ensures 1 + done <= calls - old(calls) <= 1 + done + if err then 1 else 0
      ensures Ran(cfg, Phase.CleanupState, false, old(nodes), nodes, err, done)
    {
      SelectExact(cfg, Phase.CleanupState, false, nodes);
      var failed, list := ListNodes();
      if failed {
        return true, 0;
      }
      WorkOfListed(nodes, All(), [], DueIn(cfg, Phase.CleanupState));
      FilterAll(list);
      err, done := UpdateEach(Phase.CleanupState, list, [], Select(cfg, Phase.CleanupState, false, nodes));
    }

    method CheckAfterReboot() returns (err: bool, done: nat)
      modifies this
      ensures calls > old(calls) && (err <==> !Smooth(old(calls), calls))
      ensures err ==> Smooth(old(calls), calls - 1)
      ensures 1 + done <= calls - old(calls) <= 1 + done + if err then 1 else 0
      ensures Ran(cfg, Phase.CheckAfterReboot, false, old(nodes), nodes, err, done)
    {
      SelectExact(cfg, Phase.CheckAfterReboot, false, nodes);
      var failed, list := ListNodes();
      if failed {
        return true, 0;
      }
      var postReboot := FilterNodes(list, After);
      WorkOfListed(nodes, On(After), cfg.after, DueIn(cfg, Phase.CheckAfterReboot));
      err, done := UpdateEach(Phase.CheckAfterReboot, postReboot, cfg.after,
                              Select(cfg, Phase.CheckAfterReboot, false, nodes));
    }

    method MarkAfterReboot() returns (err: bool, done: nat)
      modifies this
      ensures calls > old(calls) && (err <==> !Smooth(old(calls), calls))
      ensures err ==> Smooth(old(calls), calls - 1)
      ensures 1 + done <= calls - old(calls) <= 1 + done + if err then 1 else 0
      ensures Ran(cfg, Phase.MarkAfterReboot, false, old(nodes), nodes, err, done)
    {
      SelectExact(cfg, Phase.MarkAfterReboot, false, nodes);
      var failed, list := ListNodes();
      if failed {
        return true, 0;
      }
      var justRebooted := JustRebootedNodes(cfg, list, nodes);
      err, done := UpdateEach(Phase.MarkAfterReboot, justRebooted, [],
                              Select(cfg, Phase.MarkAfterReboot, false, nodes));
    }

    method CheckBeforeReboot() returns (err: bool, done: nat)
      modifies this
      ensures calls > old(calls) && (err <==> !Smooth(old(calls), calls))
      ensures err ==> Smooth(old(calls), calls - 1)
      ensures 1 + done <= calls - old(calls) <= 1 + done + if err then 1 else 0
      ensures Ran(cfg, Phase.CheckBeforeReboot, false, old(nodes), nodes, err, done)
    {
      SelectExact(cfg, Phase.CheckBeforeReboot, false, nodes);
      var failed, list := ListNodes();
      if failed {
        return true, 0;
      }
      var preReboot := FilterNodes(list, Before);
      WorkOfListed(nodes, On(Before), cfg.before, DueIn(cfg, Phase.CheckBeforeReboot));
      err, done := UpdateEach(Phase.CheckBeforeReboot, preReboot, cfg.before,
                              Select(cfg, Phase.CheckBeforeReboot, false, nodes));
    }

    method MarkBeforeReboot(inWindow: bool) returns (err: bool, done: nat)
      modifies this
      ensures calls > old(calls) && (err <==> !Smooth(old(calls), calls))
      ensures err ==> Smooth(old(calls), calls - 1)
      ensures 1 + done <= calls - old(calls) <= 1 + done + if err then 1 else 0
      ensures Ran(cfg, Phase.MarkBeforeReboot, inWindow, old(nodes), nodes, err, done)
    {
      SelectExact(cfg, Phase.MarkBeforeReboot, inWindow, nodes);
      var failed, list := ListNodes();
      if failed {
        return true, 0;
      }
      var chosen := ChosenNodes(cfg, inWindow, list, nodes);
      err, done := UpdateEach(Phase.MarkBeforeReboot, chosen, [],
                              Select(cfg, Phase.MarkBeforeReboot, inWindow, nodes));
    }

    /** The first two phases of process. */
    method ProcessReleased(ghost inWindow: bool) returns (err: bool, ghost k: nat, done: nat)
      modifies this
      ensures calls > old(calls) && (err <==> !Smooth(old(calls), calls))
      ensures err ==> Smooth(old(calls), calls - 1)
      ensures err ==> Stopped(cfg, inWindow, old(nodes), nodes, err, k, done)
      ensures err ==> CallsMade(cfg, inWindow, old(nodes), k, calls - old(calls), err, done)
      ensures !err ==> k <= |ORDER| && calls - old(calls) == CallsBefore(cfg, inWindow, old(nodes), k)
      ensures !err ==> k + 3 == |ORDER| && nodes == RunPhases(cfg, inWindow, old(nodes), k)
    {
      ghost var n0 := nodes;
      ghost var b := nodes;
      k := 0;
      err, done := CleanupState();
      PhaseEnds(cfg, inWindow, k, n0, b, nodes, err, done);
      if err { return; }
      b, k := nodes, k + 1;
      err, done := CheckAfterReboot();
      PhaseEnds(cfg, inWindow, k, n0, b, nodes, err, done);
      if err { return; }
      k := k + 1;
    }

    /** The phases of process that see to rebooted nodes. */
    method ProcessRebooted(ghost inWindow: bool) returns (err: bool, ghost k: nat, done: nat)
      modifies this
      ensures calls > old(calls) && (err <==> !Smooth(old(calls), calls))
      ensures err ==> Smooth(old(calls), calls - 1)
      ensures err ==> Stopped(cfg, inWindow, old(nodes), nodes, err, k, done)
      ensures err ==> CallsMade(cfg, inWindow, old(nodes), k, calls - old(calls), err, done)
      ensures !err ==> k <= |ORDER| && calls - old(calls) == CallsBefore(cfg, inWindow, old(nodes), k)
      ensures !err ==> k + 2 == |ORDER| && nodes == RunPhases(cfg, inWindow, old(nodes), k)
    {
      ghost var n0 := nodes;
      err, k, done := ProcessReleased(inWindow);
      if err { return; }
      ghost var b := nodes;
      err, done := MarkAfterReboot();
      PhaseEnds(cfg, inWindow, k, n0, b, nodes, err, done);
      if err { return; }
      k := k + 1;
    }

    /** process: one reconcile pass, which ends early on the first failure. */
    method Process(inWindow: bool) returns (err: bool, ghost k: nat, done: nat)
      modifies this
      ensures calls > old(calls) && (err <==> !Smooth(old(calls), calls))
      ensures err ==> Smooth(old(calls), calls - 1)
      ensures Stopped(cfg, inWindow, old(nodes), nodes, err, k, done)
      ensures CallsMade(cfg, inWindow, old(nodes), k, calls - old(calls), err, done)
    {
      ghost var n0 := nodes;
      err, k, done := ProcessRebooted(inWindow);
      if err { return; }
      ghost var b := nodes;
      err, done := CheckBeforeReboot();
      PhaseEnds(cfg, inWindow, k, n0, b, nodes, err, done);
      if err { return; }
      k := k + 1;
      err, done := MarkBeforeReboot(inWindow);
    }
  }
}
