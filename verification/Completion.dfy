/** With everybody doing their part between passes, all nodes that want a reboot
    get exactly one, max of them every three passes. */
module Completion {
  import opened Lists
  import opened Nodes
  import opened Passes
  import opened Protocol
  import opened Refinement
  import opened Reboots

  /** Between passes agents and checks get on with it: no agent dies, and there
      are no new reboot signals and no pauses. */
  predicate Quiet(s: State, l: Label) {
    l.At? && !l.e.Crash? && !l.e.Pause? && !(l.e.Signal? && l.e.status.operation == NEED_REBOOT)
  }

  /** Checks are done and permitted agents are back. */
  predicate Settled(cfg: Config, n: Node) {
    (Before(n) ==> HasAll(n, cfg.before)) && (After(n) ==> HasAll(n, cfg.after)) && !StillRebooting(n)
  }

  predicate Wanting(n: Node) { StageOf(n) == Resting && Wants(n) }
  predicate IsQueued(n: Node) { StageOf(n) == Queued }
  predicate IsBack(n: Node) { StageOf(n) == Back }
  predicate IsChecking(n: Node) { StageOf(n) == Checking }

  /** A node and its agent between rounds. */
  predicate Rested(cfg: Config, n: Node, pc: Pc) {
    && Tidy(n) && Settled(cfg, n) && !Danger(pc)
    && (Wants(n) || IsQueued(n) ==> Wants(n) && pc.WaitOk?)
    && (Ok(n) ==> pc.WaitNotOk?)
  }

  predicate AtRest(cfg: Config, s: State) {
    && |s.agents| == |s.nodes| && s.op == IDLE
    && (forall i :: 0 <= i < |s.nodes| ==> Rested(cfg, s.nodes[i], s.agents[i]))
    && Count(s.nodes, InFlight) <= cfg.max
  }

  /** A node and its agent on the way from a pass, by the stage the pass left
      the node in; r counts its reboots since. */
  predicate Fits(g: Stage, wanting: bool, n: Node, pc: Pc, r: nat) {
    && Tidy(n)
    && match g
       case Resting =>
         StageOf(n) == Resting && Wants(n) == wanting && !Danger(pc) && (wanting ==> pc.WaitOk?) && r == 0
       case Queued => StageOf(n) == Queued && Wants(n) && pc.WaitOk? && r == 0
       case Going =>
         && Ok(n) && !After(n)
         && if Needed(n)
            then if r == 0 then pc.WaitOk? || Danger(pc) else r == 1 && (pc.Boot? || pc.Reset?)
            else IsReset(n) && pc.WaitNotOk? && r == 1
       case Checking => StageOf(n) == Checking && pc.WaitNotOk? && r == 0
       case Back => false
  }

  lemma FitsLocal(g: Stage, wanting: bool, n: Node, pc: Pc, r: nat, e: Event)
    requires Fits(g, wanting, n, pc, r)
    requires !e.Crash? && !e.Pause? && !(e.Signal? && e.status.operation == NEED_REBOOT)
    ensures var (m, pc') := Local(n, pc, e);
      Fits(g, wanting, m, pc', r + if e.Agent? && pc.Rebooting? then 1 else 0)
  {
  }

  lemma {:induction false} FitsRun(cfg: Config, s: State, ls: seq<Label>, g: Stage, wanting: bool, i: nat)
    requires |s.agents| == |s.nodes| && i < |s.nodes| && Fits(g, wanting, s.nodes[i], s.agents[i], 0)
    requires Always(cfg, s, ls, Quiet)
    ensures var t := Exec(cfg, s, ls);
      && |t.agents| == |t.nodes| == |s.nodes| && t.op == s.op
      && Fits(g, wanting, t.nodes[i], t.agents[i], RebootCount(cfg, s, ls, i))
  {
    if ls != [] {
      var k := |ls| - 1;
      var t := Exec(cfg, s, ls[..k]);
      FitsRun(cfg, s, ls[..k], g, wanting, i);
      if ls[k].i == i {
        FitsLocal(g, wanting, t.nodes[i], t.agents[i], RebootCount(cfg, s, ls[..k], i), ls[k].e);
      }
    }
  }

  /** What a pass does to a rested node. */
  lemma TurnRested(cfg: Config, n: Node, pc: Pc)
    requires Rested(cfg, n, pc)
    ensures var m := Turn(cfg, n);
      && Fits(StageOf(m), Wants(m), m, pc, 0)
      && StageOf(m) == (match StageOf(n) case Resting => Resting case Queued => Going case Back => Checking case _ => Resting)
      && (Wanting(m) <==> Wanting(n)) && (Rebootable(m) <==> Wanting(m))
      && (Wanting(m) ==> Fits(Queued, false, MarkBefore(cfg, m), pc, 0))
  {
  }

  /** One round: an error-free pass inside the window, then a quiet time. */
  function Round(cfg: Config, s: State, quiet: seq<Label>): State {
    Exec(cfg, s.(nodes := Pass(cfg, true, s.nodes)), quiet)
  }

  ghost predicate GoodRound(cfg: Config, s: State, quiet: seq<Label>) {
    && Always(cfg, s.(nodes := Pass(cfg, true, s.nodes)), quiet, Quiet)
    && forall i :: 0 <= i < |Round(cfg, s, quiet).nodes| ==> Settled(cfg, Round(cfg, s, quiet).nodes[i])
  }

  function RoundReboots(cfg: Config, s: State, quiet: seq<Label>, i: nat): nat {
    RebootCount(cfg, s.(nodes := Pass(cfg, true, s.nodes)), quiet, i)
  }

  /** Still to be rebooted. */
  predicate Owed(n: Node) {
    Wanting(n) || IsQueued(n)
  }

  /** What a round does to one node. */
  lemma RoundAt(cfg: Config, s: State, quiet: seq<Label>, i: nat)
    requires AtRest(cfg, s) && GoodRound(cfg, s, quiet) && i < |s.nodes|
    ensures var t := Round(cfg, s, quiet);
      && |t.agents| == |t.nodes| == |s.nodes| && t.op == IDLE
      && Rested(cfg, t.nodes[i], t.agents[i])
      && (Wanting(s.nodes[i]) <==> Owed(t.nodes[i]))
      && (IsQueued(s.nodes[i]) <==> IsBack(t.nodes[i]))
      && (IsBack(s.nodes[i]) <==> IsChecking(t.nodes[i]))
      && RoundReboots(cfg, s, quiet, i) == (if IsQueued(s.nodes[i]) then 1 else 0)
      && (InFlight(t.nodes[i]) ==> InFlight(Pass(cfg, true, s.nodes)[i]))
      && (Wanting(t.nodes[i]) ==> Rebootable(Pass(cfg, true, s.nodes)[i]))
      && (InFlight(Pass(cfg, true, s.nodes)[i]) ==> InFlight(t.nodes[i]))
  {
    var p := s.(nodes := Pass(cfg, true, s.nodes));
    var n := p.nodes[i];
    PassAt(cfg, true, s.nodes, i);
    ChosenIsRebootable(cfg, true, Turned(cfg, s.nodes));
    TurnRested(cfg, s.nodes[i], s.agents[i]);
    FitsRun(cfg, p, quiet, StageOf(n), Wants(n), i);
  }

  // ---------------------------------------------------------------------
  // The measure

  /** The number of passes still to come, when w nodes want a reboot, q are
      queued, b are back and c are running their last checks. The nodes that
      want one are taken up max at a time every three passes: of each max, the
      first go into room there is now, the next take over from nodes that are
      back, and the others from nodes that are queued. */
  function PassesLeft(max: nat, w: nat, q: nat, b: nat, c: nat): nat
    requires max > 0
  {
    if w > max then 3 + PassesLeft(max, w - max, q, b, c)
    else if w > 0 then
      if w + q + b <= max then 4 else if w + q <= max then 5 else 6
    else if q > 0 then 3
    else if b > 0 then 2
    else if c > 0 then 1
    else 0
  }

  function Left(cfg: Config, nodes: seq<Node>): nat
    requires cfg.max > 0
  {
    PassesLeft(cfg.max, Count(nodes, Wanting), Count(nodes, IsQueued), Count(nodes, IsBack), Count(nodes, IsChecking))
  }

  /** Taking up as many as there is room for leaves one pass less. */
  lemma {:induction false} OnePassLess(max: nat, w: nat, q: nat, b: nat, c: nat, taken: nat)
    requires max > 0 && q + b <= max && taken == if w + q + b <= max then w else max - q - b
    ensures var before := PassesLeft(max, w, q, b, c);
      PassesLeft(max, w - taken, taken, q, b) == if before > 0 then before - 1 else 0
  {
    if w > max + taken {
      OnePassLess(max, w - max, q, b, c, taken);
    }
  }

  predicate Never(n: Node) { false }

  lemma InFlightStages(cfg: Config, s: State)
    requires AtRest(cfg, s)
    ensures Count(s.nodes, InFlight) == Count(s.nodes, IsQueued) + Count(s.nodes, IsBack) + Count(s.nodes, IsChecking)
    ensures Count(s.nodes, Owed) == Count(s.nodes, Wanting) + Count(s.nodes, IsQueued)
  {
    forall i | 0 <= i < |s.nodes|
      ensures InFlight(s.nodes[i]) <==> IsQueued(s.nodes[i]) || IsBack(s.nodes[i]) || IsChecking(s.nodes[i])
    {
      assert Rested(cfg, s.nodes[i], s.agents[i]);
    }
    CountCover(s.nodes, InFlight, IsQueued, IsBack, IsChecking);
    CountCover(s.nodes, Owed, Wanting, IsQueued, Never);
    CountNone(s.nodes, Never);
  }

  lemma CountEq(xs: seq<Node>, p: Node -> bool, ys: seq<Node>, q: Node -> bool)
    requires |xs| == |ys| && forall i :: 0 <= i < |xs| ==> (p(xs[i]) <==> q(ys[i]))
    ensures Count(xs, p) == Count(ys, q)
  {
    CountLe(xs, p, ys, q);
    CountLe(ys, q, xs, p);
  }

  lemma RoundCounts(cfg: Config, s: State, quiet: seq<Label>)
    requires AtRest(cfg, s) && GoodRound(cfg, s, quiet) && cfg.max > 0
    ensures var t := Round(cfg, s, quiet);
      && AtRest(cfg, t) && |t.nodes| == |s.nodes|
      && Count(t.nodes, Owed) == Count(s.nodes, Wanting)
      && Count(t.nodes, IsBack) == Count(s.nodes, IsQueued)
      && Count(t.nodes, IsChecking) == Count(s.nodes, IsBack)
      && (Count(t.nodes, InFlight) < cfg.max ==> Count(t.nodes, Wanting) == 0)
  {
    var t := Round(cfg, s, quiet);
    var r := Pass(cfg, true, s.nodes);
    if s.nodes == [] {
      FitsNone(cfg, s, quiet);
    }
    forall i: nat | i < |s.nodes|
      ensures |t.agents| == |t.nodes| == |s.nodes| && t.op == IDLE
      ensures Rested(cfg, t.nodes[i], t.agents[i]) && (Wanting(s.nodes[i]) <==> Owed(t.nodes[i]))
      ensures IsQueued(s.nodes[i]) <==> IsBack(t.nodes[i])
      ensures IsBack(s.nodes[i]) <==> IsChecking(t.nodes[i])
      ensures InFlight(t.nodes[i]) <==> InFlight(r[i])
      ensures Wanting(t.nodes[i]) ==> Rebootable(r[i])
    {
      RoundAt(cfg, s, quiet, i);
    }
    CountEq(t.nodes, Owed, s.nodes, Wanting);
    CountEq(t.nodes, IsBack, s.nodes, IsQueued);
    CountEq(t.nodes, IsChecking, s.nodes, IsBack);
    CountEq(t.nodes, InFlight, r, InFlight);
    forall i | 0 <= i < |s.nodes| ensures Tidy(s.nodes[i]) {
      assert Rested(cfg, s.nodes[i], s.agents[i]);
    }
    WorkConserved(cfg, true, s.nodes);
    if Count(t.nodes, InFlight) < cfg.max {
      CountNone(t.nodes, Wanting);
    }
  }

  lemma {:induction false} FitsNone(cfg: Config, s: State, quiet: seq<Label>)
    requires s.nodes == [] && s.agents == []
    requires Always(cfg, s.(nodes := Pass(cfg, true, s.nodes)), quiet, Quiet)
    ensures var t := Round(cfg, s, quiet); t.nodes == [] && t.agents == [] && t.op == s.op
  {
    if quiet != [] {
      FitsNone(cfg, s, quiet[..|quiet| - 1]);
    }
  }

  /** Every round takes exactly one off what is left. */
  lemma RoundProgress(cfg: Config, s: State, quiet: seq<Label>)
    requires AtRest(cfg, s) && GoodRound(cfg, s, quiet) && cfg.max > 0
    ensures var t := Round(cfg, s, quiet);
      AtRest(cfg, t) && |t.nodes| == |s.nodes| && Left(cfg, t.nodes) == if Left(cfg, s.nodes) > 0 then Left(cfg, s.nodes) - 1 else 0
  {
    var t := Round(cfg, s, quiet);
    RoundCounts(cfg, s, quiet);
    InFlightStages(cfg, s);
    InFlightStages(cfg, t);
    OnePassLess(cfg.max, Count(s.nodes, Wanting), Count(s.nodes, IsQueued), Count(s.nodes, IsBack),
                Count(s.nodes, IsChecking), Count(t.nodes, IsQueued));
  }

  // ---------------------------------------------------------------------
  // Whole runs

  function Rounds(cfg: Config, s: State, quiets: seq<seq<Label>>): State {
    if quiets == [] then s
    else Round(cfg, Rounds(cfg, s, quiets[..|quiets| - 1]), quiets[|quiets| - 1])
  }

  ghost predicate GoodRounds(cfg: Config, s: State, quiets: seq<seq<Label>>) {
    quiets == [] ||
    (var k := |quiets| - 1;
     GoodRounds(cfg, s, quiets[..k]) && GoodRound(cfg, Rounds(cfg, s, quiets[..k]), quiets[k]))
  }

  function TotalReboots(cfg: Config, s: State, quiets: seq<seq<Label>>, i: nat): nat {
    if quiets == [] then 0
    else
      var k := |quiets| - 1;
      TotalReboots(cfg, s, quiets[..k], i) + RoundReboots(cfg, Rounds(cfg, s, quiets[..k]), quiets[k], i)
  }

  lemma {:induction false} RoundsProgress(cfg: Config, s: State, quiets: seq<seq<Label>>)
    requires AtRest(cfg, s) && GoodRounds(cfg, s, quiets) && cfg.max > 0
    ensures var t := Rounds(cfg, s, quiets);
      && AtRest(cfg, t) && |t.nodes| == |s.nodes|
      && Left(cfg, t.nodes) == (if |quiets| < Left(cfg, s.nodes) then Left(cfg, s.nodes) - |quiets| else 0)
  {
    if quiets != [] {
      var k := |quiets| - 1;
      RoundsProgress(cfg, s, quiets[..k]);
      RoundProgress(cfg, Rounds(cfg, s, quiets[..k]), quiets[k]);
    }
  }

  lemma {:induction false} RebootsOwed(cfg: Config, s: State, quiets: seq<seq<Label>>, i: nat)
    requires AtRest(cfg, s) && GoodRounds(cfg, s, quiets) && cfg.max > 0 && i < |s.nodes|
    ensures |Rounds(cfg, s, quiets).nodes| == |s.nodes|
    ensures TotalReboots(cfg, s, quiets, i) + (if Owed(Rounds(cfg, s, quiets).nodes[i]) then 1 else 0)
            == if Owed(s.nodes[i]) then 1 else 0
  {
    if quiets != [] {
      var k := |quiets| - 1;
      RebootsOwed(cfg, s, quiets[..k], i);
      RoundsProgress(cfg, s, quiets[..k]);
      RoundAt(cfg, Rounds(cfg, s, quiets[..k]), quiets[k], i);
    }
  }

  lemma NoneLeft(nodes: seq<Node>, p: Node -> bool, i: nat)
    requires Count(nodes, p) == 0 && i < |nodes|
    ensures !p(nodes[i])
  {
    IdsExact(nodes, p);
    assert i !in Ids(nodes, p);
  }

  /** How often max nodes have to be taken up for k nodes. */
  function Batches(k: nat, max: nat): nat
    requires max > 0
  {
    if k == 0 then 0 else if k <= max then 1 else 1 + Batches(k - max, max)
  }

  /** It is k / max, rounded up. */
  lemma {:induction false} BatchesRoundUp(k: nat, max: nat)
    requires max > 0
    ensures k <= Batches(k, max) * max < k + max
  {
    if k > max {
      BatchesRoundUp(k - max, max);
    }
  }

  lemma {:induction false} LeftFromRest(max: nat, k: nat)
    requires max > 0
    ensures PassesLeft(max, k, 0, 0, 0) == if k > 0 then 3 * Batches(k, max) + 1 else 0
  {
    if k > max {
      LeftFromRest(max, k - max);
    }
  }

  /** From k nodes that want a reboot and nothing in flight, after 3 * ceil(k /
      max) + 1 rounds each of the k nodes has rebooted exactly once and no other node has, no
      node wants a reboot, and nothing is in flight. */
  lemma AllRebootOnce(cfg: Config, s: State, quiets: seq<seq<Label>>, i: nat)
    requires AtRest(cfg, s) && GoodRounds(cfg, s, quiets) && cfg.max > 0 && i < |s.nodes|
    requires Count(s.nodes, InFlight) == 0
    ensures |Rounds(cfg, s, quiets).nodes| == |s.nodes|
    ensures var k := Count(s.nodes, Wanting); k <= Batches(k, cfg.max) * cfg.max < k + cfg.max
    ensures |quiets| >= 3 * Batches(Count(s.nodes, Wanting), cfg.max) + 1 ==>
      var t := Rounds(cfg, s, quiets);
      && TotalReboots(cfg, s, quiets, i) == (if Wants(s.nodes[i]) then 1 else 0)
      && !Wants(t.nodes[i]) && !InFlight(t.nodes[i])
  {
    RoundsProgress(cfg, s, quiets);
    BatchesRoundUp(Count(s.nodes, Wanting), cfg.max);
    if |quiets| >= 3 * Batches(Count(s.nodes, Wanting), cfg.max) + 1 {
      AllDone(cfg, s, quiets, i);
    }
  }

  lemma AllDone(cfg: Config, s: State, quiets: seq<seq<Label>>, i: nat)
    requires AtRest(cfg, s) && GoodRounds(cfg, s, quiets) && cfg.max > 0 && i < |s.nodes|
    requires Count(s.nodes, InFlight) == 0 && |quiets| >= 3 * Batches(Count(s.nodes, Wanting), cfg.max) + 1
    ensures var t := Rounds(cfg, s, quiets);
      && |t.nodes| == |s.nodes|
      && TotalReboots(cfg, s, quiets, i) == (if Wants(s.nodes[i]) then 1 else 0)
      && !Wants(t.nodes[i]) && !InFlight(t.nodes[i])
  {
    var t := Rounds(cfg, s, quiets);
    InFlightStages(cfg, s);
    LeftFromRest(cfg.max, Count(s.nodes, Wanting));
    RoundsProgress(cfg, s, quiets);
    assert Left(cfg, t.nodes) == 0;
    InFlightStages(cfg, t);
    RebootsOwed(cfg, s, quiets, i);
    NoneLeft(t.nodes, Wanting, i);
    NoneLeft(t.nodes, IsQueued, i);
    NoneLeft(t.nodes, InFlight, i);
    NoneLeft(s.nodes, InFlight, i);
    assert Rested(cfg, s.nodes[i], s.agents[i]) && Rested(cfg, t.nodes[i], t.agents[i]);
  }

  /** And not before: the work is done exactly when that many rounds are. */
  lemma DoneExactlyThen(cfg: Config, s: State, quiets: seq<seq<Label>>)
    requires AtRest(cfg, s) && GoodRounds(cfg, s, quiets) && cfg.max > 0
    requires Count(s.nodes, InFlight) == 0 && Count(s.nodes, Wanting) > 0
    ensures var t := Rounds(cfg, s, quiets);
      (Count(t.nodes, Wanting) == 0 && Count(t.nodes, InFlight) == 0) <==> |quiets| >= 3 * Batches(Count(s.nodes, Wanting), cfg.max) + 1
  {
    InFlightStages(cfg, s);
    LeftFromRest(cfg.max, Count(s.nodes, Wanting));
    RoundsProgress(cfg, s, quiets);
    InFlightStages(cfg, Rounds(cfg, s, quiets));
  }

  // ---------------------------------------------------------------------
  // Such rounds exist

  function LocalRun(n: Node, pc: Pc, es: seq<Event>): (Node, Pc) {
    if es == [] then (n, pc)
    else
      var (m, next) := LocalRun(n, pc, es[..|es| - 1]);
      Local(m, next, es[|es| - 1])
  }

  predicate QuietEvent(e: Event) {
    e.Agent? || e.WriteCheck?
  }

  function AllAt(i: nat, es: seq<Event>): seq<Label> {
    seq(|es|, j requires 0 <= j < |es| => At(i, es[j]))
  }

  /** Events at one node touch that node only. */
  lemma {:induction false} LocalRunExec(cfg: Config, s: State, i: nat, es: seq<Event>)
    requires |s.agents| == |s.nodes| && i < |s.nodes|
    requires forall j :: 0 <= j < |es| ==> QuietEvent(es[j])
    ensures var (m, pc) := LocalRun(s.nodes[i], s.agents[i], es);
      Exec(cfg, s, AllAt(i, es)) == s.(nodes := s.nodes[i := m], agents := s.agents[i := pc])
    ensures Always(cfg, s, AllAt(i, es), Quiet)
  {
    if es != [] {
      var k := |es| - 1;
      LocalRunExec(cfg, s, i, es[..k]);
      assert AllAt(i, es)[..k] == AllAt(i, es[..k]);
    }
  }

  function Writes(names: seq<string>): seq<Event> {
    seq(|names|, j requires 0 <= j < |names| => WriteCheck(names[j], True))
  }

  lemma {:induction false} WritesDo(n: Node, pc: Pc, names: seq<string>)
    ensures var (m, next) := LocalRun(n, pc, Writes(names));
      && next == pc && m == n.(checks := m.checks)
      && HasAll(m, names)
  {
    if names != [] {
      var k := |names| - 1;
      assert Writes(names)[..k] == Writes(names[..k]);
      WritesDo(n, pc, names[..k]);
      assert names == names[..k] + [names[k]];
    }
  }

  function Calls(k: nat): seq<Event> {
    seq(k, _ => Agent)
  }

  /** Calls from seeing permission until the next reset is done. */
  function Ahead(pc: Pc): nat {
    match pc
    case WaitOk => 8
    case Permitted => 7
    case Marking(_) => 6
    case Cordon => 5
    case Drain => 4
    case Rebooting => 3
    case Boot => 2
    case Reset(_) => 1
    case _ => 0
  }

  /** A permitted agent comes back from its reboot within eight calls; no call
      touches the checks. */
  lemma {:induction false} CallsReturn(n: Node, pc: Pc, k: nat)
    ensures var (m, next) := LocalRun(n, pc, Calls(k));
      && m.checks == n.checks
      && (StillRebooting(n) && pc.WaitOk? ==>
           if Needed(m) then Ok(m) && 0 < Ahead(next) <= 8 - k else next.WaitNotOk? && Ok(m))
  {
    if k > 0 {
      CallsReturn(n, pc, k - 1);
      assert Calls(k)[..k - 1] == Calls(k - 1);
    }
  }

  lemma {:induction false} LocalRunAppend(n: Node, pc: Pc, a: seq<Event>, b: seq<Event>)
    ensures var (m, next) := LocalRun(n, pc, a); LocalRun(n, pc, a + b) == LocalRun(m, next, b)
  {
    if b == [] {
      assert a + b == a;
    } else {
      assert (a + b)[..|a + b| - 1] == a + b[..|b| - 1];
      LocalRunAppend(n, pc, a, b[..|b| - 1]);
    }
  }

  /** Write every check, and let the agent make its calls. */
  function Chores(cfg: Config): seq<Event> {
    Writes(cfg.before + cfg.after) + Calls(8)
  }

  lemma ChoresSettle(cfg: Config, s: State, i: nat)
    requires |s.agents| == |s.nodes| && i < |s.nodes|
    requires Fits(StageOf(s.nodes[i]), Wants(s.nodes[i]), s.nodes[i], s.agents[i], 0)
    requires StageOf(s.nodes[i]) == Going ==> s.agents[i].WaitOk?
    ensures Always(cfg, s, AllAt(i, Chores(cfg)), Quiet)
    ensures var (m, pc) := LocalRun(s.nodes[i], s.agents[i], Chores(cfg));
      && Exec(cfg, s, AllAt(i, Chores(cfg))) == s.(nodes := s.nodes[i := m], agents := s.agents[i := pc])
      && Settled(cfg, m)
  {
    var n, pc := s.nodes[i], s.agents[i];
    var names := cfg.before + cfg.after;
    LocalRunExec(cfg, s, i, Chores(cfg));
    LocalRunAppend(n, pc, Writes(names), Calls(8));
    WritesDo(n, pc, names);
    var w := LocalRun(n, pc, Writes(names)).0;
    CallsReturn(w, pc, 8);
    FitsRun(cfg, s, AllAt(i, Chores(cfg)), StageOf(n), Wants(n), i);
    assert forall k :: k in cfg.before || k in cfg.after ==> k in names;
  }

  /** The nodes before i have settled and the others are as they were. */
  lemma {:induction false} SettleFirst(cfg: Config, s: State, i: nat) returns (quiet: seq<Label>)
    requires |s.agents| == |s.nodes| && i <= |s.nodes|
    requires forall j :: 0 <= j < |s.nodes| ==>
      && Fits(StageOf(s.nodes[j]), Wants(s.nodes[j]), s.nodes[j], s.agents[j], 0)
      && (StageOf(s.nodes[j]) == Going ==> s.agents[j].WaitOk?)
    ensures Always(cfg, s, quiet, Quiet)
    ensures var t := Exec(cfg, s, quiet);
      && |t.agents| == |t.nodes| == |s.nodes|
      && (forall j :: 0 <= j < i ==> Settled(cfg, t.nodes[j]))
      && (forall j :: i <= j < |s.nodes| ==> t.nodes[j] == s.nodes[j] && t.agents[j] == s.agents[j])
  {
    if i == 0 {
      quiet := [];
    } else {
      var front := SettleFirst(cfg, s, i - 1);
      var t := Exec(cfg, s, front);
      ChoresSettle(cfg, t, i - 1);
      quiet := front + AllAt(i - 1, Chores(cfg));
      ExecAppend(cfg, s, front, AllAt(i - 1, Chores(cfg)));
      AlwaysAppend(cfg, s, front, AllAt(i - 1, Chores(cfg)), Quiet);
    }
  }

  /** From any state at rest a good round can follow. */
  lemma GoodRoundExists(cfg: Config, s: State) returns (quiet: seq<Label>)
    requires AtRest(cfg, s)
    ensures GoodRound(cfg, s, quiet)
  {
    var p := s.(nodes := Pass(cfg, true, s.nodes));
    ChosenIsRebootable(cfg, true, Turned(cfg, s.nodes));
    forall j: nat | j < |s.nodes|
      ensures Fits(StageOf(p.nodes[j]), Wants(p.nodes[j]), p.nodes[j], p.agents[j], 0)
      ensures StageOf(p.nodes[j]) == Going ==> p.agents[j].WaitOk?
    {
      PassAt(cfg, true, s.nodes, j);
      TurnRested(cfg, s.nodes[j], s.agents[j]);
    }
    quiet := SettleFirst(cfg, p, |s.nodes|);
  }

  /** So the reboots of AllRebootOnce can happen, from every such start. */
  lemma {:induction false} GoodRoundsExist(cfg: Config, s: State, k: nat) returns (quiets: seq<seq<Label>>)
    requires AtRest(cfg, s) && cfg.max > 0
    ensures |quiets| == k && GoodRounds(cfg, s, quiets)
  {
    if k == 0 {
      quiets := [];
    } else {
      var front := GoodRoundsExist(cfg, s, k - 1);
      RoundsProgress(cfg, s, front);
      var last := GoodRoundExists(cfg, Rounds(cfg, s, front));
      quiets := front + [last];
      assert quiets[..k - 1] == front;
    }
  }
}
