/** What every run of the protocol keeps, and the limit on rebooting nodes. */
module Safety {
  import opened Lists
  import opened Nodes
  import opened Passes
  import opened Protocol

  // ---------------------------------------------------------------------
  // Facts that hold in every run, however the calls interleave

  predicate Labelled(n: Node) {
    && (After(n) ==> Ok(n))
    && (Before(n) ==> !Ok(n))
    && (n.beforeReboot != Absent ==> Before(n))
  }

  /** Why a node still awaits the update of a phase. */
  predicate Awaits(p: Phase, n: Node) {
    match p
    case CleanupState => true
    case CheckAfterReboot => After(n)
    case MarkAfterReboot => Ok(n)
    case CheckBeforeReboot => Before(n)
    case MarkBeforeReboot => !Ok(n) && !Before(n)
  }

  predicate InWork(op: Op, p: Phase, i: nat) {
    op.Updating? && op.phase == p && i in op.work
  }

  predicate Base(s: State) {
    && |s.agents| == |s.nodes|
    && (forall i :: 0 <= i < |s.nodes| ==> Labelled(s.nodes[i]))
    && (s.op.Updating? ==>
         && Ascending(s.op.work) && InRange(s.op.work, |s.nodes|)
         && forall j :: 0 <= j < |s.op.work| ==> Awaits(s.op.phase, s.nodes[s.op.work[j]]))
  }

  lemma LocalFrame(n: Node, pc: Pc, e: Event)
    ensures Ok(Local(n, pc, e).0) == Ok(n)
    ensures Before(Local(n, pc, e).0) == Before(n)
    ensures After(Local(n, pc, e).0) == After(n)
    ensures Local(n, pc, e).0.beforeReboot == n.beforeReboot
  {
  }

  lemma ApplyLabelled(cfg: Config, p: Phase, n: Node)
    requires Labelled(n) && Awaits(p, n)
    ensures Labelled(Apply(cfg, p, n))
  {
  }

  lemma BaseStep(cfg: Config, s: State, l: Label)
    requires Base(s)
    ensures Base(Step(cfg, s, l))
  {
    match l
    case List(w) =>
      if s.op.ToList? {
        SelectExact(cfg, s.op.phase, w, s.nodes);
        var ids := Select(cfg, s.op.phase, w, s.nodes);
        assert forall j :: 0 <= j < |ids| ==> ids[j] in ids;
      }
    case Update =>
      if s.op.Updating? && s.op.work != [] {
        ApplyLabelled(cfg, s.op.phase, s.nodes[s.op.work[0]]);
      }
    case At(i, e) =>
      if i < |s.nodes| {
        LocalFrame(s.nodes[i], s.agents[i], e);
      }
    case _ =>
  }

  // ---------------------------------------------------------------------
  // The side conditions

  /** Cleanup is done with node i, and checkBeforeReboot may still grant it in
      this pass. */
  predicate Grantable(op: Op, i: nat) {
    match op.phase
    case CleanupState => op.Updating? && i !in op.work
    case CheckAfterReboot => true
    case MarkAfterReboot => true
    case CheckBeforeReboot => op.Updating? ==> i in op.work
    case MarkBeforeReboot => false
  }

  /** The operator may grant node i without looking at its wish again. */
  predicate Committed(s: State, i: nat) {
    i < |s.nodes| && Before(s.nodes[i]) && Grantable(s.op, i)
  }

  /** No agent re-runs its startup reset on a node the operator is committed to. */
  ghost predicate CalmReset(s: State, l: Label) {
    forall i: nat :: Resets(s, l, i) ==> !Committed(s, i)
  }

  /** The same for the agent of node i alone. */
  function CalmResetOf(i: nat): (State, Label) -> bool {
    (s, l) => Resets(s, l, i) ==> !Committed(s, i)
  }

  /** The operator has listed the rebooted nodes and not yet counted. */
  predicate Counting(op: Op) {
    || (op.Updating? && (op.phase == MarkAfterReboot || op.phase == CheckBeforeReboot))
    || op == ToList(CheckBeforeReboot)
    || op == ToList(MarkBeforeReboot)
  }

  /** No permitted node comes back up between the two lists. */
  ghost predicate CalmCount(s: State, l: Label) {
    forall i: nat :: Resets(s, l, i) && StillRebooting(s.nodes[i]) ==> !Counting(s.op)
  }

  /** The administrator pauses no node the operator is committed to. */
  predicate CalmPause(s: State, l: Label) {
    l.At? && l.e == Pause(True) ==> !Committed(s, l.i)
  }

  /** A pass runs without anything happening beside it; it may stop anywhere. */
  predicate PassAtomic(s: State, l: Label) {
    l.At? ==> s.op == IDLE
  }

  lemma PassAtomicIsCalm(s: State, l: Label)
    requires PassAtomic(s, l)
    ensures CalmReset(s, l) && CalmCount(s, l) && CalmPause(s, l)
  {
  }

  // ---------------------------------------------------------------------
  // Drain exclusion

  predicate NodeSafe(n: Node, pc: Pc) {
    && (Ok(n) ==> Needed(n) || (IsReset(n) && Early(pc)))
    && (pc.WaitNotOk? || pc.Uncordon? || pc.ClearMade? ==> n.rebootNeeded == False)
    && (After(n) ==> IsReset(n))
    && (Danger(pc) ==> StillRebooting(n))
  }

  /** Nodes chosen and not yet labelled. */
  function Pending(op: Op): nat {
    if op.Updating? && op.phase == MarkBeforeReboot then |op.work| else 0
  }

  /** What is kept of node i, whatever happens to the others. */
  predicate Kept(s: State, i: nat) {
    && i < |s.nodes| && i < |s.agents|
    && NodeSafe(s.nodes[i], s.agents[i])
    && (Committed(s, i) ==> Needed(s.nodes[i]))
    && (InWork(s.op, MarkAfterReboot, i) ==> IsReset(s.nodes[i]))
  }

  predicate Safe(cfg: Config, s: State) {
    && Base(s)
    && (forall i: nat :: i < |s.nodes| ==> Kept(s, i))
    && Count(s.nodes, Draining) + Pending(s.op) <= cfg.max
  }

  lemma LocalSafe(n: Node, pc: Pc, e: Event)
    requires Labelled(n) && NodeSafe(n, pc)
    ensures var (m, pc') := Local(n, pc, e); NodeSafe(m, pc') && (Draining(m) ==> Draining(n))
    ensures Needed(n) && !Needed(Local(n, pc, e).0) ==> e.Agent? && pc.Reset?
    ensures Ok(n) && IsReset(n) ==> IsReset(Local(n, pc, e).0)
  {
  }

  lemma ApplySafe(cfg: Config, p: Phase, n: Node, pc: Pc)
    requires Labelled(n) && Awaits(p, n) && NodeSafe(n, pc)
    requires p.CheckBeforeReboot? ==> Needed(n)
    requires p.MarkAfterReboot? ==> IsReset(n)
    ensures NodeSafe(Apply(cfg, p, n), pc)
    ensures Draining(Apply(cfg, p, n)) && !p.MarkBeforeReboot? ==> Draining(n)
    ensures p.MarkBeforeReboot? ==> !Draining(n)
    ensures InFlight(Apply(cfg, p, n)) && !p.MarkBeforeReboot? ==> InFlight(n)
    ensures p.MarkBeforeReboot? ==> !InFlight(n)
    ensures Needed(Apply(cfg, p, n)) == Needed(n) && IsReset(Apply(cfg, p, n)) == IsReset(n)
  {
  }

  /** The update of a phase, on the node whose turn it is. */
  lemma UpdateOne(cfg: Config, s: State)
    requires Base(s) && s.op.Updating? && s.op.work != []
    ensures var i := s.op.work[0];
      && i < |s.nodes| && i in s.op.work && Labelled(s.nodes[i]) && Awaits(s.op.phase, s.nodes[i])
      && s.op.work == [i] + s.op.work[1..] && i !in s.op.work[1..]
      && (Kept(s, i) && s.op.phase.CheckBeforeReboot? ==> Needed(s.nodes[i]))
      && (Kept(s, i) && s.op.phase.MarkAfterReboot? ==> IsReset(s.nodes[i]))
  {
    assert s.op.work[0] in s.op.work;
  }

  lemma KeptUpdate(cfg: Config, s: State, i: nat)
    requires Base(s) && Kept(s, i) && s.op.Updating? && s.op.work != []
    ensures Kept(Step(cfg, s, Update), i)
  {
    UpdateOne(cfg, s);
    if i == s.op.work[0] {
      ApplySafe(cfg, s.op.phase, s.nodes[i], s.agents[i]);
    }
  }

  lemma KeptAt(cfg: Config, s: State, i: nat, e: Event)
    requires Base(s) && Kept(s, i) && !(Resets(s, At(i, e), i) && Committed(s, i))
    ensures Kept(Step(cfg, s, At(i, e)), i)
  {
    LocalFrame(s.nodes[i], s.agents[i], e);
    LocalSafe(s.nodes[i], s.agents[i], e);
    assert InWork(s.op, MarkAfterReboot, i) ==> Ok(s.nodes[i]);
  }

  /** Every single call keeps what is kept of a node, except exactly the startup
      reset of that node while the operator is committed to it. */
  lemma KeptStep(cfg: Config, s: State, l: Label, i: nat)
    requires Base(s) && Kept(s, i)
    ensures Kept(Step(cfg, s, l), i) <==> CalmResetOf(i)(s, l)
  {
    match l
    case List(w) => if s.op.ToList? { SelectExact(cfg, s.op.phase, w, s.nodes); }
    case Update => if s.op.Updating? && s.op.work != [] { KeptUpdate(cfg, s, i); }
    case At(j, e) =>
      if j == i {
        if CalmResetOf(i)(s, l) {
          KeptAt(cfg, s, i, e);
        } else {
          assert Committed(Step(cfg, s, l), i) && !Needed(Step(cfg, s, l).nodes[i]);
        }
      }
    case _ =>
  }

  lemma UpdateCounts(cfg: Config, s: State)
    requires Safe(cfg, s) && s.op.Updating? && s.op.work != []
    ensures var t := Step(cfg, s, Update);
      && Count(t.nodes, Draining) + Pending(t.op) <= Count(s.nodes, Draining) + Pending(s.op)
      && Count(t.nodes, InFlight) + Pending(t.op) <= Count(s.nodes, InFlight) + Pending(s.op)
  {
    var t := Step(cfg, s, Update);
    var i := s.op.work[0];
    UpdateOne(cfg, s);
    assert Kept(s, i);
    ApplySafe(cfg, s.op.phase, s.nodes[i], s.agents[i]);
    CountUpdate(s.nodes, i, t.nodes[i], Draining);
    CountUpdate(s.nodes, i, t.nodes[i], InFlight);
  }

  /** No call takes the nodes chosen, or permitted and wanting, over the limit. */
  lemma DrainingStep(cfg: Config, s: State, l: Label)
    requires Safe(cfg, s)
    ensures Count(Step(cfg, s, l).nodes, Draining) + Pending(Step(cfg, s, l).op) <= cfg.max
  {
    match l
    case List(w) =>
      SelectExact(cfg, s.op.phase, w, s.nodes);
      CountCover(s.nodes, Draining, StillRebooting, Before, After);
    case Update => if s.op.Updating? && s.op.work != [] { UpdateCounts(cfg, s); }
    case At(i, e) =>
      if i < |s.nodes| {
        assert Kept(s, i);
        LocalSafe(s.nodes[i], s.agents[i], e);
        CountLe(Step(cfg, s, l).nodes, Draining, s.nodes, Draining);
      }
    case _ =>
  }

  /** So the whole invariant is lost exactly by a startup reset on a node the
      operator is committed to. */
  lemma SafeStep(cfg: Config, s: State, l: Label)
    requires Safe(cfg, s)
    ensures Safe(cfg, Step(cfg, s, l)) <==> CalmReset(s, l)
  {
    BaseStep(cfg, s, l);
    DrainingStep(cfg, s, l);
    var t := Step(cfg, s, l);
    forall i: nat | i < |s.nodes| ensures Kept(t, i) <==> (Resets(s, l, i) ==> !Committed(s, i)) {
      assert Kept(s, i);
      KeptStep(cfg, s, l, i);
    }
  }

  lemma {:induction false} SafeRun(cfg: Config, s: State, ls: seq<Label>)
    requires Safe(cfg, s) && Always(cfg, s, ls, CalmReset)
    ensures Safe(cfg, Exec(cfg, s, ls))
  {
    if ls != [] {
      var k := |ls| - 1;
      SafeRun(cfg, s, ls[..k]);
      SafeStep(cfg, Exec(cfg, s, ls[..k]), ls[k]);
    }
  }

  lemma FreshIsSafe(cfg: Config, s: State)
    requires Fresh(s)
    ensures Flight(cfg, s) && Eager(s)
  {
    CountNone(s.nodes, Draining);
    CountNone(s.nodes, InFlight);
  }

  lemma DangerIsDraining(cfg: Config, s: State)
    requires Safe(cfg, s)
    ensures Count(s.agents, Danger) <= Count(s.nodes, Draining) <= cfg.max
  {
    forall i: nat | i < |s.agents| && Danger(s.agents[i]) ensures Draining(s.nodes[i]) {
      assert Kept(s, i);
    }
    CountLe(s.agents, Danger, s.nodes, Draining);
  }

  /** However single calls interleave, at most max nodes are chosen or permitted
      and wanting, so at most max agents are between seeing permission and
      rebooting. */
  lemma DrainExclusion(cfg: Config, s: State, ls: seq<Label>)
    requires Fresh(s) && Always(cfg, s, ls, CalmReset)
    ensures Count(Exec(cfg, s, ls).nodes, Draining) <= cfg.max
    ensures Count(Exec(cfg, s, ls).agents, Danger) <= cfg.max
  {
    FreshIsSafe(cfg, s);
    SafeRun(cfg, s, ls);
    DangerIsDraining(cfg, Exec(cfg, s, ls));
  }

  // ---------------------------------------------------------------------
  // The full in-flight bound

  /** Every permitted node is one that markBeforeReboot will count. */
  predicate Covered(s: State) {
    Counting(s.op) ==>
      forall i :: 0 <= i < |s.nodes| && JustRebooted(s.nodes[i]) ==>
        After(s.nodes[i]) || InWork(s.op, MarkAfterReboot, i)
  }

  predicate Flight(cfg: Config, s: State) {
    Safe(cfg, s) && Covered(s) && Count(s.nodes, InFlight) + Pending(s.op) <= cfg.max
  }

  /** When markBeforeReboot lists, its three lists do not overlap and together
      hold exactly the nodes in flight. */
  lemma ExactCount(cfg: Config, s: State)
    requires Flight(cfg, s) && s.op == ToList(MarkBeforeReboot)
    ensures Busy(s.nodes) == Count(s.nodes, InFlight)
    ensures forall i :: 0 <= i < |s.nodes| ==>
      var n := s.nodes[i];
      && (InFlight(n) <==> StillRebooting(n) || Before(n) || After(n))
      && !(StillRebooting(n) && Before(n)) && !(Before(n) && After(n)) && !(StillRebooting(n) && After(n))
  {
    forall i: nat | i < |s.nodes|
      ensures InFlight(s.nodes[i]) <==> StillRebooting(s.nodes[i]) || Before(s.nodes[i]) || After(s.nodes[i])
      ensures After(s.nodes[i]) ==> !Needed(s.nodes[i])
    {
      assert Kept(s, i);
    }
    CountCover(s.nodes, InFlight, StillRebooting, Before, After);
  }

  lemma CoveredAt(cfg: Config, s: State, i: nat, e: Event)
    requires Flight(cfg, s) && i < |s.nodes| && CalmCount(s, At(i, e))
    ensures Covered(Step(cfg, s, At(i, e)))
    ensures Count(Step(cfg, s, At(i, e)).nodes, InFlight) <= Count(s.nodes, InFlight)
  {
    var t := Step(cfg, s, At(i, e));
    assert Kept(s, i);
    LocalFrame(s.nodes[i], s.agents[i], e);
    LocalSafe(s.nodes[i], s.agents[i], e);
    CountLe(t.nodes, InFlight, s.nodes, InFlight);
    if Counting(s.op) {
      assert !(Resets(s, At(i, e), i) && StillRebooting(s.nodes[i]));
    }
  }

  lemma FlightList(cfg: Config, s: State, w: bool)
    requires Flight(cfg, s) && s.op.ToList?
    ensures Flight(cfg, Step(cfg, s, List(w)))
  {
    SafeStep(cfg, s, List(w));
    SelectExact(cfg, s.op.phase, w, s.nodes);
    if s.op.phase == MarkBeforeReboot {
      ExactCount(cfg, s);
    }
  }

  lemma CoveredUpdate(cfg: Config, s: State)
    requires Safe(cfg, s) && Covered(s) && s.op.Updating? && s.op.work != []
    ensures Covered(Step(cfg, s, Update))
  {
    var i := s.op.work[0];
    UpdateOne(cfg, s);
    assert Kept(s, i);
    ApplySafe(cfg, s.op.phase, s.nodes[i], s.agents[i]);
  }

  /** The stronger invariant is lost exactly by such a reset, or by a permitted
      node coming back up between the two lists. */
  lemma FlightStep(cfg: Config, s: State, l: Label)
    requires Flight(cfg, s)
    ensures Flight(cfg, Step(cfg, s, l)) <==> CalmReset(s, l) && CalmCount(s, l)
  {
    SafeStep(cfg, s, l);
    match l
    case List(w) => if s.op.ToList? { FlightList(cfg, s, w); }
    case Update =>
      if s.op.Updating? && s.op.work != [] {
        UpdateCounts(cfg, s);
        CoveredUpdate(cfg, s);
      }
    case At(i, e) =>
      if i < |s.nodes| {
        assert Kept(s, i);
        if CalmCount(s, l) {
          CoveredAt(cfg, s, i, e);
        } else {
          assert JustRebooted(Step(cfg, s, l).nodes[i]);
        }
      }
    case _ =>
  }

  lemma {:induction false} FlightRun(cfg: Config, s: State, ls: seq<Label>)
    requires Flight(cfg, s) && Always(cfg, s, ls, CalmReset) && Always(cfg, s, ls, CalmCount)
    ensures Flight(cfg, Exec(cfg, s, ls))
  {
    if ls != [] {
      var k := |ls| - 1;
      FlightRun(cfg, s, ls[..k]);
      FlightStep(cfg, Exec(cfg, s, ls[..k]), ls[k]);
    }
  }

  /** At most max nodes are before-labelled, after-labelled or permitted. */
  lemma InFlightBound(cfg: Config, s: State, ls: seq<Label>)
    requires Fresh(s) && Always(cfg, s, ls, CalmReset) && Always(cfg, s, ls, CalmCount)
    ensures Count(Exec(cfg, s, ls).nodes, InFlight) <= cfg.max
  {
    FreshIsSafe(cfg, s);
    FlightRun(cfg, s, ls);
  }

  // ---------------------------------------------------------------------
  // What remains of it when nodes come back between the lists

  /** Node i is draining, or back without its label and not about to get it. */
  predicate IsLoose(s: State, i: nat) {
    && i < |s.nodes|
    && (Draining(s.nodes[i])
        || (JustRebooted(s.nodes[i]) && !After(s.nodes[i]) && !InWork(s.op, MarkAfterReboot, i)))
  }

  function Loose(s: State): nat -> bool {
    (i: nat) => IsLoose(s, i)
  }

  function LooseCount(s: State): nat {
    Count(Upto(|s.nodes|), Loose(s))
  }

  predicate Doubled(cfg: Config, s: State) {
    && Safe(cfg, s)
    && (Counting(s.op) ==> LooseCount(s) <= cfg.max)
    && Count(s.nodes, InFlight) + Pending(s.op) <= 2 * cfg.max
  }

  lemma LooseAt(cfg: Config, s: State, l: Label, i: nat)
    requires Safe(cfg, s) && Counting(s.op) && Counting(Step(cfg, s, l).op) && IsLoose(Step(cfg, s, l), i)
    ensures IsLoose(s, i)
  {
    assert |Step(cfg, s, l).nodes| == |s.nodes|;
    assert Kept(s, i);
    match l
    case List(_) => SelectExact(cfg, s.op.phase, l.inWindow, s.nodes);
    case Update =>
      if s.op.Updating? && s.op.work != [] {
        UpdateOne(cfg, s);
        if i == s.op.work[0] {
          ApplySafe(cfg, s.op.phase, s.nodes[i], s.agents[i]);
        }
      }
    case At(j, e) =>
      if j == i {
        LocalFrame(s.nodes[i], s.agents[i], e);
        LocalSafe(s.nodes[i], s.agents[i], e);
      }
    case _ =>
  }

  lemma LooseStep(cfg: Config, s: State, l: Label)
    requires Doubled(cfg, s) && Counting(Step(cfg, s, l).op)
    ensures LooseCount(Step(cfg, s, l)) <= cfg.max
  {
    var t := Step(cfg, s, l);
    var ids := Upto(|s.nodes|);
    if Counting(s.op) {
      forall i: nat | IsLoose(t, i) ensures IsLoose(s, i) {
        LooseAt(cfg, s, l, i);
      }
      CountLe(ids, Loose(t), ids, Loose(s));
    } else {
      SelectExact(cfg, MarkAfterReboot, l.inWindow, s.nodes);
      CountLe(ids, Loose(t), s.nodes, Draining);
    }
  }

  /** Every node in flight is loose or after-labelled when markBeforeReboot lists. */
  lemma DoubledList(cfg: Config, s: State, w: bool)
    requires Doubled(cfg, s) && s.op == ToList(MarkBeforeReboot)
    ensures Count(s.nodes, InFlight) + Pending(Step(cfg, s, List(w)).op) <= 2 * cfg.max
  {
    SelectExact(cfg, MarkBeforeReboot, w, s.nodes);
    var ids := Upto(|s.nodes|);
    var flying: nat -> bool := (i: nat) => i < |s.nodes| && InFlight(s.nodes[i]);
    var after: nat -> bool := (i: nat) => i < |s.nodes| && After(s.nodes[i]);
    var none: nat -> bool := (i: nat) => false;
    forall i: nat | flying(i) ensures IsLoose(s, i) || after(i) {
      assert Kept(s, i);
    }
    CountLe(s.nodes, InFlight, ids, flying);
    CountLe(ids, after, s.nodes, After);
    CountCover(ids, flying, Loose(s), after, none);
    CountNone(ids, none);
  }

  lemma DoubledStep(cfg: Config, s: State, l: Label)
    requires Doubled(cfg, s)
    ensures Doubled(cfg, Step(cfg, s, l)) <==> CalmReset(s, l)
  {
    var t := Step(cfg, s, l);
    SafeStep(cfg, s, l);
    if Counting(t.op) {
      LooseStep(cfg, s, l);
    }
    match l
    case List(w) => if s.op == ToList(MarkBeforeReboot) { DoubledList(cfg, s, w); }
    case Update => if s.op.Updating? && s.op.work != [] { UpdateCounts(cfg, s); }
    case At(i, e) =>
      if i < |s.nodes| {
        LocalFrame(s.nodes[i], s.agents[i], e);
        CountLe(t.nodes, InFlight, s.nodes, InFlight);
      }
    case _ =>
  }

  /** Even when permitted nodes come back between the two lists, no more than
      twice max nodes are in flight. */
  lemma {:induction false} InFlightDoubleBound(cfg: Config, s: State, ls: seq<Label>)
    requires Fresh(s) && Always(cfg, s, ls, CalmReset)
    ensures Doubled(cfg, Exec(cfg, s, ls)) && Count(Exec(cfg, s, ls).nodes, InFlight) <= 2 * cfg.max
  {
    if ls == [] {
      FreshIsSafe(cfg, s);
    } else {
      var k := |ls| - 1;
      InFlightDoubleBound(cfg, s, ls[..k]);
      DoubledStep(cfg, Exec(cfg, s, ls[..k]), ls[k]);
    }
  }

  // ---------------------------------------------------------------------
  // Passes taken as a whole

  lemma AtomicRunIsCalm(cfg: Config, s: State, ls: seq<Label>)
    requires Always(cfg, s, ls, PassAtomic)
    ensures Always(cfg, s, ls, CalmReset) && Always(cfg, s, ls, CalmCount) && Always(cfg, s, ls, CalmPause)
    ensures forall i: nat :: Always(cfg, s, ls, CalmResetOf(i))
  {
    forall t: State, l: Label | PassAtomic(t, l) ensures CalmReset(t, l) && CalmCount(t, l) && CalmPause(t, l) {
      PassAtomicIsCalm(t, l);
    }
    AlwaysWeaken(cfg, s, ls, PassAtomic, CalmReset);
    AlwaysWeaken(cfg, s, ls, PassAtomic, CalmCount);
    AlwaysWeaken(cfg, s, ls, PassAtomic, CalmPause);
    forall i: nat ensures Always(cfg, s, ls, CalmResetOf(i)) {
      AlwaysWeaken(cfg, s, ls, CalmReset, CalmResetOf(i));
    }
  }

  /** With passes taken as a whole, whatever crashes, pauses, check writes and
      aborted passes occur, both limits hold. */
  lemma PassAtomicBound(cfg: Config, s: State, ls: seq<Label>)
    requires Fresh(s) && Always(cfg, s, ls, PassAtomic)
    ensures Count(Exec(cfg, s, ls).nodes, InFlight) <= cfg.max
    ensures Count(Exec(cfg, s, ls).agents, Danger) <= cfg.max
  {
    AtomicRunIsCalm(cfg, s, ls);
    InFlightBound(cfg, s, ls);
    DrainExclusion(cfg, s, ls);
  }

  // ---------------------------------------------------------------------
  // Every grant is wanted

  predicate Eager(s: State) {
    forall i: nat :: i < |s.nodes| && Committed(s, i) ==> Wants(s.nodes[i])
  }

  lemma EagerLocal(n: Node, pc: Pc, e: Event)
    requires NodeSafe(n, pc) && Wants(n)
    ensures Wants(Local(n, pc, e).0) <==> !(e.Agent? && pc.Reset?) && e != Pause(True)
  {
  }

  lemma EagerUpdate(cfg: Config, s: State)
    requires Base(s) && Eager(s) && s.op.Updating? && s.op.work != []
    ensures Eager(Step(cfg, s, Update))
  {
    var i := s.op.work[0];
    var t := Step(cfg, s, Update);
    UpdateOne(cfg, s);
    forall j: nat | j < |t.nodes| && Committed(t, j) ensures Wants(t.nodes[j]) {
      if j != i {
        assert Committed(s, j);
      }
    }
  }

  lemma EagerAt(cfg: Config, s: State, i: nat, e: Event)
    requires Safe(cfg, s) && Eager(s) && i < |s.nodes|
    ensures Eager(Step(cfg, s, At(i, e))) <==> CalmReset(s, At(i, e)) && CalmPause(s, At(i, e))
  {
    var t := Step(cfg, s, At(i, e));
    LocalFrame(s.nodes[i], s.agents[i], e);
    assert forall j: nat :: Committed(t, j) <==> Committed(s, j);
    if Committed(s, i) {
      assert Kept(s, i);
      EagerLocal(s.nodes[i], s.agents[i], e);
      assert Wants(t.nodes[i]) <==> !Resets(s, At(i, e), i) && e != Pause(True);
    }
  }

  /** That committed nodes want their reboot is lost exactly by a startup reset
      or a pause of a node the operator is committed to. */
  lemma EagerStep(cfg: Config, s: State, l: Label)
    requires Safe(cfg, s) && Eager(s)
    ensures Eager(Step(cfg, s, l)) <==> CalmReset(s, l) && CalmPause(s, l)
  {
    match l
    case List(w) =>
      if s.op.ToList? {
        SelectExact(cfg, s.op.phase, w, s.nodes);
      }
    case Update =>
      if s.op.Updating? && s.op.work != [] {
        EagerUpdate(cfg, s);
      }
    case At(i, e) =>
      if i < |s.nodes| {
        EagerAt(cfg, s, i, e);
      }
    case _ =>
  }

  lemma {:induction false} EagerRun(cfg: Config, s: State, ls: seq<Label>)
    requires Safe(cfg, s) && Eager(s)
    requires Always(cfg, s, ls, CalmReset) && Always(cfg, s, ls, CalmPause)
    ensures Eager(Exec(cfg, s, ls))
  {
    if ls != [] {
      var k := |ls| - 1;
      EagerRun(cfg, s, ls[..k]);
      SafeRun(cfg, s, ls[..k]);
      EagerStep(cfg, Exec(cfg, s, ls[..k]), ls[k]);
    }
  }

  /** The granting update checks nothing, yet the node it grants wants a reboot,
      is not paused, not in progress and not already permitted. */
  lemma GrantsAreWanted(cfg: Config, s: State, ls: seq<Label>, l: Label, i: nat)
    requires Fresh(s) && Always(cfg, s, ls, CalmReset) && Always(cfg, s, ls, CalmPause)
    requires Grants(Exec(cfg, s, ls), l, i)
    ensures Wants(Exec(cfg, s, ls).nodes[i])
    ensures StillRebooting(Step(cfg, Exec(cfg, s, ls), l).nodes[i])
  {
    FreshIsSafe(cfg, s);
    SafeRun(cfg, s, ls);
    EagerRun(cfg, s, ls);
    var t := Exec(cfg, s, ls);
    assert Awaits(CheckBeforeReboot, t.nodes[t.op.work[0]]);
  }

  /** With passes taken as a whole this needs no condition. */
  lemma AtomicGrantsAreWanted(cfg: Config, s: State, ls: seq<Label>, l: Label, i: nat)
    requires Fresh(s) && Always(cfg, s, ls, PassAtomic) && Grants(Exec(cfg, s, ls), l, i)
    ensures Wants(Exec(cfg, s, ls).nodes[i])
    ensures StillRebooting(Step(cfg, Exec(cfg, s, ls), l).nodes[i])
  {
    AtomicRunIsCalm(cfg, s, ls);
    GrantsAreWanted(cfg, s, ls, l, i);
  }

  /** What the comment above checkBeforeReboot promises of the granting update. */
  function PromisedGrant(cfg: Config, n: Node): Node {
    if Wants(n) then Grant(cfg, n) else DeleteChecks(n, cfg.before).(beforeReboot := Absent)
  }

  /** The code keeps that promise exactly for nodes that still want the reboot,
      or were permitted already. */
  lemma GrantKeepsPromise(cfg: Config, n: Node)
    ensures Grant(cfg, n) == PromisedGrant(cfg, n) <==> Wants(n) || Ok(n)
  {
  }

  // ---------------------------------------------------------------------
  // Permission stability

  function NoResetOf(i: nat): (State, Label) -> bool {
    (s, l) => !Resets(s, l, i)
  }

  lemma {:induction false} BaseRun(cfg: Config, s: State, ls: seq<Label>)
    requires Base(s)
    ensures Base(Exec(cfg, s, ls)) && |Exec(cfg, s, ls).nodes| == |s.nodes|
  {
    if ls != [] {
      BaseRun(cfg, s, ls[..|ls| - 1]);
      BaseStep(cfg, Exec(cfg, s, ls[..|ls| - 1]), ls[|ls| - 1]);
    }
  }

  lemma {:induction false} KeptRun(cfg: Config, s: State, ls: seq<Label>, i: nat)
    requires Base(s) && Kept(s, i) && Always(cfg, s, ls, CalmResetOf(i))
    ensures Base(Exec(cfg, s, ls)) && Kept(Exec(cfg, s, ls), i)
  {
    BaseRun(cfg, s, ls);
    if ls != [] {
      var k := |ls| - 1;
      KeptRun(cfg, s, ls[..k], i);
      KeptStep(cfg, Exec(cfg, s, ls[..k]), ls[k], i);
    }
  }

  lemma PermissionStep(cfg: Config, s: State, l: Label, i: nat)
    requires Base(s) && Kept(s, i) && StillRebooting(s.nodes[i]) && !Resets(s, l, i)
    ensures Base(Step(cfg, s, l)) && Kept(Step(cfg, s, l), i) && StillRebooting(Step(cfg, s, l).nodes[i])
  {
    BaseStep(cfg, s, l);
    KeptStep(cfg, s, l, i);
    if l.Update? && s.op.Updating? && s.op.work != [] {
      UpdateOne(cfg, s);
    } else if l == At(i, Agent) {
      LocalFrame(s.nodes[i], s.agents[i], l.e);
      LocalSafe(s.nodes[i], s.agents[i], l.e);
    }
  }

  lemma {:induction false} PermissionLasts(cfg: Config, s: State, ls: seq<Label>, i: nat)
    requires Base(s) && Kept(s, i) && StillRebooting(s.nodes[i]) && Always(cfg, s, ls, NoResetOf(i))
    ensures Base(Exec(cfg, s, ls)) && Kept(Exec(cfg, s, ls), i) && StillRebooting(Exec(cfg, s, ls).nodes[i])
  {
    if ls != [] {
      var k := |ls| - 1;
      PermissionLasts(cfg, s, ls[..k], i);
      PermissionStep(cfg, Exec(cfg, s, ls[..k]), ls[k], i);
    }
  }

  /** Once an agent has seen permission, its node stays permitted and wanting
      until that agent's next startup reset, whatever the operator, the other
      agents and everybody else do. */
  lemma PermissionStable(cfg: Config, s: State, ls: seq<Label>, more: seq<Label>, i: nat)
    requires Fresh(s) && i < |s.nodes| && Always(cfg, s, ls, CalmResetOf(i))
    requires Always(cfg, Exec(cfg, s, ls), more, NoResetOf(i))
    ensures var t := Exec(cfg, s, ls);
      && |t.agents| == |t.nodes| == |Exec(cfg, t, more).nodes| == |s.nodes|
      && (Danger(t.agents[i]) ==> StillRebooting(Exec(cfg, t, more).nodes[i]))
  {
    var t := Exec(cfg, s, ls);
    FreshIsSafe(cfg, s);
    KeptRun(cfg, s, ls, i);
    BaseRun(cfg, s, ls);
    BaseRun(cfg, t, more);
    if Danger(t.agents[i]) {
      PermissionLasts(cfg, t, more, i);
    }
  }

  /** An after-labelled node is permitted and reset, and its agent has not begun
      to watch for updates. */
  lemma AfterLabelledIsIdle(cfg: Config, s: State, ls: seq<Label>, i: nat)
    requires Fresh(s) && i < |s.nodes| && Always(cfg, s, ls, CalmResetOf(i))
    ensures var t := Exec(cfg, s, ls);
      && |t.agents| == |t.nodes| == |s.nodes|
      && (After(t.nodes[i]) ==> Ok(t.nodes[i]) && IsReset(t.nodes[i]) && !Watching(t.agents[i]))
  {
    FreshIsSafe(cfg, s);
    KeptRun(cfg, s, ls, i);
    BaseRun(cfg, s, ls);
    assert Labelled(Exec(cfg, s, ls).nodes[i]);
  }
}
