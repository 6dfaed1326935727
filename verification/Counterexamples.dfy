/** Runs that show the side conditions of the theorems cannot be dropped, in a
    cluster of two nodes with no configured checks and one reboot at a time. */
module Counterexamples {
  import opened Lists
  import opened Nodes
  import opened Passes
  import opened Protocol
  import opened Safety
  import opened Cordons
  import opened Reboots
  import opened Steering
  import opened Exactness

  const CFG := Config([], [], 1)

  const BLANK := Node(Absent, Absent, Absent, Absent, Absent, Absent, Absent, Absent, Absent, Absent, Absent, map[], false)

  const START := State([BLANK, BLANK], [Boot, Boot], IDLE)

  const NEWS := UpdateStatus(NEED_REBOOT, "0", "1")

  const WANTS := StatusNode(ResetNode(BLANK), NEWS)

  lemma Two(a: Node, b: Node, p: Node -> bool)
    ensures Ids([a, b], p) == (if p(a) then [0] else []) + (if p(b) then [1] else [])
  {
    assert [a, b][..1] == [a] && [a][..0] == [];
    assert Ids([a], p) == if p(a) then [0] else [];
  }

  /** Appends one step to a run. */
  lemma Then(s: State, ls: seq<Label>, l: Label) returns (ls': seq<Label>)
    ensures Exec(CFG, s, ls') == Step(CFG, Exec(CFG, s, ls), l)
    ensures Always(CFG, s, ls, CalmReset) && CalmReset(Exec(CFG, s, ls), l) ==> Always(CFG, s, ls', CalmReset)
  {
    ls' := ls + [l];
    assert ls'[..|ls|] == ls;
  }

  /** Appends a whole phase that finds nothing to do. */
  lemma Nothing(s: State, ls: seq<Label>, a: Node, b: Node, agents: seq<Pc>, p: Phase) returns (ls': seq<Label>)
    requires Exec(CFG, s, ls) == State([a, b], agents, ToList(p))
    requires !p.MarkBeforeReboot? && !Due(CFG, p, a) && !Due(CFG, p, b)
    ensures Exec(CFG, s, ls') == State([a, b], agents, ToList(Following(p)))
    ensures Always(CFG, s, ls, CalmReset) ==> Always(CFG, s, ls', CalmReset)
  {
    Two(a, b, DueIn(CFG, p));
    ls' := Then(s, ls, List(false));
    ls' := Then(s, ls', Advance);
  }

  /** Appends the list of a phase that selects the first node only. */
  lemma ListFirst(s: State, ls: seq<Label>, a: Node, b: Node, agents: seq<Pc>, p: Phase) returns (ls': seq<Label>)
    requires Exec(CFG, s, ls) == State([a, b], agents, ToList(p))
    requires !p.MarkBeforeReboot? && Due(CFG, p, a) && !Due(CFG, p, b)
    ensures Exec(CFG, s, ls') == State([a, b], agents, Updating(p, [0]))
    ensures Always(CFG, s, ls, CalmReset) ==> Always(CFG, s, ls', CalmReset)
  {
    Two(a, b, DueIn(CFG, p));
    ls' := Then(s, ls, List(false));
    assert Select(CFG, p, false, [a, b]) == [0];
  }

  /** Appends a whole phase that updates the first node only. */
  lemma One(s: State, ls: seq<Label>, a: Node, b: Node, agents: seq<Pc>, p: Phase) returns (ls': seq<Label>)
    requires Exec(CFG, s, ls) == State([a, b], agents, ToList(p))
    requires !p.MarkBeforeReboot? && Due(CFG, p, a) && !Due(CFG, p, b)
    ensures Exec(CFG, s, ls') == State([Apply(CFG, p, a), b], agents, ToList(Following(p)))
    ensures Always(CFG, s, ls, CalmReset) ==> Always(CFG, s, ls', CalmReset)
  {
    ls' := ListFirst(s, ls, a, b, agents, p);
    ls' := Then(s, ls', Update);
    assert [a, b][0 := Apply(CFG, p, a)] == [Apply(CFG, p, a), b] && [0][1..] == [];
    ls' := Then(s, ls', Advance);
  }

  /** Appends cleanupState, when it changes nothing. */
  lemma Clean(s: State, ls: seq<Label>, a: Node, b: Node, agents: seq<Pc>) returns (ls': seq<Label>)
    requires Exec(CFG, s, ls) == State([a, b], agents, IDLE)
    requires Cleanup(CFG, a) == a && Cleanup(CFG, b) == b
    ensures Exec(CFG, s, ls') == State([a, b], agents, ToList(CheckAfterReboot))
    ensures Always(CFG, s, ls, CalmReset) ==> Always(CFG, s, ls', CalmReset)
  {
    Two(a, b, DueIn(CFG, CleanupState));
    ls' := Then(s, ls, List(false));
    assert Select(CFG, CleanupState, false, [a, b]) == [0, 1];
    assert Exec(CFG, s, ls') == State([a, b], agents, Updating(CleanupState, [0, 1]));
    ls' := Then(s, ls', Update);
    assert [a, b][0 := a] == [a, b] && [0, 1][1..] == [1];
    assert Exec(CFG, s, ls') == State([a, b], agents, Updating(CleanupState, [1]));
    ls' := Then(s, ls', Update);
    assert [a, b][1 := b] == [a, b] && [1][1..] == [];
    assert Exec(CFG, s, ls') == State([a, b], agents, Updating(CleanupState, []));
    ls' := Then(s, ls', Advance);
  }

  /** Appends the phases before checkBeforeReboot, when they change nothing. */
  lemma Front(s: State, ls: seq<Label>, a: Node, b: Node, agents: seq<Pc>) returns (ls': seq<Label>)
    requires Exec(CFG, s, ls) == State([a, b], agents, IDLE)
    requires Cleanup(CFG, a) == a && Cleanup(CFG, b) == b && !After(a) && !After(b)
    requires !JustRebooted(a) && !JustRebooted(b)
    ensures Exec(CFG, s, ls') == State([a, b], agents, ToList(CheckBeforeReboot))
    ensures Always(CFG, s, ls, CalmReset) ==> Always(CFG, s, ls', CalmReset)
  {
    ls' := Clean(s, ls, a, b, agents);
    ls' := Nothing(s, ls', a, b, agents, CheckAfterReboot);
    ls' := Nothing(s, ls', a, b, agents, MarkAfterReboot);
  }

  /** Appends markBeforeReboot choosing one node that wants a reboot. */
  lemma Choose(s: State, ls: seq<Label>, a: Node, b: Node, agents: seq<Pc>, i: nat) returns (ls': seq<Label>)
    requires Exec(CFG, s, ls) == State([a, b], agents, ToList(MarkBeforeReboot))
    requires !Draining(a) && !Draining(b) && !After(a) && !After(b)
    requires i == (if Wants(a) then 0 else 1) && Wants([a, b][i])
    ensures Exec(CFG, s, ls') == State([a, b][i := MarkBefore(CFG, [a, b][i])], agents, IDLE)
    ensures Always(CFG, s, ls, CalmReset) ==> Always(CFG, s, ls', CalmReset)
  {
    Two(a, b, StillRebooting);
    Two(a, b, Before);
    Two(a, b, After);
    Two(a, b, Rebootable);
    assert Busy([a, b]) == 0;
    ls' := Then(s, ls, List(true));
    assert Exec(CFG, s, ls').op == Updating(MarkBeforeReboot, [i]);
    ls' := Then(s, ls', Update);
    assert [i][1..] == [];
    ls' := Then(s, ls', Advance);
  }

  lemma FirstAsks() returns (ls: seq<Label>)
    ensures Exec(CFG, START, ls) == State([WANTS, BLANK], [WaitOk, Boot], IDLE)
    ensures Always(CFG, START, ls, CalmReset)
  {
    ls := Then(START, [], At(0, Agent));
    assert Exec(CFG, START, ls) == State([BLANK, BLANK], [Reset(false), Boot], IDLE);
    ls := Then(START, ls, At(0, Agent));
    assert Exec(CFG, START, ls) == State([ResetNode(BLANK), BLANK], [WaitNotOk(false), Boot], IDLE);
    ls := Then(START, ls, At(0, Agent));
    ls := Then(START, ls, At(0, Signal(NEWS)));
  }

  lemma BothAsk() returns (ls: seq<Label>)
    ensures Exec(CFG, START, ls) == State([WANTS, WANTS], [WaitOk, WaitOk], IDLE)
    ensures Always(CFG, START, ls, CalmReset)
  {
    ls := FirstAsks();
    ls := Then(START, ls, At(1, Agent));
    assert Exec(CFG, START, ls) == State([WANTS, BLANK], [WaitOk, Reset(false)], IDLE);
    ls := Then(START, ls, At(1, Agent));
    assert Exec(CFG, START, ls) == State([WANTS, ResetNode(BLANK)], [WaitOk, WaitNotOk(false)], IDLE);
    ls := Then(START, ls, At(1, Agent));
    ls := Then(START, ls, At(1, Signal(NEWS)));
  }

  /** Both nodes want a reboot and the first is labelled before-reboot. */
  lemma FirstLabelled() returns (ls: seq<Label>)
    ensures Exec(CFG, START, ls) == State([MarkBefore(CFG, WANTS), WANTS], [WaitOk, WaitOk], IDLE)
    ensures Always(CFG, START, ls, CalmReset)
  {
    ls := BothAsk();
    ls := Front(START, ls, WANTS, WANTS, [WaitOk, WaitOk]);
    ls := Nothing(START, ls, WANTS, WANTS, [WaitOk, WaitOk], CheckBeforeReboot);
    ls := Choose(START, ls, WANTS, WANTS, [WaitOk, WaitOk], 0);
    assert [WANTS, WANTS][0 := MarkBefore(CFG, WANTS)] == [MarkBefore(CFG, WANTS), WANTS];
  }

  /** Appends checkBeforeReboot listing the one labelled node. */
  lemma ListQueued(s: State, ls: seq<Label>, a: Node, b: Node, agents: seq<Pc>, i: nat) returns (ls': seq<Label>)
    requires Exec(CFG, s, ls) == State([a, b], agents, ToList(CheckBeforeReboot))
    requires i == (if Before(a) then 0 else 1) && !(Before(a) && Before(b)) && Before([a, b][i])
    ensures Exec(CFG, s, ls') == State([a, b], agents, Updating(CheckBeforeReboot, [i]))
    ensures Always(CFG, s, ls, CalmReset) ==> Always(CFG, s, ls', CalmReset)
  {
    Two(a, b, DueIn(CFG, CheckBeforeReboot));
    ls' := Then(s, ls, List(false));
    assert Select(CFG, CheckBeforeReboot, false, [a, b]) == [i];
  }

  /** Appends the agent of the first node making its next call. */
  lemma First(s: State, ls: seq<Label>, a: Node, b: Node, pc: Pc, pc2: Pc, op: Op) returns (ls': seq<Label>)
    requires Exec(CFG, s, ls) == State([a, b], [pc, pc2], op)
    ensures var (m, next) := AgentCall(a, pc); Exec(CFG, s, ls') == State([m, b], [next, pc2], op)
    ensures Always(CFG, s, ls, CalmReset) && (pc.Reset? ==> !Before(a) && !InWork(op, MarkBeforeReboot, 0))
            ==> Always(CFG, s, ls', CalmReset)
  {
    ls' := Then(s, ls, At(0, Agent));
  }

  /** Appends the operator's grant to a node it has listed. */
  lemma GrantOne(s: State, ls: seq<Label>, a: Node, b: Node, agents: seq<Pc>, i: nat) returns (ls': seq<Label>)
    requires Exec(CFG, s, ls) == State([a, b], agents, Updating(CheckBeforeReboot, [i])) && i < 2
    ensures Exec(CFG, s, ls')
            == State([a, b][i := Grant(CFG, [a, b][i])], agents, ToList(MarkBeforeReboot))
    ensures Always(CFG, s, ls, CalmReset) ==> Always(CFG, s, ls', CalmReset)
  {
    ls' := Then(s, ls, Update);
    assert [i][1..] == [];
    ls' := Then(s, ls', Advance);
  }

  // ---------------------------------------------------------------------

  /** The first agent restarts while its node is about to be granted a reboot:
      the node is permitted and does not ask for a reboot, and the agent has
      already seen permission withdrawn. */
  lemma RestartedMeanwhile() returns (ls: seq<Label>, g: Node)
    ensures Exec(CFG, START, ls) == State([g, WANTS], [WaitOk, WaitOk], ToList(MarkBeforeReboot))
    ensures JustRebooted(g) && g.beforeReboot == Absent && !After(g)
  {
    var q := MarkBefore(CFG, WANTS);
    var r := ResetNode(q);
    var op := Updating(CheckBeforeReboot, [0]);
    ls := FirstLabelled();
    ls := Front(START, ls, q, WANTS, [WaitOk, WaitOk]);
    ls := ListQueued(START, ls, q, WANTS, [WaitOk, WaitOk], 0);
    ls := Then(START, ls, At(0, Crash));
    assert Exec(CFG, START, ls) == State([q, WANTS], [Boot, WaitOk], op);
    ls := First(START, ls, q, WANTS, Boot, WaitOk, op);
    ls := First(START, ls, q, WANTS, Reset(false), WaitOk, op);
    ls := First(START, ls, r, WANTS, WaitNotOk(false), WaitOk, op);
    ls := GrantOne(START, ls, r, WANTS, [WaitOk, WaitOk], 0);
    g := Grant(CFG, r);
    assert [r, WANTS][0 := g] == [g, WANTS];
  }

  /** When it asks again, the first node is drained beside the second. */
  lemma BothDrained(ls: seq<Label>, g: Node, q: Node) returns (ls': seq<Label>)
    requires Exec(CFG, START, ls) == State([g, q], [WaitOk, WaitOk], IDLE)
    requires JustRebooted(g) && g.beforeReboot == Absent && !After(g)
    requires Before(q) && Wants(q) && !After(q)
    ensures Exec(CFG, START, ls').agents == [Permitted, Permitted]
  {
    var n := StatusNode(g, NEWS);
    ls' := Then(START, ls, At(0, Signal(NEWS)));
    assert Exec(CFG, START, ls') == State([n, q], [WaitOk, WaitOk], IDLE);
    ls' := First(START, ls', n, q, WaitOk, WaitOk, IDLE);
    ls' := Front(START, ls', n, q, [Permitted, WaitOk]);
    ls' := ListQueued(START, ls', n, q, [Permitted, WaitOk], 1);
    ls' := GrantOne(START, ls', n, q, [Permitted, WaitOk], 1);
    ls' := Then(START, ls', At(1, Agent));
  }

  /** So exclusion fails without CalmReset. */
  lemma RestartBreaksExclusion() returns (ls: seq<Label>)
    ensures Fresh(START) && !Always(CFG, START, ls, CalmReset)
    ensures Count(Exec(CFG, START, ls).agents, Danger) == 2 > CFG.max
  {
    var g;
    ls, g := RestartedMeanwhile();
    ls := Choose(START, ls, g, WANTS, [WaitOk, WaitOk], 1);
    var q := MarkBefore(CFG, WANTS);
    assert [g, WANTS][1 := q] == [g, q];
    ls := BothDrained(ls, g, q);
    TwoAgents(Permitted, Permitted);
    NotCalm(ls);
  }

  lemma TwoAgents(a: Pc, b: Pc)
    requires Danger(a) && Danger(b)
    ensures Count([a, b], Danger) == 2
  {
    assert [a, b][..1] == [a] && [a][..0] == [];
    assert Ids([a], Danger) == [0];
  }

  lemma NotCalm(ls: seq<Label>)
    ensures Count(Exec(CFG, START, ls).agents, Danger) > CFG.max ==> !Always(CFG, START, ls, CalmReset)
    ensures Count(Exec(CFG, START, ls).nodes, InFlight) > CFG.max && Always(CFG, START, ls, CalmReset)
            ==> !Always(CFG, START, ls, CalmCount)
  {
    if Always(CFG, START, ls, CalmReset) {
      DrainExclusion(CFG, START, ls);
      if Always(CFG, START, ls, CalmCount) {
        InFlightBound(CFG, START, ls);
      }
    }
  }

  // ---------------------------------------------------------------------

  /** The first node is granted its reboot and the pass ends there. */
  lemma FirstGranted() returns (ls: seq<Label>, g: Node)
    ensures Exec(CFG, START, ls) == State([g, WANTS], [WaitOk, WaitOk], IDLE)
    ensures StillRebooting(g) && !g.unschedulable && g.beforeReboot == Absent && !After(g)
    ensures Always(CFG, START, ls, CalmReset)
  {
    var q := MarkBefore(CFG, WANTS);
    ls := FirstLabelled();
    ls := Front(START, ls, q, WANTS, [WaitOk, WaitOk]);
    ls := ListQueued(START, ls, q, WANTS, [WaitOk, WaitOk], 0);
    ls := GrantOne(START, ls, q, WANTS, [WaitOk, WaitOk], 0);
    g := Grant(CFG, q);
    assert [q, WANTS][0 := g] == [g, WANTS];
    ls := Then(START, ls, Abort);
  }

  /** Its agent sees permission. */
  lemma FirstPermitted(ls: seq<Label>, g: Node, b: Node) returns (ls': seq<Label>)
    requires Exec(CFG, START, ls) == State([g, b], [WaitOk, WaitOk], IDLE)
    requires StillRebooting(g) && Always(CFG, START, ls, CalmReset)
    ensures Exec(CFG, START, ls') == State([g, b], [Marking(g.unschedulable), WaitOk], IDLE)
    ensures Always(CFG, START, ls', CalmReset)
  {
    ls' := First(START, ls, g, b, WaitOk, WaitOk, IDLE);
    ls' := First(START, ls', g, b, Permitted, WaitOk, IDLE);
  }

  /** And cordons it. */
  lemma FirstCordoned(ls: seq<Label>, g: Node, b: Node) returns (ls': seq<Label>, a: Node)
    requires Exec(CFG, START, ls) == State([g, b], [Marking(false), WaitOk], IDLE)
    requires Always(CFG, START, ls, CalmReset)
    ensures a == g.(rebootInProgress := True, madeUnschedulable := True, unschedulable := true)
    ensures Exec(CFG, START, ls') == State([a, b], [Drain, WaitOk], IDLE)
    ensures Always(CFG, START, ls', CalmReset)
  {
    ls' := First(START, ls, g, b, Marking(false), WaitOk, IDLE);
    var m := g.(rebootInProgress := True, madeUnschedulable := True);
    ls' := First(START, ls', m, b, Cordon, WaitOk, IDLE);
    a := m.(unschedulable := true);
  }

  /** Then drains and reboots it, and is about to reset it. */
  lemma FirstBack(ls: seq<Label>, a: Node, b: Node) returns (ls': seq<Label>)
    requires Exec(CFG, START, ls) == State([a, b], [Drain, WaitOk], IDLE)
    requires a.madeUnschedulable == True && Always(CFG, START, ls, CalmReset)
    ensures Exec(CFG, START, ls') == State([a, b], [Reset(true), WaitOk], IDLE)
    ensures Always(CFG, START, ls', CalmReset)
  {
    ls' := First(START, ls, a, b, Drain, WaitOk, IDLE);
    ls' := First(START, ls', a, b, Rebooting, WaitOk, IDLE);
    ls' := First(START, ls', a, b, Boot, WaitOk, IDLE);
  }

  /** A permitted node comes back up after the rebooted nodes were listed and
      before the rebooting ones are counted. It is in neither list, and a second
      node goes in flight beside it: the full bound fails without CalmCount,
      even in runs that satisfy CalmReset. */
  lemma ComebackBreaksInFlightBound() returns (ls: seq<Label>)
    ensures Fresh(START) && Always(CFG, START, ls, CalmReset) && !Always(CFG, START, ls, CalmCount)
    ensures Count(Exec(CFG, START, ls).nodes, InFlight) == 2 * CFG.max > CFG.max
  {
    var a;
    ls, a := FirstGranted();
    ls := FirstPermitted(ls, a, WANTS);
    ls, a := FirstCordoned(ls, a, WANTS);
    ls := FirstBack(ls, a, WANTS);
    var back := ResetNode(a);
    var now := [WaitNotOk(true), WaitOk];
    ls := Front(START, ls, a, WANTS, [Reset(true), WaitOk]);
    ls := First(START, ls, a, WANTS, Reset(true), WaitOk, ToList(CheckBeforeReboot));
    ls := Nothing(START, ls, back, WANTS, now, CheckBeforeReboot);
    ls := Choose(START, ls, back, WANTS, now, 1);
    var q := MarkBefore(CFG, WANTS);
    assert [back, WANTS][1 := q] == [back, q];
    Two(back, q, InFlight);
    NotCalm(ls);
  }

  // ---------------------------------------------------------------------

  /** A node is paused after checkBeforeReboot has listed it, and is granted its
      reboot all the same. */
  lemma PauseBreaksWantedGrants() returns (ls: seq<Label>)
    ensures Fresh(START) && Always(CFG, START, ls, CalmReset) && !Always(CFG, START, ls, CalmPause)
    ensures var t := Exec(CFG, START, ls);
      Grants(t, Update, 0) && t.nodes[0].rebootPaused == True && Ok(Step(CFG, t, Update).nodes[0])
  {
    var q := MarkBefore(CFG, WANTS);
    ls := FirstLabelled();
    ls := Front(START, ls, q, WANTS, [WaitOk, WaitOk]);
    ls := ListQueued(START, ls, q, WANTS, [WaitOk, WaitOk], 0);
    ls := Then(START, ls, At(0, Pause(True)));
    var t := Exec(CFG, START, ls);
    assert t.nodes[0] == q.(rebootPaused := True);
    if Always(CFG, START, ls, CalmPause) {
      GrantsAreWanted(CFG, START, ls, Update, 0);
    }
  }

  /** A node whose agent restarted before its grant is listed as rebooted. */
  lemma RestartListed() returns (ls: seq<Label>, g: Node)
    ensures Exec(CFG, START, ls) == State([g, WANTS], [WaitOk, WaitOk], Updating(MarkAfterReboot, [0]))
    ensures Ok(g) && g.beforeReboot == Absent
  {
    ls, g := RestartedMeanwhile();
    ls := Then(START, ls, Abort);
    ls := Clean(START, ls, g, WANTS, [WaitOk, WaitOk]);
    ls := Nothing(START, ls, g, WANTS, [WaitOk, WaitOk], CheckAfterReboot);
    ls := ListFirst(START, ls, g, WANTS, [WaitOk, WaitOk], MarkAfterReboot);
  }

  /** It asks again, its agent sees permission, and it is labelled after-reboot. */
  lemma RestartMislabelled() returns (ls: seq<Label>, n: Node)
    ensures Exec(CFG, START, ls) == State([n, WANTS], [Permitted, WaitOk], IDLE)
    ensures After(n) && StillRebooting(n) && n.beforeReboot == Absent
  {
    var g;
    ls, g := RestartListed();
    var op := Updating(MarkAfterReboot, [0]);
    var w := StatusNode(g, NEWS);
    ls := Then(START, ls, At(0, Signal(NEWS)));
    assert Exec(CFG, START, ls) == State([w, WANTS], [WaitOk, WaitOk], op);
    ls := First(START, ls, w, WANTS, WaitOk, WaitOk, op);
    ls := Then(START, ls, Update);
    n := MarkAfter(CFG, w);
    assert [w, WANTS][0 := n] == [n, WANTS];
    ls := Then(START, ls, Abort);
  }

  /** What the theorems say of the first node. */
  lemma CalmFirst(ls: seq<Label>, t: State)
    requires t == Exec(CFG, START, ls) && |t.nodes| == |t.agents| == 2 && Danger(t.agents[0])
    ensures Always(CFG, START, ls, CalmResetOf(0)) ==> Ok(t.nodes[0]) && !After(t.nodes[0])
  {
    if Always(CFG, START, ls, CalmResetOf(0)) {
      AfterLabelledIsIdle(CFG, START, ls, 0);
      PermissionStable(CFG, START, ls, [], 0);
    }
  }

  /** So an after-labelled node need not be idle when it was reset while the
      operator was committed to it. */
  lemma RestartBreaksIdleness() returns (ls: seq<Label>)
    ensures Fresh(START) && !Always(CFG, START, ls, CalmResetOf(0))
    ensures var t := Exec(CFG, START, ls);
      |t.nodes| == |t.agents| == 2 && After(t.nodes[0]) && Danger(t.agents[0])
  {
    var n;
    ls, n := RestartMislabelled();
    CalmFirst(ls, State([n, WANTS], [Permitted, WaitOk], IDLE));
  }

  /** And in the next pass permission is withdrawn from an agent that has seen it. */
  lemma RestartBreaksPermission() returns (ls: seq<Label>)
    ensures Fresh(START) && !Always(CFG, START, ls, CalmResetOf(0))
    ensures var t := Exec(CFG, START, ls);
      |t.nodes| == |t.agents| == 2 && Danger(t.agents[0]) && !Ok(t.nodes[0])
  {
    var n;
    ls, n := RestartMislabelled();
    ls := Clean(START, ls, n, WANTS, [Permitted, WaitOk]);
    ls := One(START, ls, n, WANTS, [Permitted, WaitOk], CheckAfterReboot);
    CalmFirst(ls, State([Release(CFG, n), WANTS], [Permitted, WaitOk], ToList(MarkAfterReboot)));
  }

  // ---------------------------------------------------------------------

  /** A node has rebooted and its agent waits for permission to be withdrawn. */
  lemma FirstRebooted() returns (ls: seq<Label>, n: Node)
    ensures Exec(CFG, START, ls) == State([n, WANTS], [WaitNotOk(true), WaitOk], IDLE)
    ensures JustRebooted(n) && n.madeUnschedulable == True && n.beforeReboot == Absent && !After(n)
  {
    var a;
    ls, a := FirstGranted();
    ls := FirstPermitted(ls, a, WANTS);
    ls, a := FirstCordoned(ls, a, WANTS);
    ls := FirstBack(ls, a, WANTS);
    ls := First(START, ls, a, WANTS, Reset(true), WaitOk, IDLE);
    n := ResetNode(a);
  }

  /** It is labelled after-reboot, and released in the next pass. */
  lemma FirstReleased() returns (ls: seq<Label>, n: Node)
    ensures Exec(CFG, START, ls) == State([n, WANTS], [WaitNotOk(true), WaitOk], ToList(MarkAfterReboot))
    ensures n.madeUnschedulable == True && !Ok(n)
  {
    var now := [WaitNotOk(true), WaitOk];
    ls, n := FirstRebooted();
    ls := Clean(START, ls, n, WANTS, now);
    ls := Nothing(START, ls, n, WANTS, now, CheckAfterReboot);
    ls := One(START, ls, n, WANTS, now, MarkAfterReboot);
    n := MarkAfter(CFG, n);
    ls := Then(START, ls, Abort);
    ls := Clean(START, ls, n, WANTS, now);
    ls := One(START, ls, n, WANTS, now, CheckAfterReboot);
    n := Release(CFG, n);
  }

  /** Its agent goes on, and dies before it has taken back its mark. */
  lemma ReleasedWithMark() returns (ls: seq<Label>, n: Node)
    ensures Exec(CFG, START, ls) == State([n, WANTS], [Boot, WaitOk], ToList(MarkAfterReboot))
    ensures n.madeUnschedulable == True && !Ok(n)
  {
    ls, n := FirstReleased();
    ls := First(START, ls, n, WANTS, WaitNotOk(true), WaitOk, ToList(MarkAfterReboot));
    ls := Then(START, ls, At(0, Crash));
  }

  /** A cordon the administrator sets then is lifted: the round trip fails
      without CalmCordon. */
  lemma CordonLostInRun() returns (ls: seq<Label>)
    ensures Fresh(START) && START.nodes[0].madeUnschedulable != True && !Always(CFG, START, ls, CalmCordonOf(0))
    ensures var t := Exec(CFG, START, ls);
      && |t.nodes| == |t.agents| == 2
      && t.agents[0] == WaitOk && !t.nodes[0].unschedulable && Intended(START, ls, 0)
  {
    var n;
    ls, n := ReleasedWithMark();
    ls := CordonLostAfter(CFG, START, ls, 0);
    FreshIsSafe(CFG, START);
    BaseRun(CFG, START, ls);
    if Always(CFG, START, ls, CalmCordonOf(0)) {
      CordonRoundTrip(CFG, START, ls, 0);
    }
  }

  // ---------------------------------------------------------------------

  /** An agent dies while it drains its node, which is then released without
      having rebooted since its grant. */
  lemma ReleasedUnrebooted() returns (ls: seq<Label>, t: State)
    ensures Fresh(START) && Always(CFG, START, ls, CalmReset)
    ensures |Exec(CFG, START, ls).agents| == 2 && Exec(CFG, START, ls).agents[0] == Drain
    ensures Leads(CFG, NoRebootOf(0), Exec(CFG, START, ls), t) && Releases(t, Update, 0)
  {
    var g;
    ls, g := FirstGranted();
    ls := FirstPermitted(ls, g, WANTS);
    ls, g := FirstCordoned(ls, g, WANTS);
    FreshIsSafe(CFG, START);
    BaseRun(CFG, START, ls);
    t := DiesDraining(Exec(CFG, START, ls));
  }

  lemma DiesDraining(s: State) returns (t: State)
    requires Base(s) && |s.nodes| == 2 && s.agents[0] == Drain && Ok(s.nodes[0])
    ensures Leads(CFG, NoRebootOf(0), s, t) && Releases(t, Update, 0)
  {
    LeadsHere(CFG, NoRebootOf(0), s);
    t := ToEvent(CFG, NoRebootOf(0), s, s, 0, Crash);
    t := ToUnearnedRelease(CFG, s, t, 0);
  }
}
