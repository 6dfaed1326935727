/** The side conditions ask for no more than is needed: from every state, each
    step they exclude can be followed by a failure of what they are there for. */
module Exactness {
  import opened Lists
  import opened Nodes
  import opened Passes
  import opened Protocol
  import opened Safety
  import opened Cordons
  import opened Reboots
  import opened Steering

  /** The operator works and the checks of node i are written; nothing else. */
  function ChecksOnly(i: nat): (State, Label) -> bool {
    (s: State, l: Label) => !l.At? || (l.i == i && l.e.WriteCheck?)
  }

  /** Agent i has reset its node and does not wait for permission yet. */
  predicate Waits(s: State, i: nat) {
    i < |s.agents| && (s.agents[i].WaitNotOk? || s.agents[i].Uncordon? || s.agents[i].ClearMade?)
  }

  /** Agent i, not permitted, gets to where it waits for permission. */
  lemma FinishStart(cfg: Config, p: (State, Label) -> bool, o: State, s: State, i: nat) returns (t: State)
    requires Leads(cfg, p, o, s) && Base(s) && i < |s.nodes| && !Ok(s.nodes[i]) && s.agents[i].WaitNotOk?
    requires forall u: State :: Waits(u, i) ==> p(u, At(i, Agent))
    ensures Leads(cfg, p, o, t) && Base(t) && |t.nodes| == |s.nodes| && t.op == s.op && t.agents[i] == WaitOk
    ensures var n := t.nodes[i];
      n == s.nodes[i].(unschedulable := n.unschedulable, madeUnschedulable := n.madeUnschedulable)
    ensures s.agents[i].makeSchedulable ==> !t.nodes[i].unschedulable
  {
    t := ToEvent(cfg, p, o, s, i, Agent);
    if s.agents[i].makeSchedulable {
      t := ToEvent(cfg, p, o, t, i, Agent);
      t := ToEvent(cfg, p, o, t, i, Agent);
    }
  }

  // ---------------------------------------------------------------------
  // CalmReset

  /** A permitted node that has been reset, whose agent waits for permission, can
      come to be labelled after-reboot while the agent sets out to drain it. */
  lemma Mislabelled(cfg: Config, o: State, s: State, i: nat) returns (t: State)
    requires Leads(cfg, NoResetOf(i), o, s) && Base(s) && i < |s.nodes|
    requires JustRebooted(s.nodes[i]) && !After(s.nodes[i]) && s.agents[i] == WaitOk
    ensures Leads(cfg, NoResetOf(i), o, t) && Base(t) && |t.nodes| == |s.nodes|
    ensures After(t.nodes[i]) && t.agents[i] == Permitted
  {
    var p := NoResetOf(i);
    assert Labelled(s.nodes[i]);
    var u := Again(cfg, p, o, s, i);
    u := PastPhase(cfg, p, o, u, i);
    u := ToUpdate(cfg, p, o, u, i);
    t := AsksAgain(cfg, o, u, i);
    t := ToUpdated(cfg, p, o, t, i);
  }

  /** It asks again, and its agent sees permission. */
  lemma AsksAgain(cfg: Config, o: State, s: State, i: nat) returns (t: State)
    requires Leads(cfg, NoResetOf(i), o, s) && Base(s) && i < |s.nodes| && Ok(s.nodes[i]) && s.agents[i] == WaitOk
    ensures Leads(cfg, NoResetOf(i), o, t) && Base(t) && |t.nodes| == |s.nodes| && t.op == s.op
    ensures Ok(t.nodes[i]) && t.agents[i] == Permitted
  {
    t := ToEvent(cfg, NoResetOf(i), o, s, i, Signal(UpdateStatus(NEED_REBOOT, "", "")));
    t := ToEvent(cfg, NoResetOf(i), o, t, i, Agent);
  }

  /** A reset of a node the operator is committed to can be followed, with no
      other reset, by an after-reboot label beside an agent that sets out to
      drain. */
  lemma ResetLosesIdleness(cfg: Config, s: State, i: nat) returns (t: State)
    requires Base(s) && Resets(s, At(i, Agent), i) && Committed(s, i)
    ensures Leads(cfg, NoResetOf(i), Step(cfg, s, At(i, Agent)), t) && Base(t) && |t.nodes| == |s.nodes|
    ensures After(t.nodes[i]) && Danger(t.agents[i])
  {
    var p := NoResetOf(i);
    var o := Step(cfg, s, At(i, Agent));
    BaseStep(cfg, s, At(i, Agent));
    LeadsHere(cfg, p, o);
    assert Labelled(s.nodes[i]);
    t := FinishStart(cfg, p, o, o, i);
    t := ToGrant(cfg, p, o, t, i);
    t := ToUpdated(cfg, p, o, t, i);
    t := Mislabelled(cfg, o, t, i);
  }

  /** And then by the release of that node: its agent drains it, and nobody
      counts it. */
  lemma ResetLosesPermission(cfg: Config, s: State, i: nat) returns (t: State)
    requires Base(s) && Resets(s, At(i, Agent), i) && Committed(s, i)
    ensures Leads(cfg, NoResetOf(i), Step(cfg, s, At(i, Agent)), t) && Base(t) && |t.nodes| == |s.nodes|
    ensures Danger(t.agents[i]) && !InFlight(t.nodes[i])
  {
    var p := NoResetOf(i);
    var o := Step(cfg, s, At(i, Agent));
    t := ResetLosesIdleness(cfg, s, i);
    t := ToReleaseLabelled(cfg, p, o, t, i);
    t := ToUpdated(cfg, p, o, t, i);
  }

  // ---------------------------------------------------------------------
  // CalmReset and CalmPause

  /** A node reset or paused while the operator is committed to it can still be
      granted in that pass, with nothing but its checks written meanwhile. */
  lemma LostWishIsGranted(cfg: Config, s: State, i: nat, e: Event) returns (t: State)
    requires Base(s) && Committed(s, i) && (e == Pause(True) || Resets(s, At(i, e), i))
    ensures Leads(cfg, ChecksOnly(i), Step(cfg, s, At(i, e)), t)
    ensures Grants(t, Update, i) && !Wants(t.nodes[i]) && (e.Pause? ==> t.nodes[i].rebootPaused == True)
  {
    var o := Step(cfg, s, At(i, e));
    BaseStep(cfg, s, At(i, e));
    LeadsHere(cfg, ChecksOnly(i), o);
    t := ToGrant(cfg, ChecksOnly(i), o, o, i);
  }

  // ---------------------------------------------------------------------
  // CalmCount

  predicate Seen(n: Node) {
    StillRebooting(n) || Before(n) || After(n)
  }

  lemma {:induction false} CountLess(xs: seq<Node>, p: Node -> bool, q: Node -> bool, i: nat)
    requires forall j :: 0 <= j < |xs| && p(xs[j]) ==> q(xs[j])
    requires i < |xs| && q(xs[i]) && !p(xs[i])
    ensures Count(xs, p) < Count(xs, q)
  {
    var k := |xs| - 1;
    if i < k {
      CountLess(xs[..k], p, q, i);
    } else {
      CountLe(xs[..k], p, xs[..k], q);
    }
  }

  /** The three lists miss a permitted node that is back and not labelled. */
  lemma MissedOne(cfg: Config, s: State, i: nat)
    requires Safe(cfg, s) && i < |s.nodes| && JustRebooted(s.nodes[i]) && !After(s.nodes[i])
    ensures Busy(s.nodes) < Count(s.nodes, InFlight)
  {
    forall j: nat | j < |s.nodes|
      ensures Labelled(s.nodes[j]) && (After(s.nodes[j]) ==> !Needed(s.nodes[j]))
    {
      assert Kept(s, j);
    }
    CountCover(s.nodes, Seen, StillRebooting, Before, After);
    CountLess(s.nodes, Seen, InFlight, i);
  }

  lemma SafeThere(cfg: Config, s: State, t: State, i: nat)
    requires Safe(cfg, s) && Leads(cfg, ChecksOnly(i), s, t)
    ensures Safe(cfg, t)
  {
    var ls :| Led(cfg, ChecksOnly(i), s, ls, t);
    AlwaysWeaken(cfg, s, ls, ChecksOnly(i), CalmReset);
    SafeRun(cfg, s, ls);
  }

  /** From between the two lists the operator gets to the second without having
      dealt with node i. */
  lemma {:induction false} ToCount(cfg: Config, o: State, s: State, i: nat) returns (t: State)
    requires Leads(cfg, ChecksOnly(i), o, s) && Base(s) && i < |s.nodes| && Counting(s.op)
    requires JustRebooted(s.nodes[i]) && !InWork(s.op, MarkAfterReboot, i)
    ensures Leads(cfg, ChecksOnly(i), o, t) && SameAt(s, t, i) && t.op == ToList(MarkBeforeReboot)
    decreases Ahead(s.op.phase), s.op.ToList?, s.op.phase.CheckBeforeReboot?
  {
    var p := ChecksOnly(i);
    assert Labelled(s.nodes[i]);
    if s.op == ToList(MarkBeforeReboot) {
      t := s;
    } else if s.op.ToList? {
      t := PastPhase(cfg, p, o, s, i);
    } else {
      assert forall j :: 0 <= j < |s.op.work| ==> Awaits(s.op.phase, s.nodes[s.op.work[j]]);
      t := ToNext(cfg, p, o, s, i);
      if s.op.phase.MarkAfterReboot? {
        t := ToCount(cfg, o, t, i);
      }
    }
  }

  /** A permitted node that comes back between the two lists can go uncounted. */
  lemma ComebackIsMiscounted(cfg: Config, s: State, i: nat) returns (t: State)
    requires Safe(cfg, s) && Resets(s, At(i, Agent), i) && StillRebooting(s.nodes[i]) && Counting(s.op)
    ensures Leads(cfg, ChecksOnly(i), Step(cfg, s, At(i, Agent)), t)
    ensures t.op == ToList(MarkBeforeReboot) && Busy(t.nodes) < Count(t.nodes, InFlight)
  {
    var o := Step(cfg, s, At(i, Agent));
    assert Kept(s, i) && Labelled(s.nodes[i]);
    SafeStep(cfg, s, At(i, Agent));
    LeadsHere(cfg, ChecksOnly(i), o);
    t := ToCount(cfg, o, o, i);
    SafeThere(cfg, o, t, i);
    MissedOne(cfg, t, i);
  }

  /** And when the nodes in flight are max already, and some node wants a reboot,
      the next list and label take them over the limit. */
  lemma MiscountGoesOver(cfg: Config, s: State, i: nat, j: nat)
    requires Safe(cfg, s) && s.op == ToList(MarkBeforeReboot) && Count(s.nodes, InFlight) == cfg.max
    requires i < |s.nodes| && JustRebooted(s.nodes[i]) && !After(s.nodes[i])
    requires j < |s.nodes| && Rebootable(s.nodes[j])
    ensures Count(Step(cfg, Step(cfg, s, List(true)), Update).nodes, InFlight) > cfg.max
  {
    MissedOne(cfg, s, i);
    IdsExact(s.nodes, Rebootable);
    assert j in Ids(s.nodes, Rebootable);
    var u := Step(cfg, s, List(true));
    BaseStep(cfg, s, List(true));
    SelectExact(cfg, MarkBeforeReboot, true, s.nodes);
    assert u.op.work != [];
    UpdateOne(cfg, u);
    CountUpdate(u.nodes, u.op.work[0], MarkBefore(cfg, u.nodes[u.op.work[0]]), InFlight);
  }

  // ---------------------------------------------------------------------
  // CalmCordon

  function NoCordonOf(i: nat): (State, Label) -> bool {
    (s: State, l: Label) => !(l.At? && l.i == i && l.e.SetCordon?)
  }

  /** Agent i starts over and resets its node. */
  lemma StartOver(cfg: Config, o: State, s: State, i: nat) returns (t: State)
    requires Leads(cfg, NoCordonOf(i), o, s) && Base(s) && i < |s.nodes| && s.nodes[i].madeUnschedulable == True
    ensures Leads(cfg, NoCordonOf(i), o, t) && Base(t) && |t.nodes| == |s.nodes|
    ensures t.nodes[i] == ResetNode(s.nodes[i]) && t.agents[i] == WaitNotOk(true)
  {
    var p := NoCordonOf(i);
    t := ToEvent(cfg, p, o, s, i, Crash);
    t := ToEvent(cfg, p, o, t, i, Agent);
    t := ToEvent(cfg, p, o, t, i, Agent);
  }

  /** Whatever mark the agent has set, it can come to lift the cordon. */
  lemma MarkIsUndone(cfg: Config, o: State, s: State, i: nat) returns (t: State)
    requires Leads(cfg, NoCordonOf(i), o, s) && Base(s) && i < |s.nodes| && s.nodes[i].madeUnschedulable == True
    ensures Leads(cfg, NoCordonOf(i), o, t) && Base(t) && |t.nodes| == |s.nodes|
    ensures t.agents[i] == WaitOk && !t.nodes[i].unschedulable
  {
    var p := NoCordonOf(i);
    t := StartOver(cfg, o, s, i);
    if Ok(t.nodes[i]) {
      t := ToRelease(cfg, p, o, t, i);
      t := ToUpdated(cfg, p, o, t, i);
    }
    t := FinishStart(cfg, p, o, t, i);
  }

  /** A cordon the administrator sets against CalmCordon can be gone when the
      agent waits for permission, without his having touched it again. */
  lemma CordonIsUndone(cfg: Config, s: State, i: nat, e: Event) returns (t: State)
    requires Base(s) && i < |s.nodes| && !CalmCordon(s.nodes[i], s.agents[i], e)
    ensures e == SetCordon(true)
    ensures Leads(cfg, NoCordonOf(i), Step(cfg, s, At(i, e)), t) && Base(t) && |t.nodes| == |s.nodes|
    ensures t.agents[i] == WaitOk && !t.nodes[i].unschedulable
  {
    var o := Step(cfg, s, At(i, e));
    BaseStep(cfg, s, At(i, e));
    LeadsHere(cfg, NoCordonOf(i), o);
    t := o;
    if t.nodes[i].madeUnschedulable != True {
      t := ToEvent(cfg, NoCordonOf(i), o, o, i, Agent);
    }
    t := MarkIsUndone(cfg, o, t, i);
  }

  // ---------------------------------------------------------------------
  // Timely

  /** A permitted node whose agent is starting up can come to be released without
      a reboot. */
  lemma ToUnearnedRelease(cfg: Config, o: State, s: State, i: nat) returns (t: State)
    requires Leads(cfg, NoRebootOf(i), o, s) && Base(s) && i < |s.nodes| && Ok(s.nodes[i])
    requires s.agents[i].Boot? || s.agents[i].Reset?
    ensures Leads(cfg, NoRebootOf(i), o, t) && Releases(t, Update, i)
  {
    var p := NoRebootOf(i);
    t := s;
    if s.agents[i].Boot? {
      t := ToEvent(cfg, p, o, t, i, Agent);
    }
    t := ToEvent(cfg, p, o, t, i, Agent);
    t := ToRelease(cfg, p, o, t, i);
  }

  /** An untimely step can be followed by a release with no reboot in between. */
  lemma UntimelyIsReleased(cfg: Config, s: State, l: Label, i: nat) returns (t: State)
    requires Base(s) && Kept(s, i) && !Timely(s, l, i)
    ensures Leads(cfg, NoRebootOf(i), Step(cfg, s, l), t) && Releases(t, Update, i)
  {
    var o := Step(cfg, s, l);
    BaseStep(cfg, s, l);
    LeadsHere(cfg, NoRebootOf(i), o);
    if l.Update? {
      UpdateOne(cfg, s);
    }
    t := ToUnearnedRelease(cfg, o, o, i);
  }
}
