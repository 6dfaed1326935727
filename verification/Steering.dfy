/** How a run can be steered: from a state of any cluster to the grant, the
    label or the release of one node. */
module Steering {
  import opened Nodes
  import opened Passes
  import opened Protocol
  import opened Safety
  import opened Refinement

  /** A run of steps that satisfy p leads from s to t. */
  ghost predicate Leads(cfg: Config, p: (State, Label) -> bool, s: State, t: State) {
    exists ls :: Led(cfg, p, s, ls, t)
  }

  ghost predicate Led(cfg: Config, p: (State, Label) -> bool, s: State, ls: seq<Label>, t: State) {
    Exec(cfg, s, ls) == t && Always(cfg, s, ls, p)
  }

  lemma LeadsHere(cfg: Config, p: (State, Label) -> bool, s: State)
    ensures Leads(cfg, p, s, s)
  {
    assert Led(cfg, p, s, [], s);
  }

  /** One more step at the end. */
  lemma LeadsThen(cfg: Config, p: (State, Label) -> bool, o: State, s: State, l: Label) returns (t: State)
    requires Leads(cfg, p, o, s) && p(s, l)
    ensures t == Step(cfg, s, l) && Leads(cfg, p, o, t)
  {
    t := Step(cfg, s, l);
    var ls :| Led(cfg, p, o, ls, s);
    var more := ls + [l];
    assert more[..|more| - 1] == ls;
    assert Led(cfg, p, o, more, t);
  }

  /** Something happens at node i. */
  lemma ToEvent(cfg: Config, p: (State, Label) -> bool, o: State, s: State, i: nat, e: Event) returns (t: State)
    requires Leads(cfg, p, o, s) && Base(s) && i < |s.nodes| && p(s, At(i, e))
    ensures Leads(cfg, p, o, t) && Base(t) && |t.nodes| == |s.nodes| && t.op == s.op
    ensures (t.nodes[i], t.agents[i]) == Local(s.nodes[i], s.agents[i], e)
  {
    BaseStep(cfg, s, At(i, e));
    t := LeadsThen(cfg, p, o, s, At(i, e));
  }

  /** The operator makes the update of node i whose turn it is. */
  lemma ToUpdated(cfg: Config, p: (State, Label) -> bool, o: State, s: State, i: nat) returns (t: State)
    requires Leads(cfg, p, o, s) && Base(s) && p(s, Update) && s.op.Updating? && Updates(s, Update, s.op.phase, i)
    ensures Leads(cfg, p, o, t) && Base(t) && |t.nodes| == |s.nodes| && t.agents == s.agents
    ensures t.nodes[i] == Apply(cfg, s.op.phase, s.nodes[i])
    ensures t.op == Updating(s.op.phase, s.op.work[1..]) && i !in s.op.work[1..]
    ensures Labelled(s.nodes[i]) && Awaits(s.op.phase, s.nodes[i])
  {
    UpdateOne(cfg, s);
    BaseStep(cfg, s, Update);
    t := LeadsThen(cfg, p, o, s, Update);
  }

  /** p leaves the operator and the checks of node i free. */
  ghost predicate Allows(p: (State, Label) -> bool, i: nat) {
    forall s: State, l: Label :: !l.At? || (l.i == i && l.e.WriteCheck?) ==> p(s, l)
  }

  /** Node i and its agent are as they were. */
  predicate SameAt(s: State, t: State, i: nat) {
    && Base(s) && Base(t) && i < |s.nodes| == |t.nodes|
    && t.nodes[i] == s.nodes[i] && t.agents[i] == s.agents[i]
  }

  /** The operator comes to the update of node i. */
  lemma {:induction false} ToTurn(cfg: Config, p: (State, Label) -> bool, o: State, s: State, i: nat) returns (t: State)
    requires Leads(cfg, p, o, s) && Base(s) && Allows(p, i) && s.op.Updating? && i in s.op.work
    ensures Leads(cfg, p, o, t) && SameAt(s, t, i) && Updates(t, Update, s.op.phase, i)
    decreases if s.op.Updating? then |s.op.work| else 0
  {
    if s.op.work[0] == i {
      t := s;
    } else {
      assert s.op.work == [s.op.work[0]] + s.op.work[1..];
      var u := LeadsThen(cfg, p, o, s, Update);
      BaseStep(cfg, s, Update);
      t := ToTurn(cfg, p, o, u, i);
    }
  }

  /** The operator ends a phase in which node i has no turn any more. */
  lemma {:induction false} ToNext(cfg: Config, p: (State, Label) -> bool, o: State, s: State, i: nat) returns (t: State)
    requires Leads(cfg, p, o, s) && Base(s) && Allows(p, i) && i < |s.nodes| && s.op.Updating? && i !in s.op.work
    ensures Leads(cfg, p, o, t) && SameAt(s, t, i) && t.op == ToList(Following(s.op.phase))
    decreases if s.op.Updating? then |s.op.work| else 0
  {
    if s.op.work == [] {
      t := LeadsThen(cfg, p, o, s, Advance);
    } else {
      assert s.op.work[0] in s.op.work;
      var u := LeadsThen(cfg, p, o, s, Update);
      BaseStep(cfg, s, Update);
      t := ToNext(cfg, p, o, u, i);
    }
  }

  /** The operator lists, and comes to the update of node i, which is due. */
  lemma ToUpdate(cfg: Config, p: (State, Label) -> bool, o: State, s: State, i: nat) returns (t: State)
    requires Leads(cfg, p, o, s) && Base(s) && Allows(p, i) && s.op.ToList? && !s.op.phase.MarkBeforeReboot?
    requires i < |s.nodes| && Due(cfg, s.op.phase, s.nodes[i])
    ensures Leads(cfg, p, o, t) && SameAt(s, t, i) && Updates(t, Update, s.op.phase, i)
  {
    var u := LeadsThen(cfg, p, o, s, List(false));
    BaseStep(cfg, s, List(false));
    SelectExact(cfg, s.op.phase, false, s.nodes);
    t := ToTurn(cfg, p, o, u, i);
  }

  /** A whole phase but the last, as it shows at node i. */
  lemma PastPhase(cfg: Config, p: (State, Label) -> bool, o: State, s: State, i: nat) returns (t: State)
    requires Leads(cfg, p, o, s) && Base(s) && Allows(p, i) && s.op.ToList? && !s.op.phase.MarkBeforeReboot? && i < |s.nodes|
    ensures Leads(cfg, p, o, t) && Base(t) && |t.nodes| == |s.nodes|
    ensures t.nodes[i] == Once(cfg, s.op.phase, s.nodes[i]) && t.agents[i] == s.agents[i]
    ensures t.op == ToList(Following(s.op.phase))
  {
    var u;
    if Due(cfg, s.op.phase, s.nodes[i]) {
      u := ToUpdate(cfg, p, o, s, i);
      u := ToUpdated(cfg, p, o, u, i);
    } else {
      u := LeadsThen(cfg, p, o, s, List(false));
      BaseStep(cfg, s, List(false));
      SelectExact(cfg, s.op.phase, false, s.nodes);
    }
    t := ToNext(cfg, p, o, u, i);
  }

  /** The operator starts over; node i needs no cleaning up. */
  lemma Again(cfg: Config, p: (State, Label) -> bool, o: State, s: State, i: nat) returns (t: State)
    requires Leads(cfg, p, o, s) && Base(s) && Allows(p, i) && i < |s.nodes| && s.nodes[i].beforeReboot == Absent
    ensures Leads(cfg, p, o, t) && SameAt(s, t, i) && t.op == ToList(CheckAfterReboot)
  {
    var u := LeadsThen(cfg, p, o, s, Abort);
    t := PastPhase(cfg, p, o, u, i);
  }

  /** All the named checks of node i are written true. */
  lemma {:induction false} WriteAll(cfg: Config, p: (State, Label) -> bool, o: State, s: State, i: nat, names: seq<string>)
    returns (t: State)
    requires Leads(cfg, p, o, s) && Base(s) && Allows(p, i) && i < |s.nodes|
    ensures Leads(cfg, p, o, t) && Base(t) && t.op == s.op && |t.nodes| == |s.nodes|
    ensures t.nodes[i] == s.nodes[i].(checks := t.nodes[i].checks) && t.agents[i] == s.agents[i]
    ensures HasAll(t.nodes[i], names)
  {
    if names == [] {
      t := s;
    } else {
      var k := |names| - 1;
      var u := WriteAll(cfg, p, o, s, i, names[..k]);
      t := ToEvent(cfg, p, o, u, i, WriteCheck(names[k], True));
      assert names == names[..k] + [names[k]];
    }
  }

  // ---------------------------------------------------------------------
  // To the grant

  /** Phases to go before checkBeforeReboot. */
  function Ahead(p: Phase): nat {
    match p
    case CleanupState => 3
    case CheckAfterReboot => 2
    case MarkAfterReboot => 1
    case _ => 0
  }

  lemma {:induction false} ToGrantChecked(cfg: Config, p: (State, Label) -> bool, o: State, s: State, i: nat)
    returns (t: State)
    requires Leads(cfg, p, o, s) && Base(s) && Allows(p, i) && Committed(s, i) && HasAll(s.nodes[i], cfg.before)
    ensures Leads(cfg, p, o, t) && SameAt(s, t, i) && Grants(t, Update, i)
    decreases Ahead(s.op.phase)
  {
    if s.op.phase.CheckBeforeReboot? {
      if s.op.Updating? {
        t := ToTurn(cfg, p, o, s, i);
      } else {
        t := ToUpdate(cfg, p, o, s, i);
      }
    } else {
      var u;
      if s.op.Updating? {
        assert forall j :: 0 <= j < |s.op.work| ==> Awaits(s.op.phase, s.nodes[s.op.work[j]]);
        u := ToNext(cfg, p, o, s, i);
      } else {
        u := PastPhase(cfg, p, o, s, i);
      }
      t := ToGrantChecked(cfg, p, o, u, i);
    }
  }

  /** A node the operator is committed to can come to be granted in this pass,
      whatever its wish, with nothing but its checks written meanwhile. */
  lemma ToGrant(cfg: Config, p: (State, Label) -> bool, o: State, s: State, i: nat) returns (t: State)
    requires Leads(cfg, p, o, s) && Base(s) && Allows(p, i) && Committed(s, i)
    ensures Leads(cfg, p, o, t) && Base(t) && |t.nodes| == |s.nodes| && Grants(t, Update, i)
    ensures t.nodes[i] == s.nodes[i].(checks := t.nodes[i].checks) && t.agents[i] == s.agents[i]
  {
    var u := WriteAll(cfg, p, o, s, i, cfg.before);
    t := ToGrantChecked(cfg, p, o, u, i);
  }

  // ---------------------------------------------------------------------
  // To the release

  /** An after-labelled node can come to be released. */
  lemma ToReleaseLabelled(cfg: Config, p: (State, Label) -> bool, o: State, s: State, i: nat) returns (t: State)
    requires Leads(cfg, p, o, s) && Base(s) && Allows(p, i) && i < |s.nodes| && After(s.nodes[i])
    ensures Leads(cfg, p, o, t) && Base(t) && |t.nodes| == |s.nodes| && Updates(t, Update, CheckAfterReboot, i)
    ensures t.nodes[i] == s.nodes[i].(checks := t.nodes[i].checks) && t.agents[i] == s.agents[i]
  {
    var u := WriteAll(cfg, p, o, s, i, cfg.after);
    assert Labelled(u.nodes[i]);
    var v := Again(cfg, p, o, u, i);
    t := ToUpdate(cfg, p, o, v, i);
  }

  /** So can a permitted node that has been reset. */
  lemma ToRelease(cfg: Config, p: (State, Label) -> bool, o: State, s: State, i: nat) returns (t: State)
    requires Leads(cfg, p, o, s) && Base(s) && Allows(p, i) && i < |s.nodes| && JustRebooted(s.nodes[i])
    ensures Leads(cfg, p, o, t) && Base(t) && |t.nodes| == |s.nodes| && Updates(t, Update, CheckAfterReboot, i)
    ensures t.nodes[i] == s.nodes[i].(checks := t.nodes[i].checks, afterReboot := True) && t.agents[i] == s.agents[i]
  {
    assert Labelled(s.nodes[i]);
    if After(s.nodes[i]) {
      t := ToReleaseLabelled(cfg, p, o, s, i);
    } else {
      var u := Again(cfg, p, o, s, i);
      var v := PastPhase(cfg, p, o, u, i);
      var w := PastPhase(cfg, p, o, v, i);
      t := ToReleaseLabelled(cfg, p, o, w, i);
    }
  }
}
