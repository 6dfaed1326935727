/** The before-reboot and after-reboot checks open only on annotations written
    during the current cycle. */
module Gates {
  import opened Nodes
  import opened Passes
  import opened Protocol
  import opened Safety

  datatype Gate = BeforeGate | AfterGate

  predicate Shut(g: Gate, n: Node) {
    if g.BeforeGate? then Before(n) else After(n)
  }

  function Required(cfg: Config, g: Gate): seq<string> {
    if g.BeforeGate? then cfg.before else cfg.after
  }

  /** The phase that puts the label on, and the one that takes it off for good. */
  function Closing(g: Gate): Phase {
    if g.BeforeGate? then MarkBeforeReboot else MarkAfterReboot
  }

  function Opening(g: Gate): Phase {
    if g.BeforeGate? then CheckBeforeReboot else CheckAfterReboot
  }

  datatype Since = NoLabel | Written(names: set<string>)

  function NextSince(cfg: Config, g: Gate, s: State, l: Label, prev: Since, i: nat): Since {
    var t := Step(cfg, s, l);
    if i >= |t.nodes| || !Shut(g, t.nodes[i]) then NoLabel
    else if Updates(s, l, Closing(g), i) then Written({})
    else if l.At? && l.i == i && l.e.WriteCheck? && l.e.value == True && prev.Written? then
      Written(prev.names + {l.e.name})
    else prev
  }

  /** The annotations written true on node i since the label it now carries was
      put on in this run. */
  function WrittenSince(cfg: Config, g: Gate, s: State, ls: seq<Label>, i: nat): Since {
    if ls == [] then NoLabel
    else
      var k := |ls| - 1;
      NextSince(cfg, g, Exec(cfg, s, ls[..k]), ls[k], WrittenSince(cfg, g, s, ls[..k], i), i)
  }

  /** Every required annotation that reads true was written true. */
  predicate Witnessed(required: seq<string>, n: Node, names: set<string>) {
    forall k :: k in required && k in n.checks && n.checks[k] == True ==> k in names
  }

  predicate AllIn(required: seq<string>, names: set<string>) {
    forall k :: k in required ==> k in names
  }

  predicate GateKept(cfg: Config, g: Gate, s: State, since: Since, i: nat)
    requires i < |s.nodes|
  {
    Shut(g, s.nodes[i]) ==>
      && since.Written?
      && Witnessed(Required(cfg, g), s.nodes[i], since.names)
      && (InWork(s.op, Opening(g), i) ==> AllIn(Required(cfg, g), since.names))
  }

  lemma GateList(cfg: Config, g: Gate, s: State, w: bool, since: Since, i: nat)
    requires Base(s) && i < |s.nodes| && GateKept(cfg, g, s, since, i)
    ensures GateKept(cfg, g, Step(cfg, s, List(w)), NextSince(cfg, g, s, List(w), since, i), i)
  {
    if s.op.ToList? {
      SelectExact(cfg, s.op.phase, w, s.nodes);
    }
  }

  /** No update of the operator writes a check, and putting a label on removes
      the checks it will wait for. */
  lemma ApplyWitnessed(cfg: Config, p: Phase, g: Gate, n: Node, names: set<string>)
    ensures Witnessed(Required(cfg, g), n, names) ==> Witnessed(Required(cfg, g), Apply(cfg, p, n), names)
    ensures p == Closing(g) ==> Witnessed(Required(cfg, g), Apply(cfg, p, n), {})
  {
  }

  lemma GateUpdate(cfg: Config, g: Gate, s: State, since: Since, i: nat)
    requires Base(s) && i < |s.nodes| && GateKept(cfg, g, s, since, i)
    requires s.op.Updating? && s.op.work != []
    ensures GateKept(cfg, g, Step(cfg, s, Update), NextSince(cfg, g, s, Update, since, i), i)
  {
    var j := s.op.work[0];
    assert s.op.work == [j] + s.op.work[1..];
    if j == i && since.Written? {
      ApplyWitnessed(cfg, s.op.phase, g, s.nodes[i], since.names);
    } else if j == i {
      ApplyWitnessed(cfg, s.op.phase, g, s.nodes[i], {});
    }
  }

  lemma LocalWitnessed(required: seq<string>, n: Node, pc: Pc, e: Event, names: set<string>)
    requires Witnessed(required, n, names)
    ensures Witnessed(required, Local(n, pc, e).0,
                      if e.WriteCheck? && e.value == True then names + {e.name} else names)
  {
  }

  lemma GateAt(cfg: Config, g: Gate, s: State, j: nat, e: Event, since: Since, i: nat)
    requires Base(s) && i < |s.nodes| && j < |s.nodes| && GateKept(cfg, g, s, since, i)
    ensures GateKept(cfg, g, Step(cfg, s, At(j, e)), NextSince(cfg, g, s, At(j, e), since, i), i)
  {
    LocalFrame(s.nodes[j], s.agents[j], e);
    if j == i && Shut(g, s.nodes[i]) {
      LocalWitnessed(Required(cfg, g), s.nodes[i], s.agents[i], e, since.names);
    }
  }

  lemma GateStep(cfg: Config, g: Gate, s: State, l: Label, since: Since, i: nat)
    requires Base(s) && i < |s.nodes| && GateKept(cfg, g, s, since, i)
    ensures |Step(cfg, s, l).nodes| == |s.nodes|
    ensures GateKept(cfg, g, Step(cfg, s, l), NextSince(cfg, g, s, l, since, i), i)
  {
    match l
    case List(w) => GateList(cfg, g, s, w, since, i);
    case Update => if s.op.Updating? && s.op.work != [] { GateUpdate(cfg, g, s, since, i); }
    case At(j, e) => if j < |s.nodes| { GateAt(cfg, g, s, j, e, since, i); }
    case _ =>
  }

  lemma {:induction false} GateRun(cfg: Config, g: Gate, s: State, ls: seq<Label>, i: nat)
    requires Base(s) && i < |s.nodes| && !Shut(g, s.nodes[i])
    ensures |Exec(cfg, s, ls).nodes| == |s.nodes|
    ensures GateKept(cfg, g, Exec(cfg, s, ls), WrittenSince(cfg, g, s, ls, i), i)
  {
    if ls != [] {
      var k := |ls| - 1;
      GateRun(cfg, g, s, ls[..k], i);
      BaseRun(cfg, s, ls[..k]);
      GateStep(cfg, g, Exec(cfg, s, ls[..k]), ls[k], WrittenSince(cfg, g, s, ls[..k], i), i);
    }
  }

  /** Permission is given, or withdrawn, only if each configured annotation was
      written true after the label of this cycle was put on. */
  lemma GatesOpenFresh(cfg: Config, g: Gate, s: State, ls: seq<Label>, l: Label, i: nat)
    requires Fresh(s)
    requires Updates(Exec(cfg, s, ls), l, Opening(g), i)
    ensures var since := WrittenSince(cfg, g, s, ls, i);
      since.Written? && AllIn(Required(cfg, g), since.names)
  {
    var t := Exec(cfg, s, ls);
    BaseRun(cfg, s, ls);
    GateRun(cfg, g, s, ls, i);
    assert t.op.work[0] in t.op.work && Awaits(t.op.phase, t.nodes[t.op.work[0]]);
  }

  /** And nothing else turns reboot-ok true, or true into anything else, which
      is then false. */
  lemma OkChangesAtGates(cfg: Config, s: State, l: Label, i: nat)
    requires i < |s.nodes|
    ensures var t := Step(cfg, s, l);
      && |t.nodes| == |s.nodes|
      && (Ok(t.nodes[i]) && !Ok(s.nodes[i]) ==> Grants(s, l, i))
      && (!Ok(t.nodes[i]) && Ok(s.nodes[i]) ==>
           Updates(s, l, CheckAfterReboot, i) && t.nodes[i].rebootOk == False)
  {
  }

  /** A label leaves a node together with the checks it waited for. */
  lemma ChecksGoWithLabel(cfg: Config, g: Gate, s: State, l: Label, i: nat)
    requires Base(s) && i < |s.nodes| && Shut(g, s.nodes[i])
    ensures var t := Step(cfg, s, l);
      Shut(g, t.nodes[i]) || forall k :: k in Required(cfg, g) ==> k !in t.nodes[i].checks
  {
    if l.At? && l.i < |s.nodes| {
      LocalFrame(s.nodes[l.i], s.agents[l.i], l.e);
    } else if l.Update? && s.op.Updating? && s.op.work != [] {
      assert Awaits(s.op.phase, s.nodes[s.op.work[0]]);
    }
  }
}
