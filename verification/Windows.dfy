/** Outside the reboot window nothing new is set in motion. */
module Windows {
  import opened Nodes
  import opened Protocol
  import opened Safety
  import opened Permits

  predicate OutsideWindow(s: State, l: Label) {
    l.List? ==> !l.inWindow
  }

  lemma ClosedStep(cfg: Config, s: State, l: Label, i: nat)
    requires Base(s) && Pending(s.op) == 0 && OutsideWindow(s, l) && i < |s.nodes|
    ensures var t := Step(cfg, s, l);
      Base(t) && Pending(t.op) == 0 && |t.nodes| == |s.nodes| && (InFlight(t.nodes[i]) ==> InFlight(s.nodes[i]))
  {
    BaseStep(cfg, s, l);
    if l.At? && l.i < |s.nodes| {
      LocalFrame(s.nodes[l.i], s.agents[l.i], l.e);
    } else if l.Update? && s.op.Updating? && s.op.work != [] {
      assert Awaits(s.op.phase, s.nodes[s.op.work[0]]);
    }
  }

  /** While no list falls inside the window, the set of nodes in flight only
      shrinks, and only a node in flight at the start can be drained. */
  lemma {:induction false} ClosedWindow(cfg: Config, s: State, ls: seq<Label>, i: nat)
    requires Base(s) && Pending(s.op) == 0 && i < |s.nodes|
    requires Always(cfg, s, ls, OutsideWindow)
    ensures var t := Exec(cfg, s, ls);
      Base(t) && Pending(t.op) == 0 && |t.nodes| == |s.nodes| && (InFlight(t.nodes[i]) ==> InFlight(s.nodes[i]))
    ensures Tickets(cfg, s, ls, i) != [] ==> InFlight(s.nodes[i])
  {
    if ls != [] {
      var k := |ls| - 1;
      ClosedWindow(cfg, s, ls[..k], i);
      ClosedStep(cfg, Exec(cfg, s, ls[..k]), ls[k], i);
    }
  }
}
