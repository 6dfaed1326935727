/** One drain for each grant, for every interleaving and with no side condition. */
module Permits {
  import opened Nodes
  import opened Protocol
  import opened Gates

  /** How often the operator has granted node i its reboot. */
  function GrantCount(cfg: Config, s: State, ls: seq<Label>, i: nat): nat {
    if ls == [] then 0
    else
      var k := |ls| - 1;
      GrantCount(cfg, s, ls[..k], i) + (if Grants(Exec(cfg, s, ls[..k]), ls[k], i) then 1 else 0)
  }

  /** For each drain node i set out on, the number of the latest grant by then. */
  function Tickets(cfg: Config, s: State, ls: seq<Label>, i: nat): seq<nat> {
    if ls == [] then []
    else
      var k := |ls| - 1;
      Tickets(cfg, s, ls[..k], i)
      + (if EntersDrain(Exec(cfg, s, ls[..k]), ls[k], i) then [GrantCount(cfg, s, ls[..k], i)] else [])
  }

  /** The highest ticket used so far. */
  function Spent(tickets: seq<nat>): nat {
    if tickets == [] then 0 else tickets[|tickets| - 1]
  }

  /** Past seeing permission withdrawn, and not yet draining. */
  predicate Waiting(pc: Pc) {
    pc.Uncordon? || pc.ClearMade? || pc.WaitOk?
  }

  /** An agent leaves its startup wait only while permission is withdrawn. */
  lemma WaitEndsWithdrawn(cfg: Config, s: State, l: Label, i: nat)
    requires |s.agents| == |s.nodes| && i < |s.nodes|
    ensures var t := Step(cfg, s, l);
      && |t.agents| == |t.nodes| == |s.nodes|
      && (Waiting(t.agents[i]) && !Waiting(s.agents[i]) ==> !Ok(t.nodes[i]))
  {
  }

  predicate Accounted(tickets: seq<nat>, grants: nat, s: State, i: nat) {
    && |s.agents| == |s.nodes| && i < |s.nodes|
    && (forall j, k :: 0 <= j < k < |tickets| ==> tickets[j] < tickets[k])
    && (forall j :: 0 <= j < |tickets| ==> 1 <= tickets[j] <= grants)
    && (Waiting(s.agents[i]) && Ok(s.nodes[i]) ==> Spent(tickets) < grants)
  }

  lemma AccountedStep(cfg: Config, s: State, l: Label, i: nat, tickets: seq<nat>, grants: nat)
    requires Accounted(tickets, grants, s, i)
    ensures Accounted(tickets + (if EntersDrain(s, l, i) then [grants] else []),
                      grants + (if Grants(s, l, i) then 1 else 0), Step(cfg, s, l), i)
  {
    OkChangesAtGates(cfg, s, l, i);
    WaitEndsWithdrawn(cfg, s, l, i);
    if EntersDrain(s, l, i) {
      assert forall j :: 0 <= j < |tickets| ==> tickets[j] <= Spent(tickets);
    }
  }

  /** The drains of a node use grants in strictly increasing order: no grant
      serves two drains, and no drain happens without one. */
  lemma {:induction false} OneDrainPerGrant(cfg: Config, s: State, ls: seq<Label>, i: nat)
    requires |s.agents| == |s.nodes| && i < |s.nodes| && Early(s.agents[i])
    ensures Accounted(Tickets(cfg, s, ls, i), GrantCount(cfg, s, ls, i), Exec(cfg, s, ls), i)
  {
    if ls != [] {
      var k := |ls| - 1;
      OneDrainPerGrant(cfg, s, ls[..k], i);
      AccountedStep(cfg, Exec(cfg, s, ls[..k]), ls[k], i, Tickets(cfg, s, ls[..k], i), GrantCount(cfg, s, ls[..k], i));
    }
  }

  /** Increasing numbers from 1 to n are at most n many. */
  lemma {:induction false} IncreasingFit(tickets: seq<nat>, n: nat)
    requires forall j, k :: 0 <= j < k < |tickets| ==> tickets[j] < tickets[k]
    requires forall j :: 0 <= j < |tickets| ==> 1 <= tickets[j] <= n
    ensures |tickets| <= n
  {
    if tickets != [] {
      var k := |tickets| - 1;
      IncreasingFit(tickets[..k], tickets[k] - 1);
    }
  }

  /** So a node is never drained more often than it was granted a reboot. */
  lemma DrainsBounded(cfg: Config, s: State, ls: seq<Label>, i: nat)
    requires |s.agents| == |s.nodes| && i < |s.nodes| && Early(s.agents[i])
    ensures |Tickets(cfg, s, ls, i)| <= GrantCount(cfg, s, ls, i)
  {
    OneDrainPerGrant(cfg, s, ls, i);
    IncreasingFit(Tickets(cfg, s, ls, i), GrantCount(cfg, s, ls, i));
  }
}
