/** What an agent does over several calls, and what everybody may write. */
module Agents {
  import opened Nodes
  import opened Protocol

  function AgentCalls(n: Node, pc: Pc, k: nat): (Node, Pc)
    decreases k
  {
    if k == 0 then (n, pc) else var (m, pc') := AgentCall(n, pc); AgentCalls(m, pc', k - 1)
  }

  /** A start with permission withdrawn: three calls, or five if there is a cordon
      to lift. The request is taken back, and the agent's cordon and mark with it. */
  lemma StartupExact(n: Node)
    requires n.rebootOk != True
    ensures var m := n.(rebootNeeded := False, rebootInProgress := False, neededLabel := False);
      && (n.madeUnschedulable != True ==> AgentCalls(n, Boot, 3) == (m, WaitOk))
      && (n.madeUnschedulable == True ==>
           AgentCalls(n, Boot, 5) == (m.(unschedulable := false, madeUnschedulable := False), WaitOk))
  {
  }

  /** A reboot: five calls, or six if the agent has to cordon. The node is drained
      by the last call before the reboot; it is cordoned then, marked as in
      progress, and marked as the agent's only if it was the agent's doing. */
  lemma RebootExact(n: Node)
    requires n.rebootOk == True && n.rebootNeeded == True
    ensures n.unschedulable ==>
      var m := n.(rebootInProgress := True);
      && AgentCalls(n, WaitOk, 3) == (m, Drain)
      && AgentCalls(n, WaitOk, 4) == (m, Rebooting)
      && AgentCalls(n, WaitOk, 5) == (m, Boot)
    ensures !n.unschedulable ==>
      var m := n.(rebootInProgress := True, unschedulable := true, madeUnschedulable := True);
      && AgentCalls(n, WaitOk, 4) == (m, Drain)
      && AgentCalls(n, WaitOk, 5) == (m, Rebooting)
      && AgentCalls(n, WaitOk, 6) == (m, Boot)
  {
  }

  /** A waiting agent writes nothing and stays, however often it looks, exactly
      until it sees what it waits for. */
  lemma {:induction false} WaitsExact(n: Node, ms: bool, k: nat)
    ensures n.rebootOk == True ==> AgentCalls(n, WaitNotOk(ms), k) == (n, WaitNotOk(ms))
    ensures !(n.rebootOk == True && n.rebootNeeded == True) ==> AgentCalls(n, WaitOk, k) == (n, WaitOk)
    ensures n.rebootOk != True ==> !AgentCall(n, WaitNotOk(ms)).1.WaitNotOk?
    ensures n.rebootOk == True && n.rebootNeeded == True ==> !AgentCall(n, WaitOk).1.WaitOk?
  {
    if k > 0 {
      WaitsExact(n, ms, k - 1);
    }
  }

  /** What each event may write. The agent leaves alone what the operator, the
      checks, the administrator's pause and the status callback write. */
  lemma EventWrites(n: Node, pc: Pc, e: Event)
    ensures var (m, next) := Local(n, pc, e);
      match e
      case Agent =>
        m == n.(rebootNeeded := m.rebootNeeded, rebootInProgress := m.rebootInProgress, neededLabel := m.neededLabel,
                madeUnschedulable := m.madeUnschedulable, unschedulable := m.unschedulable)
      case Crash => m == n && next == Boot
      case Signal(st) =>
        && next == pc && (!Watching(pc) ==> m == n)
        && (Watching(pc) ==>
             m.status == Text(st.operation) && m.lastChecked == Text(st.lastChecked) && m.newVersion == Text(st.newVersion))
        && (Watching(pc) && st.operation == "UPDATE_STATUS_UPDATED_NEED_REBOOT" ==>
             m.rebootNeeded == True && m.neededLabel == True)
        && m == n.(status := m.status, lastChecked := m.lastChecked, newVersion := m.newVersion,
                   rebootNeeded := m.rebootNeeded, neededLabel := m.neededLabel)
        && (st.operation != "UPDATE_STATUS_UPDATED_NEED_REBOOT" ==>
             m.rebootNeeded == n.rebootNeeded && m.neededLabel == n.neededLabel)
      case Pause(v) => next == pc && m == n.(rebootPaused := v)
      case SetCordon(on) => next == pc && m == n.(unschedulable := on)
      case WriteCheck(name, v) =>
        && next == pc && m == n.(checks := m.checks)
        && name in m.checks && m.checks[name] == v
        && (forall k :: k != name ==> (k in m.checks <==> k in n.checks) && (k in n.checks ==> m.checks[k] == n.checks[k]))
      case DeleteCheck(name) =>
        && next == pc && m == n.(checks := m.checks)
        && name !in m.checks
        && (forall k :: k != name ==> (k in m.checks <==> k in n.checks) && (k in n.checks ==> m.checks[k] == n.checks[k]))
  {
  }
}
