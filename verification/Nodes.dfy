/** Node objects as the API server stores them, the selectors the operator and
    the agent match on, and the closures that update one node. */
module Nodes {

  /** The value under one annotation or label key: no such key, one of the two
      constants, or any other string. */
  datatype Flag = Absent | True | False | Text(text: string)

  /** The protocol's annotations and labels (pkg/constants/constants.go), each
      under its own name, and every other annotation in checks. */
  datatype Node = Node(
    rebootNeeded: Flag,
    rebootInProgress: Flag,
    rebootOk: Flag,
    rebootPaused: Flag,
    madeUnschedulable: Flag,
    status: Flag,
    lastChecked: Flag,
    newVersion: Flag,
    neededLabel: Flag,
    beforeReboot: Flag,
    afterReboot: Flag,
    checks: map<string, Flag>,
    unschedulable: bool)

  /** The configured check annotations and the limit on rebooting nodes. A
      check annotation is never a protocol key: it names an entry of checks. */
  datatype Config = Config(before: seq<string>, after: seq<string>, max: nat)

  predicate Ok(n: Node) { n.rebootOk == True }
  predicate Needed(n: Node) { n.rebootNeeded == True }
  predicate Before(n: Node) { n.beforeReboot == True }
  predicate After(n: Node) { n.afterReboot == True }

  /** The startup reset stands. */
  predicate IsReset(n: Node) {
    n.rebootNeeded == False && n.rebootInProgress == False
  }

  predicate JustRebooted(n: Node) {
    Ok(n) && IsReset(n)
  }

  predicate Wants(n: Node) {
    n.rebootNeeded == True && n.rebootPaused != True && n.rebootOk != True && n.rebootInProgress != True
  }

  predicate StillRebooting(n: Node) {
    Ok(n) && Needed(n)
  }

  predicate HasAll(n: Node, names: seq<string>) {
    forall k :: k in names ==> k in n.checks && n.checks[k] == True
  }

  /** Somewhere between being chosen and being released. */
  predicate InFlight(n: Node) {
    Before(n) || After(n) || Ok(n)
  }

  /** Chosen, or permitted and still wanting its reboot. */
  predicate Draining(n: Node) {
    Before(n) || StillRebooting(n)
  }

  function DeleteChecks(n: Node, names: seq<string>): Node {
    n.(checks := n.checks - set k | k in names)
  }

  // What the operator's closures do to the node they are handed.

  function Cleanup(cfg: Config, n: Node): Node {
    if n.beforeReboot != Absent && !Wants(n)
    then DeleteChecks(n, cfg.before).(beforeReboot := Absent)
    else n
  }

  function Grant(cfg: Config, n: Node): Node {
    DeleteChecks(n, cfg.before).(beforeReboot := Absent, rebootOk := True)
  }

  function Release(cfg: Config, n: Node): Node {
    DeleteChecks(n, cfg.after).(afterReboot := Absent, rebootOk := False)
  }

  function MarkBefore(cfg: Config, n: Node): Node {
    DeleteChecks(n, cfg.before).(beforeReboot := True)
  }

  function MarkAfter(cfg: Config, n: Node): Node {
    DeleteChecks(n, cfg.after).(afterReboot := True)
  }
}
