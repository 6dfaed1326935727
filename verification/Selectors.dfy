/** The selectors the operator and the agent match nodes on, and what matching
    means for a key that is absent. */
module Selectors {
  import opened Nodes
  import opened Passes

  datatype Key =
    | RebootNeeded | RebootInProgress | RebootOk | RebootPaused   // annotations
    | BeforeReboot | AfterReboot                                  // labels

  /** One condition on one key. */
  datatype Requirement =
    | Equals(key: Key, value: Flag)
    | NotEquals(key: Key, value: Flag)
    | In(key: Key, values: set<Flag>)
    | NotIn(key: Key, values: set<Flag>)

  function ValueOf(n: Node, key: Key): Flag {
    match key
    case RebootNeeded => n.rebootNeeded
    case RebootInProgress => n.rebootInProgress
    case RebootOk => n.rebootOk
    case RebootPaused => n.rebootPaused
    case BeforeReboot => n.beforeReboot
    case AfterReboot => n.afterReboot
  }

  /** != and NotIn hold of an absent key. */
  predicate Meets(n: Node, r: Requirement) {
    match r
    case Equals(key, value) => ValueOf(n, key) == value
    case NotEquals(key, value) => ValueOf(n, key) != value
    case In(key, values) => ValueOf(n, key) in values
    case NotIn(key, values) => ValueOf(n, key) !in values
  }

  predicate Matches(n: Node, selector: set<Requirement>) {
    forall r :: r in selector ==> Meets(n, r)
  }

  /** The predicates on nodes are what the selectors match. */
  lemma PredicatesMatch(n: Node)
    ensures Wants(n) <==> Matches(n, {Equals(RebootNeeded, True), NotEquals(RebootPaused, True),
                                      NotEquals(RebootOk, True), NotEquals(RebootInProgress, True)})
    ensures JustRebooted(n) <==> Matches(n, {Equals(RebootOk, True), Equals(RebootNeeded, False),
                                             Equals(RebootInProgress, False)})
    ensures StillRebooting(n) <==> Matches(n, {Equals(RebootOk, True), Equals(RebootNeeded, True)})
    ensures Before(n) <==> Matches(n, {In(BeforeReboot, {True})})
    ensures After(n) <==> Matches(n, {In(AfterReboot, {True})})
  {
  }

  /** And so are the choices of the phases: the two filters of a phase in a row
      match both selectors, absent labels included. */
  lemma PhasesMatch(cfg: Config, n: Node)
    ensures Due(cfg, MarkAfterReboot, n) <==>
      Matches(n, {Equals(RebootOk, True), Equals(RebootNeeded, False), Equals(RebootInProgress, False),
                  NotIn(AfterReboot, {True})})
    ensures Due(cfg, CheckAfterReboot, n) <==>
      Matches(n, {In(AfterReboot, {True})}) && forall k :: k in cfg.after ==> k in n.checks && n.checks[k] == True
    ensures Due(cfg, CheckBeforeReboot, n) <==>
      Matches(n, {In(BeforeReboot, {True})}) && forall k :: k in cfg.before ==> k in n.checks && n.checks[k] == True
    ensures Rebootable(n) <==> Wants(n) && Matches(n, {NotIn(BeforeReboot, {True})})
  {
    PredicatesMatch(n);
  }
}
