/** Optimistic updates: get, change, and put back unless someone else has
    written meanwhile, a bounded number of times. */
module Retries {

  /** The stored object and everybody who is updating it. A client is its number
      of calls of its function so far and where it stands. */
  datatype Progress<V> =
    | ToGet
    | Holding(value: V, version: nat)
    | Returned(outcome: Outcome)

  /** nil, an error, or an error for a write that was carried out. */
  datatype Outcome = Nil | Failed | ReplyLost

  datatype Client<V> = Client(calls: nat, at: Progress<V>)

  datatype World<V> = World(value: V, version: nat, clients: seq<Client<V>>, log: seq<nat>)

  datatype Move =
    | Get            // read the object, or stop when the attempts are used up
    | GetFails
    | Put            // call the function and write the result
    | PutFails       // an error other than a conflict
    | PutLosesReply  // the write is carried out and nobody tells; a conflict is told

  function Become<V>(w: World<V>, c: nat, calls: nat, at: Progress<V>): World<V>
    requires c < |w.clients|
  {
    w.(clients := w.clients[c := Client(calls, at)])
  }

  /** One call of client c, whose update is f and who tries at most `steps`
      times. With no attempts left RetryOnConflict returns its last conflict,
      which is nil if there was none. */
  function Act<V>(w: World<V>, f: V -> V, steps: nat, c: nat, m: Move): World<V> {
    if c >= |w.clients| then w
    else
      var Client(calls, at) := w.clients[c];
      match at
      case Returned(_) => w
      case ToGet =>
        if calls >= steps then Become(w, c, calls, Returned(if calls == 0 then Nil else Failed))
        else if m.GetFails? then Become(w, c, calls, Returned(Failed))
        else if m.Get? then Become(w, c, calls, Holding(w.value, w.version))
        else w
      case Holding(v, version) =>
        if m.PutFails? then Become(w, c, calls + 1, Returned(Failed))
        else if !m.Put? && !m.PutLosesReply? then w
        else if version != w.version then Become(w, c, calls + 1, ToGet)
        else
          var done := World(f(v), w.version + 1, w.clients, w.log + [c]);
          Become(done, c, calls + 1, Returned(if m.Put? then Nil else ReplyLost))
  }

  /** A schedule of calls, by any clients in any order. */
  function Play<V>(w: World<V>, fs: seq<V -> V>, steps: nat, sched: seq<(nat, Move)>): World<V>
    requires |fs| == |w.clients|
    ensures |Play(w, fs, steps, sched).clients| == |w.clients|
  {
    if sched == [] then w
    else
      var k := |sched| - 1;
      var (c, m) := sched[k];
      var u := Play(w, fs, steps, sched[..k]);
      if c < |fs| then Act(u, fs[c], steps, c, m) else u
  }

  /** The functions of a log, applied in order. */
  function Fold<V>(v: V, fs: seq<V -> V>, log: seq<nat>): V
    requires forall j :: 0 <= j < |log| ==> log[j] < |fs|
  {
    if log == [] then v
    else
      var k := |log| - 1;
      fs[log[k]](Fold(v, fs, log[..k]))
  }

  predicate InLog(log: seq<nat>, n: nat) {
    forall j :: 0 <= j < |log| ==> log[j] < n
  }

  predicate Starting<V>(w: World<V>) {
    w.version == 0 && w.log == [] && forall c :: 0 <= c < |w.clients| ==> w.clients[c] == Client(0, ToGet)
  }

  /** How many of its writes a client has committed, by where it stands. */
  function Committed<V>(cl: Client<V>, steps: nat): nat {
    if cl.at.Returned? && steps > 0 && !cl.at.outcome.Failed? then 1 else 0
  }

  predicate Linear<V(==)>(w: World<V>, v0: V, fs: seq<V -> V>, steps: nat) {
    && |fs| == |w.clients| && InLog(w.log, |fs|)
    && w.version == |w.log|
    && w.value == Fold(v0, fs, w.log)
    && (forall c :: 0 <= c < |w.clients| ==>
         var cl := w.clients[c];
         && cl.calls <= steps
         && multiset(w.log)[c] == Committed(cl, steps)
         && (cl.at.Holding? ==>
              && cl.calls < steps
              && cl.at.version <= w.version
              && cl.at.value == Fold(v0, fs, w.log[..cl.at.version])))
  }

  /** Client c goes from one standing to another without a commit. */
  lemma LinearMove<V>(w: World<V>, v0: V, fs: seq<V -> V>, steps: nat, c: nat, cl: Client<V>)
    requires Linear(w, v0, fs, steps) && c < |fs|
    requires cl.calls <= steps && Committed(cl, steps) == Committed(w.clients[c], steps)
    requires cl.at.Holding? ==> cl.calls < steps && cl.at.version == w.version && cl.at.value == w.value
    ensures Linear(Become(w, c, cl.calls, cl.at), v0, fs, steps)
  {
    assert w.log[..|w.log|] == w.log;
  }

  lemma LinearCommit<V>(w: World<V>, v0: V, fs: seq<V -> V>, steps: nat, c: nat, cl: Client<V>)
    requires Linear(w, v0, fs, steps) && c < |fs|
    requires cl.calls <= steps && Committed(w.clients[c], steps) == 0 && Committed(cl, steps) == 1
    ensures Linear(Become(World(fs[c](w.value), w.version + 1, w.clients, w.log + [c]), c, cl.calls, cl.at),
                   v0, fs, steps)
  {
    var log := w.log + [c];
    assert log[..|w.log|] == w.log;
    forall d | 0 <= d < |w.clients| && w.clients[d].at.Holding?
      ensures log[..w.clients[d].at.version] == w.log[..w.clients[d].at.version]
    {
    }
  }

  lemma LinearAct<V>(w: World<V>, v0: V, fs: seq<V -> V>, steps: nat, c: nat, m: Move)
    requires Linear(w, v0, fs, steps) && c < |fs|
    ensures Linear(Act(w, fs[c], steps, c, m), v0, fs, steps)
  {
    var u := Act(w, fs[c], steps, c, m);
    var cl := u.clients[c];
    if u.log != w.log {
      var held := w.clients[c].at;
      assert w.log[..held.version] == w.log;
      LinearCommit(w, v0, fs, steps, c, cl);
    } else {
      assert u.clients[c] == w.clients[c] ==> u.clients == w.clients;
      if u.clients != w.clients {
        LinearMove(w, v0, fs, steps, c, cl);
      }
    }
  }

  /** For any number of clients and any interleaving of their calls: the object
      is the result of the committed functions in commit order; a client that
      got nil committed exactly one write and one that got an error (and lost
      no reply) none; and no function is called more than `steps` times. */
  lemma {:induction false} UpdatesLinearize<V>(w: World<V>, fs: seq<V -> V>, steps: nat, sched: seq<(nat, Move)>)
    requires Starting(w) && |fs| == |w.clients|
    ensures Linear(Play(w, fs, steps, sched), w.value, fs, steps)
  {
    if sched != [] {
      var k := |sched| - 1;
      UpdatesLinearize(w, fs, steps, sched[..k]);
      if sched[k].0 < |fs| {
        LinearAct(Play(w, fs, steps, sched[..k]), w.value, fs, steps, sched[k].0, sched[k].1);
      }
    }
  }

  /** One attempt of a client, from its get in w to its put in u, with whatever
      others did in between. */
  lemma AttemptDecides<V>(w: World<V>, u: World<V>, f: V -> V, steps: nat, c: nat, calls: nat)
    requires c < |w.clients| && w.clients[c] == Client(calls, ToGet) && calls < steps
    requires c < |u.clients| && u.clients[c] == Client(calls, Holding(w.value, w.version))
    ensures Act(w, f, steps, c, GetFails) == w.(clients := w.clients[c := Client(calls, Returned(Failed))])
    ensures Act(w, f, steps, c, Get) == w.(clients := w.clients[c := Client(calls, Holding(w.value, w.version))])
    ensures Act(u, f, steps, c, PutFails) == u.(clients := u.clients[c := Client(calls + 1, Returned(Failed))])
    ensures u.version != w.version ==>
      forall m :: m == Put || m == PutLosesReply ==>
        Act(u, f, steps, c, m) == u.(clients := u.clients[c := Client(calls + 1, ToGet)])
    ensures u.version == w.version ==>
      forall m :: m == Put || m == PutLosesReply ==>
        Act(u, f, steps, c, m) == World(f(w.value), u.version + 1,
          u.clients[c := Client(calls + 1, Returned(if m == Put then Nil else ReplyLost))], u.log + [c])
  {
  }

  /** A client that met no error but conflicts: it has got as far as its next
      attempt, and each conflict was somebody else's commit. */
  predicate OnlyConflicts<V>(w: World<V>, steps: nat, c: nat)
    requires c < |w.clients|
  {
    var Client(calls, at) := w.clients[c];
    && calls <= steps && calls <= w.version
    && (at.Holding? ==> calls < steps && calls <= at.version <= w.version)
    && (at == Returned(Failed) ==> calls == steps)
  }

  /** So it gives up only when all its attempts are used up, and then others have
      committed at least as often. */
  lemma {:induction false} GivesUpLast<V>(w: World<V>, fs: seq<V -> V>, steps: nat, sched: seq<(nat, Move)>, c: nat)
    requires Starting(w) && |fs| == |w.clients| && c < |fs|
    requires forall j :: 0 <= j < |sched| && sched[j].0 == c ==> sched[j].1 != GetFails && sched[j].1 != PutFails
    ensures var u := Play(w, fs, steps, sched);
      && OnlyConflicts(u, steps, c)
      && (u.clients[c].at == Returned(Failed) ==>
           u.clients[c].calls == steps && |u.log| >= steps && c !in u.log)
  {
    UpdatesLinearize(w, fs, steps, sched);
    if sched != [] {
      var k := |sched| - 1;
      GivesUpLast(w, fs, steps, sched[..k], c);
      var u := Play(w, fs, steps, sched[..k]);
      assert sched[k].0 == c ==> sched[k].1 != GetFails && sched[k].1 != PutFails;
    }
    var u := Play(w, fs, steps, sched);
    assert multiset(u.log)[c] == 0 ==> c !in u.log;
  }

  /** Whoever got nil has committed. */
  ghost predicate NilMeansCommitted<V(!new)>(w: World<V>, fs: seq<V -> V>, steps: nat)
    requires |fs| == |w.clients|
  {
    forall sched: seq<(nat, Move)>, c: nat ::
      c < |fs| && Play(w, fs, steps, sched).clients[c].at == Returned(Nil) ==> c in Play(w, fs, steps, sched).log
  }

  /** This holds exactly when at least one attempt is configured. */
  lemma NilNeedsAnAttempt<V(!new)>(w: World<V>, fs: seq<V -> V>, steps: nat)
    requires Starting(w) && |fs| == |w.clients| && |fs| > 0
    ensures NilMeansCommitted(w, fs, steps) <==> steps > 0
  {
    if steps > 0 {
      forall sched: seq<(nat, Move)>, c: nat | c < |fs| && Play(w, fs, steps, sched).clients[c].at == Returned(Nil)
        ensures c in Play(w, fs, steps, sched).log
      {
        UpdatesLinearize(w, fs, steps, sched);
        assert multiset(Play(w, fs, steps, sched).log)[c] == 1;
      }
    } else {
      var c: nat := 0;
      var sched: seq<(nat, Move)> := [(c, Get)];
      assert Play(w, fs, steps, sched[..0]) == w;
      var u := Play(w, fs, steps, sched);
      assert u.clients[c].at == Returned(Nil) && c !in u.log;
    }
  }

  // ---------------------------------------------------------------------
  // The retry loop

  /** What becomes of a put, conflicts apart: it is answered, it is refused, or
      it is carried out like any other and the answer does not arrive. */
  datatype PutFate = Answered | NotDone | AnswerLost

  /** What meets one attempt: whether the get fails, what others commit between
      the get and the put, and what becomes of the put. */
  datatype Attempt<!V> = Attempt(getFails: bool, others: seq<V -> V>, put: PutFate) {
    predicate Quiet() { !getFails && put.Answered? && others == [] }

    predicate Contended() { !getFails && put.Answered? && others != [] }

    /** Its write is carried out. */
    predicate Commits() { !getFails && !put.NotDone? && others == [] }
  }

  /** How one attempt ends; f may have been called before it was refused. */
  datatype Reply = Written | Conflict | Refused(called: bool)

  /** What an attempt with f adds to the history of commits. */
  function After<V>(h: seq<V -> V>, a: Attempt<V>, f: V -> V): seq<V -> V> {
    if a.Commits() then h + [f] else if a.getFails then h else h + a.others
  }

  function AfterAll<V>(h: seq<V -> V>, env: seq<Attempt<V>>, n: nat, f: V -> V): seq<V -> V>
    requires n <= |env|
  {
    if n == 0 then h else After(AfterAll(h, env, n - 1, f), env[n - 1], f)
  }

  /** Contended attempts add nothing of their own: the history is the same
      whatever the function. */
  lemma {:induction false} ContendedAddNothing<V>(h: seq<V -> V>, env: seq<Attempt<V>>, n: nat, f: V -> V, g: V -> V)
    requires n <= |env| && forall j :: 0 <= j < n ==> env[j].Contended()
    ensures AfterAll(h, env, n, f) == AfterAll(h, env, n, g)
  {
    if n > 0 {
      ContendedAddNothing(h, env, n - 1, f, g);
    }
  }

  /** The first n of the functions, applied in order. */
  function Run<V>(v: V, fs: seq<V -> V>, n: nat): V
    requires n <= |fs|
  {
    if n == 0 then v else fs[n - 1](Run(v, fs, n - 1))
  }

  lemma {:induction false} RunPrefix<V>(v: V, fs: seq<V -> V>, f: V -> V, n: nat)
    requires n <= |fs|
    ensures Run(v, fs + [f], n) == Run(v, fs, n)
  {
    if n > 0 {
      RunPrefix(v, fs, f, n - 1);
    }
  }

  class Store<V> {
    var value: V
    var version: nat
    ghost const initial: V
    ghost var history: seq<V -> V>

    /** The object is the result of all committed functions in commit order. */
    ghost predicate Valid()
      reads this
    {
      version == |history| && value == Run(initial, history, version)
    }

    constructor (v: V)
      ensures Valid() && value == v && history == []
    {
      value, version, initial, history := v, 0, v, [];
    }

    method Commit(f: V -> V)
      requires Valid()
      modifies this
      ensures Valid() && history == old(history) + [f]
    {
      RunPrefix(initial, history, f, version);
      value, version := f(value), version + 1;
      history := history + [f];
    }

    method CommitAll(fs: seq<V -> V>)
      requires Valid()
      modifies this
      ensures Valid() && history == old(history) + fs
    {
      for j := 0 to |fs|
        invariant Valid() && history == old(history) + fs[..j]
      {
        Commit(fs[j]);
      }
    }

    /** One attempt: get the object, call f on it, and put it back if nobody has
        written since. */
    method Try(f: V -> V, a: Attempt<V>) returns (reply: Reply)
      requires Valid()
      modifies this
      ensures Valid()
      ensures history == After(old(history), a, f)
      ensures !a.getFails && !a.put.NotDone? && a.others == [] ==> history == old(history) + [f]
      ensures a.getFails ==> history == old(history) && reply == Refused(false)
      ensures !a.getFails && (a.put.NotDone? || a.others != []) ==> history == old(history) + a.others
      ensures !a.getFails && !a.put.Answered? ==> reply == Refused(true)
      ensures !a.getFails && a.put.Answered? ==> reply == if a.others == [] then Written else Conflict
      ensures reply.Written? <==> a.Quiet()
      ensures reply.Conflict? <==> a.Contended()
      ensures reply.Refused? ==> (reply.called <==> !a.getFails)
    {
      if a.getFails {
        return Refused(false);
      }
      var held, heldVersion := value, version;
      CommitAll(a.others);
      var changed := f(held);
      if a.put.NotDone? {
        return Refused(true);
      }
      if heldVersion != version {
        return if a.put.AnswerLost? then Refused(true) else Conflict;
      }
      assert history == old(history);
      RunPrefix(initial, history, f, version);
      value, version := changed, version + 1;
      history := history + [f];
      reply := if a.put.AnswerLost? then Refused(true) else Written;
    }

    /** UpdateNodeRetry over RetryOnConflict, with as many attempts configured as
        env has: it goes on exactly while they are contended, and only its last
        attempt can commit f. */
    method UpdateRetry(f: V -> V, env: seq<Attempt<V>>) returns (err: bool, calls: nat, ghost made: nat)
      requires Valid()
      modifies this
      ensures Valid() && made <= |env|
      ensures forall j :: 0 <= j < made - 1 ==> env[j].Contended()
      ensures made < |env| ==> made > 0 && !env[made - 1].Contended()
      ensures err <==> made > 0 && !env[made - 1].Quiet()
      ensures calls == if made > 0 && env[made - 1].getFails then made - 1 else made
      ensures history == AfterAll(old(history), env, made, f)
    {
      var lastConflict := false;
      calls, made := 0, 0;
      ghost var h := history;
      while calls < |env|
        invariant calls == made <= |env| && (lastConflict <==> made > 0)
        invariant Valid() && history == AfterAll(h, env, made, f)
        invariant forall j :: 0 <= j < made ==> env[j].Contended()
      {
        var reply := Try(f, env[calls]);
        made := made + 1;
        if reply.Written? {
          return false, calls + 1, made;
        }
        if reply.Refused? {
          return true, if reply.called then calls + 1 else calls, made;
        }
        calls := calls + 1;
        lastConflict := true;
      }
      err := lastConflict;
    }
  }

  /** RetryOnError: the error it means to return is shadowed inside its closure,
      so it returns nil however the attempts went. */
  method RetryOnError(steps: nat, works: nat -> bool) returns (err: bool, succeeded: bool, calls: nat)
    ensures !err
    ensures succeeded <==> exists i: nat :: i < steps && works(i)
    ensures !succeeded ==> calls == steps
    ensures succeeded ==> 0 < calls <= steps && works(calls - 1) && forall i: nat :: i + 1 < calls ==> !works(i)
  {
    var lastErr := false;
    for i := 0 to steps
      invariant forall j: nat :: j < i ==> !works(j)
    {
      if works(i) {
        return false, true, i + 1;
      }
    }
    err, succeeded, calls := lastErr, false, steps;
  }
}
