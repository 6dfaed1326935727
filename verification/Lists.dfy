/** Order-preserving selection from a sequence, and the counting facts the
    reboot limit rests on. */
module Lists {

  /** The elements that satisfy p, in order. */
  function Filter<T>(xs: seq<T>, p: T -> bool): seq<T> {
    if xs == [] then []
    else
      var k := |xs| - 1;
      Filter(xs[..k], p) + (if p(xs[k]) then [xs[k]] else [])
  }

  /** The positions of the elements that satisfy p, in order. */
  function Ids<T>(xs: seq<T>, p: T -> bool): seq<nat> {
    if xs == [] then []
    else
      var k := |xs| - 1;
      Ids(xs[..k], p) + (if p(xs[k]) then [k] else [])
  }

  function Count<T>(xs: seq<T>, p: T -> bool): nat {
    |Ids(xs, p)|
  }

  function Take<T>(xs: seq<T>, n: nat): seq<T> {
    if n < |xs| then xs[..n] else xs
  }

  predicate Ascending(ids: seq<nat>) {
    forall j, k :: 0 <= j < k < |ids| ==> ids[j] < ids[k]
  }

  function Upto(n: nat): seq<nat> {
    seq(n, (i: nat) => i)
  }

  lemma {:induction false} IdsMember<T>(xs: seq<T>, p: T -> bool, i: nat)
    ensures i in Ids(xs, p) <==> i < |xs| && p(xs[i])
  {
    if xs != [] {
      IdsMember(xs[..|xs| - 1], p, i);
    }
  }

  lemma {:induction false} IdsAscend<T>(xs: seq<T>, p: T -> bool)
    ensures Ascending(Ids(xs, p))
  {
    if xs != [] {
      var k := |xs| - 1;
      var front := Ids(xs[..k], p);
      IdsAscend(xs[..k], p);
      forall j | 0 <= j < |front| ensures front[j] < k {
        IdsMember(xs[..k], p, front[j]);
      }
    }
  }

  lemma IdsExact<T>(xs: seq<T>, p: T -> bool)
    ensures Ascending(Ids(xs, p))
    ensures forall i: nat :: i in Ids(xs, p) <==> i < |xs| && p(xs[i])
  {
    IdsAscend(xs, p);
    forall i: nat ensures i in Ids(xs, p) <==> i < |xs| && p(xs[i]) {
      IdsMember(xs, p, i);
    }
  }

  lemma TakeExact<T>(xs: seq<T>, n: nat)
    ensures Take(xs, n) <= xs && |Take(xs, n)| <= n
    ensures forall x :: x in Take(xs, n) ==> x in xs
  {
  }

  lemma {:induction false} AscendingCard(ids: seq<nat>, all: set<nat>)
    requires Ascending(ids) && forall i: nat :: i in all <==> i in ids
    ensures |all| == |ids|
  {
    if ids == [] {
      assert all == {};
    } else {
      var k := |ids| - 1;
      assert ids == ids[..k] + [ids[k]];
      AscendingCard(ids[..k], all - {ids[k]});
    }
  }

  /** A count is the number of positions that satisfy p. */
  lemma CountIsCard<T>(xs: seq<T>, p: T -> bool)
    ensures Count(xs, p) == |set i: nat | i < |xs| && p(xs[i])|
  {
    IdsExact(xs, p);
    AscendingCard(Ids(xs, p), set i: nat | i < |xs| && p(xs[i]));
  }

  /** The first r positions that satisfy p: those with fewer than r before them. */
  lemma {:induction false} TakeIds<T>(xs: seq<T>, p: T -> bool, r: nat, i: nat)
    requires i < |xs|
    ensures i in Take(Ids(xs, p), r) <==> p(xs[i]) && Count(xs[..i], p) < r
  {
    var k := |xs| - 1;
    IdsExact(xs[..k], p);
    var front := Ids(xs[..k], p);
    TakeExact(front, r);
    if |front| >= r {
      assert Take(Ids(xs, p), r) == Take(front, r);
    } else {
      assert Take(Ids(xs, p), r) == Ids(xs, p) && Take(front, r) == front;
    }
    if i < k {
      TakeIds(xs[..k], p, r, i);
      assert xs[..k][..i] == xs[..i];
    }
  }

  lemma {:induction false} CountLe<S, T>(xs: seq<S>, p: S -> bool, ys: seq<T>, q: T -> bool)
    requires |xs| == |ys|
    requires forall i :: 0 <= i < |xs| && p(xs[i]) ==> q(ys[i])
    ensures Count(xs, p) <= Count(ys, q)
  {
    if xs != [] {
      CountLe(xs[..|xs| - 1], p, ys[..|ys| - 1], q);
    }
  }

  lemma {:induction false} CountUpdate<T>(xs: seq<T>, i: nat, x: T, p: T -> bool)
    requires i < |xs|
    ensures Count(xs[i := x], p) == Count(xs, p) - (if p(xs[i]) then 1 else 0) + (if p(x) then 1 else 0)
  {
    var k := |xs| - 1;
    if i < k {
      assert xs[i := x][..k] == xs[..k][i := x];
      CountUpdate(xs[..k], i, x, p);
    } else {
      assert xs[i := x][..k] == xs[..k];
    }
  }

  /** Three lists that together hold every p element are at least as long as
      the p elements, and exactly as long when they do not overlap. */
  lemma {:induction false} CountCover<T>(xs: seq<T>, p: T -> bool, a: T -> bool, b: T -> bool, c: T -> bool)
    requires forall i :: 0 <= i < |xs| && p(xs[i]) ==> a(xs[i]) || b(xs[i]) || c(xs[i])
    ensures Count(xs, p) <= Count(xs, a) + Count(xs, b) + Count(xs, c)
    ensures (forall i :: 0 <= i < |xs| ==>
              && (a(xs[i]) || b(xs[i]) || c(xs[i]) ==> p(xs[i]))
              && !(a(xs[i]) && b(xs[i])) && !(b(xs[i]) && c(xs[i])) && !(a(xs[i]) && c(xs[i])))
            ==> Count(xs, p) == Count(xs, a) + Count(xs, b) + Count(xs, c)
  {
    if xs != [] {
      CountCover(xs[..|xs| - 1], p, a, b, c);
    }
  }

  lemma {:induction false} CountNone<T>(xs: seq<T>, p: T -> bool)
    requires forall i :: 0 <= i < |xs| ==> !p(xs[i])
    ensures Count(xs, p) == 0
  {
    if xs != [] {
      CountNone(xs[..|xs| - 1], p);
    }
  }

  function Both<T>(p: T -> bool, q: T -> bool): T -> bool {
    x => p(x) && q(x)
  }

  lemma {:induction false} FilterTwice<T>(xs: seq<T>, p: T -> bool, q: T -> bool)
    ensures Filter(Filter(xs, p), q) == Filter(xs, Both(p, q))
  {
    if xs != [] {
      var k := |xs| - 1;
      FilterTwice(xs[..k], p, q);
      if p(xs[k]) {
        var ys := Filter(xs[..k], p) + [xs[k]];
        assert ys[..|ys| - 1] == Filter(xs[..k], p);
      } else {
        assert Filter(xs, p) == Filter(xs[..k], p);
      }
    }
  }

  lemma FilterSnoc<T>(xs: seq<T>, k: nat, p: T -> bool)
    requires k < |xs|
    ensures Filter(xs[..k + 1], p) == Filter(xs[..k], p) + (if p(xs[k]) then [xs[k]] else [])
  {
    assert xs[..k + 1][..k] == xs[..k];
  }

  lemma {:induction false} FilterSame<T>(xs: seq<T>, p: T -> bool, q: T -> bool)
    requires forall i :: 0 <= i < |xs| ==> p(xs[i]) == q(xs[i])
    ensures Filter(xs, p) == Filter(xs, q)
  {
    if xs != [] {
      FilterSame(xs[..|xs| - 1], p, q);
    }
  }

  /** A filtered list is what lies at the selected positions, in order. */
  lemma {:induction false} FilterAt<T>(xs: seq<T>, p: T -> bool)
    ensures |Filter(xs, p)| == |Ids(xs, p)|
    ensures forall j :: 0 <= j < |Ids(xs, p)| ==> Ids(xs, p)[j] < |xs| && Filter(xs, p)[j] == xs[Ids(xs, p)[j]]
  {
    if xs != [] {
      FilterAt(xs[..|xs| - 1], p);
    }
  }

  lemma {:induction false} FilterMembers<T>(xs: seq<T>, p: T -> bool)
    ensures forall x :: x in Filter(xs, p) <==> x in xs && p(x)
  {
    if xs != [] {
      var k := |xs| - 1;
      FilterMembers(xs[..k], p);
      assert xs == xs[..k] + [xs[k]];
    }
  }
}
