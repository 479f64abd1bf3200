/**
  Merging in the lattices of the key-value store: counters that keep the maximum, maps
  merged key by key, vector clocks (maps of such counters), maps of vector clocks, and
  values guarded by a vector clock.
 */
module Lattices {

  // ---------------------------------------------------------------- join semilattices

  /** `leq` is a partial order in which `join` gives least upper bounds. */
  ghost predicate JoinSemilattice<V(!new)>(leq: (V, V) -> bool, join: (V, V) -> V) {
    && (forall a :: leq(a, a))
    && (forall a, b :: leq(a, b) && leq(b, a) ==> a == b)
    && (forall a, b, c :: leq(a, b) && leq(b, c) ==> leq(a, c))
    && (forall a, b :: leq(a, join(a, b)) && leq(b, join(a, b)))
    && (forall a, b, c :: leq(a, c) && leq(b, c) ==> leq(join(a, b), c))
  }

  /** A value after merging others into it one by one. */
  function Fold<V>(join: (V, V) -> V, start: V, xs: seq<V>): V {
    if xs == [] then start else join(Fold(join, start, xs[..|xs| - 1]), xs[|xs| - 1])
  }

  /** The result is the least upper bound of all that went in. */
  lemma {:induction false} FoldIsLeastUpperBound<V(!new)>(leq: (V, V) -> bool, join: (V, V) -> V, start: V, xs: seq<V>)
    requires JoinSemilattice(leq, join)
    ensures leq(start, Fold(join, start, xs))
    ensures forall x :: x in xs ==> leq(x, Fold(join, start, xs))
    ensures forall u :: leq(start, u) && (forall x :: x in xs ==> leq(x, u)) ==> leq(Fold(join, start, xs), u)
  {
    if xs != [] {
      var init, last := xs[..|xs| - 1], xs[|xs| - 1];
      FoldIsLeastUpperBound(leq, join, start, init);
      var before := Fold(join, start, init);
      assert leq(before, join(before, last)) && leq(last, join(before, last));
      forall x | x in xs ensures leq(x, join(before, last)) {
        if x != last { assert x in init; }
      }
      forall u | leq(start, u) && forall x :: x in xs ==> leq(x, u) ensures leq(join(before, last), u) {
        assert forall x :: x in init ==> x in xs;
        assert last in xs;
        assert leq(before, u);
      }
    }
  }

  /** Merging the same values in any order and with any repetition gives the same result. */
  lemma Convergence<V(!new)>(leq: (V, V) -> bool, join: (V, V) -> V, start: V, xs: seq<V>, ys: seq<V>)
    requires JoinSemilattice(leq, join)
    requires forall x :: x in xs <==> x in ys
    ensures Fold(join, start, xs) == Fold(join, start, ys)
  {
    FoldIsLeastUpperBound(leq, join, start, xs);
    FoldIsLeastUpperBound(leq, join, start, ys);
    var f, g := Fold(join, start, xs), Fold(join, start, ys);
    assert forall x :: x in xs ==> leq(x, g);
    assert forall y :: y in ys ==> leq(y, f);
    assert leq(f, g) && leq(g, f);
  }

  /** Whether a join equals one of its arguments tells exactly whether that one dominates. */
  lemma JoinTellsOrder<V(!new)>(leq: (V, V) -> bool, join: (V, V) -> V, a: V, b: V)
    requires JoinSemilattice(leq, join)
    ensures join(a, b) == b <==> leq(a, b)
    ensures join(a, b) == a <==> leq(b, a)
  {
    assert leq(a, join(a, b)) && leq(b, join(a, b)) && leq(a, a) && leq(b, b);
  }

  // ---------------------------------------------------------------- maps

  /** Every key of the first map is in the second, with a value at least as great. */
  ghost predicate MapLeq<V(!new)>(leq: (V, V) -> bool, a: map<string, V>, b: map<string, V>) {
    forall k :: k in a ==> k in b && leq(a[k], b[k])
  }

  /** Values of common keys are merged; the others are copied. */
  function MapJoin<V>(join: (V, V) -> V, a: map<string, V>, b: map<string, V>): map<string, V> {
    map k | k in a.Keys + b.Keys :: if k !in b then a[k] else if k !in a then b[k] else join(a[k], b[k])
  }

  ghost function LiftLeq<V(!new)>(leq: (V, V) -> bool): (map<string, V>, map<string, V>) -> bool {
    (a, b) => MapLeq(leq, a, b)
  }

  function LiftJoin<V>(join: (V, V) -> V): (map<string, V>, map<string, V>) -> map<string, V> {
    (a, b) => MapJoin(join, a, b)
  }

  /** Maps into a join semilattice, merged key by key, are a join semilattice again. */
  lemma LiftIsSemilattice<V(!new)>(leq: (V, V) -> bool, join: (V, V) -> V)
    requires JoinSemilattice(leq, join)
    ensures JoinSemilattice(LiftLeq(leq), LiftJoin(join))
  {
    var l, j := LiftLeq(leq), LiftJoin(join);
    forall a, b | l(a, b) && l(b, a) ensures a == b {
      MapAntisymmetric(leq, join, a, b);
    }
    forall a, b, c | l(a, b) && l(b, c) ensures l(a, c) {
      MapTransitive(leq, join, a, b, c);
    }
    forall a, b ensures l(a, j(a, b)) && l(b, j(a, b)) {
      MapUpper(leq, join, a, b);
    }
    forall a, b, c | l(a, c) && l(b, c) ensures l(j(a, b), c) {
      MapLeast(leq, join, a, b, c);
    }
  }

  lemma MapAntisymmetric<V(!new)>(leq: (V, V) -> bool, join: (V, V) -> V, a: map<string, V>, b: map<string, V>)
    requires JoinSemilattice(leq, join) && MapLeq(leq, a, b) && MapLeq(leq, b, a)
    ensures a == b
  {
    assert a.Keys == b.Keys;
    forall k | k in a ensures a[k] == b[k] {
      assert leq(a[k], b[k]) && leq(b[k], a[k]);
    }
  }

  lemma MapTransitive<V(!new)>(leq: (V, V) -> bool, join: (V, V) -> V, a: map<string, V>, b: map<string, V>, c: map<string, V>)
    requires JoinSemilattice(leq, join) && MapLeq(leq, a, b) && MapLeq(leq, b, c)
    ensures MapLeq(leq, a, c)
  {
    forall k | k in a ensures k in c && leq(a[k], c[k]) {
      assert leq(a[k], b[k]) && leq(b[k], c[k]);
    }
  }

  lemma MapUpper<V(!new)>(leq: (V, V) -> bool, join: (V, V) -> V, a: map<string, V>, b: map<string, V>)
    requires JoinSemilattice(leq, join)
    ensures MapLeq(leq, a, MapJoin(join, a, b)) && MapLeq(leq, b, MapJoin(join, a, b))
  {
  }

  lemma MapLeast<V(!new)>(leq: (V, V) -> bool, join: (V, V) -> V, a: map<string, V>, b: map<string, V>, c: map<string, V>)
    requires JoinSemilattice(leq, join) && MapLeq(leq, a, c) && MapLeq(leq, b, c)
    ensures MapLeq(leq, MapJoin(join, a, b), c)
  {
    var m := MapJoin(join, a, b);
    forall k | k in m ensures k in c && leq(m[k], c[k]) {
      if k in a && k in b { assert leq(a[k], c[k]) && leq(b[k], c[k]); }
    }
  }

  // ---------------------------------------------------------------- vector clocks

  type Clock = map<string, nat>

  function NatLeq(): (nat, nat) -> bool { (a, b) => a <= b }

  function NatMax(): (nat, nat) -> nat { (a, b) => if a < b then b else a }

  lemma NatsAreSemilattice()
    ensures JoinSemilattice(NatLeq(), NatMax())
  {
  }

  ghost predicate ClockLeq(a: Clock, b: Clock) { MapLeq(NatLeq(), a, b) }

  function ClockJoin(a: Clock, b: Clock): Clock { MapJoin(NatMax(), a, b) }

  /** Vector clocks converge, and so do maps of vector clocks. */
  lemma ClocksConverge(start: Clock, xs: seq<Clock>, ys: seq<Clock>)
    requires forall x :: x in xs <==> x in ys
    ensures Fold(LiftJoin(NatMax()), start, xs) == Fold(LiftJoin(NatMax()), start, ys)
  {
    NatsAreSemilattice();
    LiftIsSemilattice(NatLeq(), NatMax());
    Convergence(LiftLeq(NatLeq()), LiftJoin(NatMax()), start, xs, ys);
  }

  lemma ClockMapsConverge(start: map<string, Clock>, xs: seq<map<string, Clock>>, ys: seq<map<string, Clock>>)
    requires forall x :: x in xs <==> x in ys
    ensures Fold(LiftJoin(LiftJoin(NatMax())), start, xs) == Fold(LiftJoin(LiftJoin(NatMax())), start, ys)
  {
    NatsAreSemilattice();
    LiftIsSemilattice(NatLeq(), NatMax());
    LiftIsSemilattice(LiftLeq(NatLeq()), LiftJoin(NatMax()));
    Convergence(LiftLeq(LiftLeq(NatLeq())), LiftJoin(LiftJoin(NatMax())), start, xs, ys);
  }

  /** The two tests after a merge decide exactly which clock dominates. */
  lemma ClockTests(a: Clock, b: Clock)
    ensures ClockJoin(a, b) == b <==> ClockLeq(a, b)
    ensures ClockJoin(a, b) == a <==> ClockLeq(b, a)
  {
    NatsAreSemilattice();
    LiftIsSemilattice(NatLeq(), NatMax());
    JoinTellsOrder(LiftLeq(NatLeq()), LiftJoin(NatMax()), a, b);
    assert LiftJoin(NatMax())(a, b) == ClockJoin(a, b);
    assert LiftLeq(NatLeq())(a, b) == ClockLeq(a, b) && LiftLeq(NatLeq())(b, a) == ClockLeq(b, a);
  }

  /** An entry of zero is not the same as no entry: a clock without the key is strictly below one with it. */
  lemma ZeroIsAnEntry(c: Clock, k: string)
    requires k !in c
    ensures ClockLeq(c, c[k := 0]) && !ClockLeq(c[k := 0], c)
  {
    assert k in c[k := 0];
  }

  class VectorClock {
    var element: Clock

    constructor ()
      ensures element == map[]
    {
      element := map[];
    }

    method InsertPair(k: string, v: nat)
      modifies this
      ensures element == ClockJoin(old(element), map[k := v])
    {
      if k in element {
        if element[k] < v {
          element := element[k := v];
        }
      } else {
        element := element[k := v];
      }
    }

    /** Merges the pairs of a clock one after the other, in any order. */
    method Merge(m: Clock)
      modifies this
      ensures element == ClockJoin(old(element), m)
      ensures element.Keys == old(element).Keys + m.Keys
      ensures forall k :: k in element ==>
                && (k in old(element) ==> element[k] >= old(element)[k]) && (k in m ==> element[k] >= m[k])
                && ((k in old(element) && element[k] == old(element)[k]) || (k in m && element[k] == m[k]))
    {
      hide ClockJoin;
      ghost var was := element;
      var left := m.Keys;
      ghost var done: Clock := map[];
      JoinNothing(was);
      while left != {}
        invariant left <= m.Keys && done.Keys == m.Keys - left && element == ClockJoin(was, done)
        invariant forall k :: k in done ==> done[k] == m[k]
        decreases |left|
      {
        var k :| k in left;
        assert k in m && k !in done;
        InsertPair(k, m[k]);
        JoinOneMore(was, done, k, m[k]);
        left := left - {k};
        done := done[k := m[k]];
      }
      assert done == m;
      JoinIsGreatest(was, m);
    }
  }

  /** The join has the keys of both clocks, each with the greatest of its entries. */
  lemma JoinIsGreatest(a: Clock, b: Clock)
    ensures var c := ClockJoin(a, b);
      && c.Keys == a.Keys + b.Keys
      && forall k :: k in c ==>
           && (k in a ==> c[k] >= a[k]) && (k in b ==> c[k] >= b[k])
           && ((k in a && c[k] == a[k]) || (k in b && c[k] == b[k]))
  {
  }

  /** One clock is below another if each of its entries is there, and no smaller. */
  lemma ClockLeqMeans(a: Clock, b: Clock)
    ensures ClockLeq(a, b) <==> forall k :: k in a ==> k in b && a[k] <= b[k]
  {
  }

  lemma JoinNothing(a: Clock)
    ensures ClockJoin(a, map[]) == a
  {
  }

  lemma JoinOneMore(a: Clock, b: Clock, k: string, v: nat)
    requires k !in b
    ensures ClockJoin(ClockJoin(a, b), map[k := v]) == ClockJoin(a, b[k := v])
  {
  }

  // ---------------------------------------------------------------- values guarded by a clock

  /** A set of values with the clock of its last update. */
  datatype Versioned = Versioned(clock: Clock, value: set<string>)

  class SingleKeyCausal {
    const clock: VectorClock
    var value: set<string>

    constructor ()
      ensures clock.element == map[] && value == {} && fresh(clock)
    {
      clock := new VectorClock();
      value := {};
    }

    /** A later version replaces the value, an earlier one changes nothing, a concurrent one is merged in. */
    method Merge(p: Versioned)
      modifies this, clock
      ensures clock.element == ClockJoin(old(clock.element), p.clock)
      ensures value ==
        if ClockLeq(old(clock.element), p.clock) then p.value
        else if ClockLeq(p.clock, old(clock.element)) then old(value)
        else old(value) + p.value
    {
      var prev := clock.element;
      clock.Merge(p.clock);
      ClockTests(prev, p.clock);
      if clock.element == p.clock {
        value := p.value;
      } else if clock.element != prev {
        value := value + p.value;
      }
    }
  }
}
