/**
  The partitioned ordered map: entries are spread over containers by boundary keys, and
  an operation touches only the containers its keys can be in. It is proved to behave as
  one flat container kept in key order. Keys are integers, standing for any ordered type.
 */
module PartitionedMap {

  type Value = string

  datatype Entry = Entry(key: int, val: Value)

  // ---------------------------------------------------------------- ordered containers

  ghost predicate Sorted(es: seq<Entry>) {
    forall i, j :: 0 <= i < j < |es| ==> es[i].key < es[j].key
  }

  /** The entries whose keys satisfy `p`, in the same order. */
  function Keep(es: seq<Entry>, p: int -> bool): seq<Entry> {
    if es == [] then []
    else Keep(es[..|es| - 1], p) + if p(es[|es| - 1].key) then [es[|es| - 1]] else []
  }

  function Below(k: int): int -> bool { x => x < k }
  function Above(k: int): int -> bool { x => x > k }
  function Within(low: int, up: int): int -> bool { x => low <= x <= up }
  function Outside(low: int, up: int): int -> bool { x => x < low || up < x }

  /** A flat container after inserting an entry, which an entry of the same key prevents. */
  function Inserted(es: seq<Entry>, e: Entry): seq<Entry> {
    if Keep(es, Within(e.key, e.key)) != [] then es else Keep(es, Below(e.key)) + [e] + Keep(es, Above(e.key))
  }

  lemma {:induction false} KeepAppend(a: seq<Entry>, b: seq<Entry>, p: int -> bool)
    ensures Keep(a + b, p) == Keep(a, p) + Keep(b, p)
  {
    if b == [] {
      assert a + b == a;
    } else {
      assert (a + b)[..|a + b| - 1] == a + b[..|b| - 1];
      KeepAppend(a, b[..|b| - 1], p);
    }
  }

  lemma {:induction false} KeepAll(es: seq<Entry>, p: int -> bool)
    requires forall i :: 0 <= i < |es| ==> p(es[i].key)
    ensures Keep(es, p) == es
  {
    if es != [] { KeepAll(es[..|es| - 1], p); }
  }

  lemma {:induction false} KeepNone(es: seq<Entry>, p: int -> bool)
    requires forall i :: 0 <= i < |es| ==> !p(es[i].key)
    ensures Keep(es, p) == []
  {
    if es != [] { KeepNone(es[..|es| - 1], p); }
  }

  /** Filtering three stretches, when `p` decides alike on all keys to the left and on all keys to the right. */
  lemma KeepAround(a: seq<Entry>, m: seq<Entry>, b: seq<Entry>, p: int -> bool, left: bool, right: bool)
    requires forall i :: 0 <= i < |a| ==> p(a[i].key) == left
    requires forall i :: 0 <= i < |b| ==> p(b[i].key) == right
    ensures Keep(a + m + b, p) == (if left then a else []) + Keep(m, p) + (if right then b else [])
  {
    hide Keep;
    KeepAppend(a + m, b, p);
    KeepAppend(a, m, p);
    if left { KeepAll(a, p); } else { KeepNone(a, p); }
    if right { KeepAll(b, p); } else { KeepNone(b, p); }
  }

  /** Of three stretches, keeps the middle one or the outer ones. */
  lemma KeepStretches(a: seq<Entry>, m: seq<Entry>, b: seq<Entry>, p: int -> bool, middle: bool)
    requires forall x :: 0 <= x < |a| ==> p(a[x].key) != middle
    requires forall x :: 0 <= x < |m| ==> p(m[x].key) == middle
    requires forall x :: 0 <= x < |b| ==> p(b[x].key) != middle
    ensures Keep(a + m + b, p) == if middle then m else a + b
  {
    hide Keep;
    KeepAround(a, m, b, p, !middle, !middle);
    if middle {
      KeepAll(m, p);
      assert [] + m + [] == m;
    } else {
      KeepNone(m, p);
      assert a + [] == a;
    }
  }

  /** The first index whose key is at least `k`. */
  function LowerBound(es: seq<Entry>, k: int): (i: nat)
    requires Sorted(es)
    ensures i <= |es| && (forall j :: 0 <= j < i ==> es[j].key < k) && (forall j :: i <= j < |es| ==> es[j].key >= k)
  {
    if es == [] || es[|es| - 1].key < k then |es| else LowerBound(es[..|es| - 1], k)
  }

  /** The first index whose key is greater than `k`. */
  function UpperBound(es: seq<Entry>, k: int): (i: nat)
    requires Sorted(es)
    ensures i <= |es| && (forall j :: 0 <= j < i ==> es[j].key <= k) && (forall j :: i <= j < |es| ==> es[j].key > k)
  {
    if es == [] || es[|es| - 1].key <= k then |es| else UpperBound(es[..|es| - 1], k)
  }

  lemma BoundsAreRange(es: seq<Entry>, low: int, up: int)
    requires Sorted(es) && low <= up
    ensures LowerBound(es, low) <= UpperBound(es, up)
    ensures es[LowerBound(es, low)..UpperBound(es, up)] == Keep(es, Within(low, up))
    ensures es[..LowerBound(es, low)] + es[UpperBound(es, up)..] == Keep(es, Outside(low, up))
  {
    hide Keep, LowerBound, UpperBound;
    var i, j := LowerBound(es, low), UpperBound(es, up);
    assert j < |es| ==> es[j].key > up;
    assert es == es[..i] + es[i..j] + es[j..];
    KeepStretches(es[..i], es[i..j], es[j..], Within(low, up), true);
    KeepStretches(es[..i], es[i..j], es[j..], Outside(low, up), false);
  }

  // ---------------------------------------------------------------- partitions

  ghost predicate Increasing(bounds: seq<int>) {
    forall i, j :: 0 <= i < j < |bounds| ==> bounds[i] < bounds[j]
  }

  /** The number of boundaries below `k`. */
  function LowerIndex(bounds: seq<int>, k: int): (i: nat)
    requires Increasing(bounds)
    ensures i <= |bounds| && (forall j :: 0 <= j < i ==> bounds[j] < k) && (forall j :: i <= j < |bounds| ==> bounds[j] >= k)
  {
    if bounds == [] || bounds[|bounds| - 1] < k then |bounds| else LowerIndex(bounds[..|bounds| - 1], k)
  }

  /** The number of boundaries that are at most `k`. */
  function UpperIndex(bounds: seq<int>, k: int): (i: nat)
    requires Increasing(bounds)
    ensures i <= |bounds| && (forall j :: 0 <= j < i ==> bounds[j] <= k) && (forall j :: i <= j < |bounds| ==> bounds[j] > k)
  {
    if bounds == [] || bounds[|bounds| - 1] <= k then |bounds| else UpperIndex(bounds[..|bounds| - 1], k)
  }

  /** The container a key belongs to: that of the first boundary not below it, or the last one. */
  function Part(bounds: seq<int>, k: int): (p: nat)
    requires Increasing(bounds) && bounds != []
    ensures p < |bounds|
  {
    var i := LowerIndex(bounds, k);
    if i == |bounds| then i - 1 else i
  }

  lemma PartMonotone(bounds: seq<int>, a: int, b: int)
    requires Increasing(bounds) && bounds != [] && a <= b
    ensures Part(bounds, a) <= Part(bounds, b)
  {
    var i, j := LowerIndex(bounds, a), LowerIndex(bounds, b);
    assert j < |bounds| ==> bounds[j] >= b;
  }

  function Concat(parts: seq<seq<Entry>>): seq<Entry> {
    if parts == [] then [] else Concat(parts[..|parts| - 1]) + parts[|parts| - 1]
  }

  lemma {:induction false} ConcatAppend(a: seq<seq<Entry>>, b: seq<seq<Entry>>)
    ensures Concat(a + b) == Concat(a) + Concat(b)
  {
    if b == [] {
      assert a + b == a;
    } else {
      assert (a + b)[..|a + b| - 1] == a + b[..|b| - 1];
      ConcatAppend(a, b[..|b| - 1]);
    }
  }

  /** Each container is in order and holds only keys that belong to it. */
  ghost predicate Placed(bounds: seq<int>, parts: seq<seq<Entry>>) {
    && Increasing(bounds) && bounds != [] && |parts| == |bounds|
    && (forall i :: 0 <= i < |parts| ==> Sorted(parts[i]))
    && (forall i, j :: 0 <= i < |parts| && 0 <= j < |parts[i]| ==> Part(bounds, parts[i][j].key) == i)
  }

  lemma {:induction false} ConcatHas(parts: seq<seq<Entry>>, e: Entry)
    ensures e in Concat(parts) <==> exists i :: 0 <= i < |parts| && e in parts[i]
  {
    if parts != [] {
      var last := |parts| - 1;
      ConcatHas(parts[..last], e);
      if i :| 0 <= i < |parts| && e in parts[i] {
        if i < last { assert e in parts[..last][i]; }
      }
    }
  }

  /** Keys grow from one container to the next. */
  lemma Apart(bounds: seq<int>, parts: seq<seq<Entry>>, i: nat, j: nat, a: Entry, b: Entry)
    requires Placed(bounds, parts) && i < j < |parts| && a in parts[i] && b in parts[j]
    ensures a.key < b.key
  {
    if b.key <= a.key { PartMonotone(bounds, b.key, a.key); }
  }

  /** The containers end to end are in key order. */
  lemma {:induction false} FlatIsSorted(bounds: seq<int>, parts: seq<seq<Entry>>, n: nat)
    requires Placed(bounds, parts) && n <= |parts|
    ensures Sorted(Concat(parts[..n]))
  {
    if n > 0 {
      FlatIsSorted(bounds, parts, n - 1);
      assert parts[..n][..n - 1] == parts[..n - 1];
      var flat, last := Concat(parts[..n - 1]), parts[n - 1];
      forall x, y | 0 <= x < |flat| && 0 <= y < |last| ensures flat[x].key < last[y].key {
        ConcatHas(parts[..n - 1], flat[x]);
        var i :| 0 <= i < n - 1 && flat[x] in parts[..n - 1][i];
        Apart(bounds, parts, i, n - 1, flat[x], last[y]);
      }
    }
  }

  /** Filtering each container filters the flat container. */
  lemma {:induction false} ConcatKeep(parts: seq<seq<Entry>>, kept: seq<seq<Entry>>, p: int -> bool)
    requires |kept| == |parts| && forall i :: 0 <= i < |parts| ==> kept[i] == Keep(parts[i], p)
    ensures Concat(kept) == Keep(Concat(parts), p)
  {
    if parts != [] {
      var last := |parts| - 1;
      ConcatKeep(parts[..last], kept[..last], p);
      KeepAppend(Concat(parts[..last]), parts[last], p);
    }
  }

  lemma {:induction false} KeepHas(es: seq<Entry>, p: int -> bool, e: Entry)
    ensures e in Keep(es, p) <==> e in es && p(e.key)
  {
    if es != [] {
      KeepHas(es[..|es| - 1], p, e);
      assert e in es <==> e in es[..|es| - 1] || e == es[|es| - 1];
    }
  }

  /** What the entries kept by a range, or by its complement, are. */
  lemma RangesMean(es: seq<Entry>, low: int, up: int)
    ensures forall e :: e in Keep(es, Within(low, up)) <==> e in es && low <= e.key <= up
    ensures forall e :: e in Keep(es, Outside(low, up)) <==> e in es && !(low <= e.key <= up)
  {
    hide Keep;
    forall e ensures e in Keep(es, Within(low, up)) <==> e in es && low <= e.key <= up {
      KeepHas(es, Within(low, up), e);
    }
    forall e ensures e in Keep(es, Outside(low, up)) <==> e in es && !(low <= e.key <= up) {
      KeepHas(es, Outside(low, up), e);
    }
  }

  lemma {:induction false} KeepSorted(es: seq<Entry>, p: int -> bool)
    requires Sorted(es)
    ensures Sorted(Keep(es, p))
  {
    if es != [] {
      var init, last := es[..|es| - 1], es[|es| - 1];
      KeepSorted(init, p);
      var r := Keep(init, p);
      forall i | 0 <= i < |r| ensures r[i].key < last.key {
        KeepHas(init, p, r[i]);
      }
    }
  }

  /** A container outside those of `low` and `up` has no key between them. */
  lemma NothingBetween(bounds: seq<int>, parts: seq<seq<Entry>>, i: nat, low: int, up: int)
    requires Placed(bounds, parts) && i < |parts| && (i < Part(bounds, low) || Part(bounds, up) < i)
    ensures Keep(parts[i], Within(low, up)) == [] && Keep(parts[i], Outside(low, up)) == parts[i]
  {
    hide Keep, Part;
    var es := parts[i];
    forall j | 0 <= j < |es| ensures !(low <= es[j].key <= up) {
      if low <= es[j].key <= up {
        PartMonotone(bounds, low, es[j].key);
        PartMonotone(bounds, es[j].key, up);
      }
    }
    KeepNone(es, Within(low, up));
    KeepAll(es, Outside(low, up));
  }

  lemma {:induction false} NothingBefore(bounds: seq<int>, parts: seq<seq<Entry>>, n: nat, low: int, up: int)
    requires Placed(bounds, parts) && n <= |parts| && n <= Part(bounds, low)
    ensures Keep(Concat(parts[..n]), Within(low, up)) == []
  {
    hide Keep;
    if n == 0 {
      KeepNone([], Within(low, up));
    } else {
      NothingBefore(bounds, parts, n - 1, low, up);
      assert parts[..n][..n - 1] == parts[..n - 1];
      KeepAppend(Concat(parts[..n - 1]), parts[n - 1], Within(low, up));
      NothingBetween(bounds, parts, n - 1, low, up);
    }
  }

  lemma {:induction false} NothingAfter(bounds: seq<int>, parts: seq<seq<Entry>>, n: nat, m: nat, low: int, up: int)
    requires Placed(bounds, parts) && n <= m <= |parts| && Part(bounds, up) < n
    ensures Keep(Concat(parts[..m]), Within(low, up)) == Keep(Concat(parts[..n]), Within(low, up))
  {
    hide Keep;
    if n < m {
      NothingAfter(bounds, parts, n, m - 1, low, up);
      assert parts[..m][..m - 1] == parts[..m - 1];
      KeepAppend(Concat(parts[..m - 1]), parts[m - 1], Within(low, up));
      NothingBetween(bounds, parts, m - 1, low, up);
    }
  }

  lemma ConcatNext(parts: seq<seq<Entry>>, n: nat)
    requires n < |parts|
    ensures Concat(parts[..n + 1]) == Concat(parts[..n]) + parts[n]
  {
    assert parts[..n + 1][..n] == parts[..n];
  }

  /** Where the loops over containers stop: one past the first boundary above `up`. */
  function EndIndex(bounds: seq<int>, up: int): (i: nat)
    requires Increasing(bounds) && bounds != []
    ensures Part(bounds, up) < i <= |bounds|
  {
    var i := UpperIndex(bounds, up);
    assert LowerIndex(bounds, up) <= i by {
      assert i < |bounds| ==> bounds[i] > up;
    }
    if i == |bounds| then i else i + 1
  }

  class SafeMap {
    const bounds: seq<int>
    var parts: seq<seq<Entry>>

    ghost predicate Valid()
      reads this
    {
      Placed(bounds, parts)
    }

    /** The flat container this map stands for. */
    ghost function Flat(): seq<Entry>
      reads this
    {
      Concat(parts)
    }

    constructor (bounds: seq<int>)
      requires Increasing(bounds) && bounds != []
      ensures Valid() && Flat() == [] && this.bounds == bounds
    {
      this.bounds := bounds;
      parts := seq(|bounds|, _ => []);
      new;
      AllEmpty(parts);
    }

    method Clear()
      requires Valid()
      modifies this
      ensures Valid() && Flat() == []
    {
      var i := 0;
      while i < |parts|
        invariant i <= |parts| == |bounds| && forall j :: 0 <= j < i ==> parts[j] == []
        invariant Placed(bounds, parts)
      {
        parts := parts[i := []];
        i := i + 1;
      }
      AllEmpty(parts);
    }

    method Size() returns (n: nat)
      requires Valid()
      ensures n == |Flat()|
    {
      n := 0;
      var i := 0;
      while i < |parts|
        invariant i <= |parts| && n == |Concat(parts[..i])|
      {
        ConcatNext(parts, i);
        n := n + |parts[i]|;
        i := i + 1;
      }
      assert parts[..i] == parts;
    }

    /** Adds an entry unless its key is there already. */
    method Emplace(e: Entry)
      requires Valid()
      modifies this
      ensures Valid() && Flat() == Inserted(old(Flat()), e)
    {
      hide Concat, Inserted, Part, LowerBound, Sorted, Placed;
      PlacedFacts(bounds, parts);
      var p := Part(bounds, e.key);
      var es := parts[p];
      var i := LowerBound(es, e.key);
      InsertedAt(es, e);
      InsertedInPart(bounds, parts, p, e);
      if i == |es| || es[i].key != e.key {
        parts := parts[p := es[..i] + [e] + es[i..]];
      } else {
        assert parts == parts[p := es];
      }
    }

    method Erase(k: int) returns (n: nat)
      requires Valid()
      modifies this
      ensures Valid() && Flat() == Keep(old(Flat()), Outside(k, k))
      ensures n == |Keep(old(Flat()), Within(k, k))|
      ensures forall e :: e in Flat() <==> e in old(Flat()) && e.key != k
    {
      hide Keep, Concat, Part, LowerBound, UpperBound, Sorted, Placed, Outside, Within;
      PlacedFacts(bounds, parts);
      var p := Part(bounds, k);
      var es := parts[p];
      var i, j := LowerBound(es, k), UpperBound(es, k);
      BoundsAreRange(es, k, k);
      ErasedInPart(bounds, parts, p, k);
      RangesMean(Concat(parts), k, k);
      n := j - i;
      parts := parts[p := es[..i] + es[j..]];
    }

    method GetRangeEqual(k: int) returns (r: seq<Entry>)
      requires Valid()
      ensures r == Keep(Flat(), Within(k, k))
      ensures forall e :: e in r <==> e in Flat() && e.key == k
    {
      hide Keep, Concat, Part, LowerBound, UpperBound, Sorted, Placed, Outside, Within;
      PlacedFacts(bounds, parts);
      var p := Part(bounds, k);
      var es := parts[p];
      BoundsAreRange(es, k, k);
      ErasedInPart(bounds, parts, p, k);
      RangesMean(Concat(parts), k, k);
      r := es[LowerBound(es, k)..UpperBound(es, k)];
    }

    method GetRangeLowerUpper(low: int, up: int) returns (r: seq<Entry>)
      requires Valid() && low <= up
      ensures r == Keep(Flat(), Within(low, up))
      ensures Sorted(r) && forall e :: e in r <==> e in Flat() && low <= e.key <= up
    {
      hide Keep, Concat, Part, LowerBound, UpperBound, Sorted;
      r := [];
      var end := EndIndex(bounds, up);
      var it := Part(bounds, low);
      PartMonotone(bounds, low, up);
      NothingBefore(bounds, parts, it, low, up);
      while it != end
        invariant it <= end && r == Keep(Concat(parts[..it]), Within(low, up))
        decreases end - it
      {
        var es := parts[it];
        ConcatNext(parts, it);
        KeepAppend(Concat(parts[..it]), es, Within(low, up));
        BoundsAreRange(es, low, up);
        r := r + es[LowerBound(es, low)..UpperBound(es, up)];
        it := it + 1;
      }
      NothingAfter(bounds, parts, end, |parts|, low, up);
      assert parts[..|parts|] == parts;
      FlatIsSorted(bounds, parts, |parts|);
      KeepSorted(Concat(parts), Within(low, up));
      RangesMean(Concat(parts), low, up);
    }

    method EraseLowerUpper(low: int, up: int)
      requires Valid() && low <= up
      modifies this
      ensures Valid() && Flat() == Keep(old(Flat()), Outside(low, up))
      ensures forall e :: e in Flat() <==> e in old(Flat()) && !(low <= e.key <= up)
    {
      hide Keep, Concat, Part, LowerBound, UpperBound, Sorted, Placed, Outside;
      ghost var was := parts;
      PlacedFacts(bounds, parts);
      var end := EndIndex(bounds, up);
      var it := Part(bounds, low);
      ghost var from := it;
      PartMonotone(bounds, low, up);
      while it != end
        invariant from <= it <= end && |parts| == |was|
        invariant forall i :: from <= i < it ==> parts[i] == Keep(was[i], Outside(low, up))
        invariant forall i :: 0 <= i < |was| && !(from <= i < it) ==> parts[i] == was[i]
        decreases end - it
      {
        var es := parts[it];
        BoundsAreRange(es, low, up);
        parts := parts[it := es[..LowerBound(es, low)] + es[UpperBound(es, up)..]];
        it := it + 1;
      }
      forall i | 0 <= i < |was| ensures parts[i] == Keep(was[i], Outside(low, up)) {
        if !(from <= i < end) { NothingBetween(bounds, was, i, low, up); }
      }
      ConcatKeep(was, parts, Outside(low, up));
      RangesMean(Concat(was), low, up);
      StillPlaced(bounds, was, parts, Outside(low, up));
    }
  }

  lemma {:induction false} AllEmpty(parts: seq<seq<Entry>>)
    requires forall i :: 0 <= i < |parts| ==> parts[i] == []
    ensures Concat(parts) == []
  {
    if parts != [] { AllEmpty(parts[..|parts| - 1]); }
  }

  lemma PlacedFacts(bounds: seq<int>, parts: seq<seq<Entry>>)
    requires Placed(bounds, parts)
    ensures Increasing(bounds) && bounds != [] && |parts| == |bounds|
    ensures forall i :: 0 <= i < |parts| ==> Sorted(parts[i])
  {
  }

  lemma StillPlaced(bounds: seq<int>, was: seq<seq<Entry>>, parts: seq<seq<Entry>>, p: int -> bool)
    requires Placed(bounds, was) && |parts| == |was| && forall i :: 0 <= i < |was| ==> parts[i] == Keep(was[i], p)
    ensures Placed(bounds, parts)
  {
    hide Keep, Part;
    forall i | 0 <= i < |parts| ensures Sorted(parts[i]) {
      KeepSorted(was[i], p);
    }
    forall i, j | 0 <= i < |parts| && 0 <= j < |parts[i]| ensures Part(bounds, parts[i][j].key) == i {
      KeepHas(was[i], p, parts[i][j]);
    }
  }

  // ---------------------------------------------------------------- one container at a time

  lemma AroundPart(parts: seq<seq<Entry>>, p: nat, es: seq<Entry>)
    requires p < |parts|
    ensures Concat(parts[p := es]) == Concat(parts[..p]) + es + Concat(parts[p + 1..])
  {
    hide Concat;
    assert parts[p := es] == parts[..p] + [es] + parts[p + 1..];
    ConcatAppend(parts[..p] + [es], parts[p + 1..]);
    ConcatAppend(parts[..p], [es]);
    ConcatOne(es);
  }

  lemma ConcatOne(es: seq<Entry>)
    ensures Concat([es]) == es
  {
    assert [es][..0] == [];
  }

  /** The containers before that of `k` hold smaller keys, and those after it greater ones. */
  lemma Sides(bounds: seq<int>, parts: seq<seq<Entry>>, k: int)
    requires Placed(bounds, parts)
    ensures var p := Part(bounds, k); var a, b := Concat(parts[..p]), Concat(parts[p + 1..]);
      (forall i :: 0 <= i < |a| ==> a[i].key < k) && (forall i :: 0 <= i < |b| ==> b[i].key > k)
  {
    hide Concat;
    var p := Part(bounds, k);
    var a, b := Concat(parts[..p]), Concat(parts[p + 1..]);
    forall i | 0 <= i < |a| ensures a[i].key < k {
      ConcatHas(parts[..p], a[i]);
      var x :| 0 <= x < p && a[i] in parts[..p][x];
      if k <= a[i].key { PartMonotone(bounds, k, a[i].key); }
    }
    forall i | 0 <= i < |b| ensures b[i].key > k {
      ConcatHas(parts[p + 1..], b[i]);
      var x :| 0 <= x < |parts| - p - 1 && b[i] in parts[p + 1..][x];
      assert b[i] in parts[p + 1 + x];
      if b[i].key <= k { PartMonotone(bounds, b[i].key, k); }
    }
  }

  lemma ErasedInPart(bounds: seq<int>, parts: seq<seq<Entry>>, p: nat, k: int)
    requires Placed(bounds, parts) && p == Part(bounds, k)
    ensures Keep(Concat(parts), Within(k, k)) == Keep(parts[p], Within(k, k))
    ensures var next := parts[p := Keep(parts[p], Outside(k, k))];
      Placed(bounds, next) && Concat(next) == Keep(Concat(parts), Outside(k, k))
  {
    hide Keep, Concat, Part;
    Sides(bounds, parts, k);
    var a, es, b := Concat(parts[..p]), parts[p], Concat(parts[p + 1..]);
    AroundPart(parts, p, es);
    assert parts == parts[p := es];
    KeepAround(a, es, b, Within(k, k), false, false);
    KeepAround(a, es, b, Outside(k, k), true, true);
    AroundPart(parts, p, Keep(es, Outside(k, k)));
    KeepSorted(es, Outside(k, k));
    forall e ensures e in Keep(es, Outside(k, k)) ==> e in es { KeepHas(es, Outside(k, k), e); }
    ReplacePart(bounds, parts, p, Keep(es, Outside(k, k)));
  }

  lemma ReplacePart(bounds: seq<int>, parts: seq<seq<Entry>>, p: nat, es: seq<Entry>)
    requires Placed(bounds, parts) && p < |parts| && Sorted(es)
    requires forall i :: 0 <= i < |es| ==> es[i] in parts[p] || Part(bounds, es[i].key) == p
    ensures Placed(bounds, parts[p := es])
  {
    hide Part;
  }

  lemma InsertedAround(a: seq<Entry>, es: seq<Entry>, b: seq<Entry>, e: Entry)
    requires (forall i :: 0 <= i < |a| ==> a[i].key < e.key) && (forall i :: 0 <= i < |b| ==> b[i].key > e.key)
    ensures Inserted(a + es + b, e) == a + Inserted(es, e) + b
  {
    hide Keep;
    var k := e.key;
    KeepAround(a, es, b, Within(k, k), false, false);
    KeepAround(a, es, b, Below(k), true, false);
    KeepAround(a, es, b, Above(k), false, true);
  }

  lemma KeyTaken(es: seq<Entry>, i: nat, e: Entry)
    requires i < |es| && es[i].key == e.key
    ensures Inserted(es, e) == es
  {
    KeepHas(es, Within(e.key, e.key), es[i]);
  }

  lemma InsertedAlone(e: Entry)
    ensures Inserted([], e) == [e]
  {
  }

  /** Where an entry goes in an ordered container. */
  lemma InsertedAt(es: seq<Entry>, e: Entry)
    requires Sorted(es)
    ensures var i := LowerBound(es, e.key);
      Inserted(es, e) == if i < |es| && es[i].key == e.key then es else es[..i] + [e] + es[i..]
  {
    hide Inserted, LowerBound, Sorted;
    var i := LowerBound(es, e.key);
    if i < |es| && es[i].key == e.key {
      KeyTaken(es, i, e);
    } else {
      var a, b := es[..i], es[i..];
      assert a + [] == a && a + b == es;
      BothSides(es, i, e.key);
      InsertedAround(a, [], b, e);
      InsertedAlone(e);
    }
  }

  lemma BothSides(es: seq<Entry>, i: nat, k: int)
    requires Sorted(es) && i <= |es| && (forall j :: 0 <= j < i ==> es[j].key < k)
    requires i < |es| ==> es[i].key > k
    ensures (forall x :: 0 <= x < i ==> es[..i][x].key < k) && (forall x :: 0 <= x < |es| - i ==> es[i..][x].key > k)
  {
  }

  lemma InsertedSorted(es: seq<Entry>, e: Entry)
    requires Sorted(es)
    ensures Sorted(Inserted(es, e))
    ensures forall i :: 0 <= i < |Inserted(es, e)| ==> Inserted(es, e)[i] in es || Inserted(es, e)[i] == e
  {
    hide Inserted, LowerBound;
    InsertedAt(es, e);
  }

  lemma InsertedInPart(bounds: seq<int>, parts: seq<seq<Entry>>, p: nat, e: Entry)
    requires Placed(bounds, parts) && p == Part(bounds, e.key)
    ensures var next := parts[p := Inserted(parts[p], e)];
      Placed(bounds, next) && Concat(next) == Inserted(Concat(parts), e)
  {
    hide Inserted, Concat, Part;
    Sides(bounds, parts, e.key);
    var a, es, b := Concat(parts[..p]), parts[p], Concat(parts[p + 1..]);
    AroundPart(parts, p, es);
    assert parts == parts[p := es];
    AroundPart(parts, p, Inserted(es, e));
    InsertedSorted(es, e);
    InsertedAround(a, es, b, e);
    ReplacePart(bounds, parts, p, Inserted(es, e));
  }

  // ---------------------------------------------------------------- what the flat container is

  /** Inserting keeps the key order and adds exactly the new entry, unless its key was taken. */
  lemma InsertedLaws(es: seq<Entry>, e: Entry, x: Entry)
    requires Sorted(es)
    ensures Sorted(Inserted(es, e))
    ensures x in Inserted(es, e) <==> x in es || (x == e && forall y :: y in es ==> y.key != e.key)
  {
    hide Inserted, LowerBound;
    InsertedAt(es, e);
    InsertedSorted(es, e);
    var i := LowerBound(es, e.key);
    assert es == es[..i] + es[i..];
    if i < |es| && es[i].key == e.key { assert es[i] in es; }
  }
}
