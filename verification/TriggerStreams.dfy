/**
  The two triggers that cut a stream of objects: by-batch-size, which hands on every
  object in batches, and redundant, which hands on the first `k` of every round and drops
  the rest. Their laws are about unbounded streams that no clear message interrupts.
 */
module TriggerStreams {
  import opened Triggers

  type Item = (Session, Key)

  /** What a trigger has collected and what it has fired so far. */
  datatype Stream = Stream(count: nat, buffer: seq<Item>, fired: seq<seq<Item>>)

  function Flatten(batches: seq<seq<Item>>): seq<Item> {
    if batches == [] then [] else Flatten(batches[..|batches| - 1]) + batches[|batches| - 1]
  }

  // ---------------------------------------------------------------- by batch size

  /** The comparison of a size with a signed count: a negative count turns into a huge one. */
  predicate BatchFull(size: nat, count: int) {
    count >= 0 && size >= count
  }

  function BatchNext(count: int, s: Stream, x: Item): Stream {
    var buffer := s.buffer + [x];
    if BatchFull(|buffer|, count) then s.(buffer := [], fired := s.fired + [buffer]) else s.(buffer := buffer)
  }

  function BatchRun(count: int, xs: seq<Item>): Stream {
    if xs == [] then Stream(0, [], []) else BatchNext(count, BatchRun(count, xs[..|xs| - 1]), xs[|xs| - 1])
  }

  /** Nothing is lost, repeated or reordered, and every batch has the full size: `count`, or one if that is zero. */
  lemma {:induction false} BatchLaw(count: int, xs: seq<Item>)
    ensures var s := BatchRun(count, xs); var size := if count == 0 then 1 else count;
      && Flatten(s.fired) + s.buffer == xs
      && (forall j :: 0 <= j < |s.fired| ==> |s.fired[j]| == size)
      && (count >= 0 ==> |s.buffer| < size)
  {
    hide Flatten;
    FlattenNone();
    if xs != [] {
      var init, x := xs[..|xs| - 1], xs[|xs| - 1];
      BatchLaw(count, init);
      var before := BatchRun(count, init);
      assert xs == init + [x];
      FlattenOneMore(before.fired, before.buffer + [x]);
      assert Flatten(before.fired) + before.buffer + [x] == xs;
    }
  }

  lemma FlattenNone()
    ensures Flatten([]) == []
  {
  }

  lemma FlattenOneMore(batches: seq<seq<Item>>, batch: seq<Item>)
    ensures Flatten(batches + [batch]) == Flatten(batches) + batch
  {
    assert (batches + [batch])[..|batches|] == batches;
  }

  class ByBatchSizeTrigger {
    const function_: string
    const count: int
    var buffer: seq<Item>

    constructor (function_: string, count: int)
      ensures this.function_ == function_ && this.count == count && buffer == []
    {
      this.function_, this.count, buffer := function_, count, [];
    }

    method ActionForNewObject(session: Session, key: Key) returns (actions: seq<Action>)
      modifies this
      ensures var next := BatchNext(count, Stream(0, old(buffer), []), (session, key));
        && buffer == next.buffer
        && actions == if next.fired == [] then [] else [Action(function_, next.fired[0])]
    {
      actions := [];
      buffer := buffer + [(session, key)];
      if BatchFull(|buffer|, count) {
        actions := [Action(function_, buffer)];
        buffer := [];
      }
    }

    method Clear()
      modifies this
      ensures buffer == []
    {
      buffer := [];
    }
  }

  // ---------------------------------------------------------------- redundant

  function RedundantNext(k: nat, n: nat, s: Stream, x: Item): Stream {
    var count := s.count + 1;
    if count <= k then
      var buffer := s.buffer + [x];
      if count == k then Stream(count, [], s.fired + [buffer]) else Stream(count, buffer, s.fired)
    else if count >= n then s.(count := 0)
    else s.(count := count)
  }

  function RedundantRun(k: nat, n: nat, s: Stream, xs: seq<Item>): Stream {
    if xs == [] then s else RedundantNext(k, n, RedundantRun(k, n, s, xs[..|xs| - 1]), xs[|xs| - 1])
  }

  /** After how many objects a round starts over: `n`, or one more than `k` if `k` is not below `n`. */
  function Period(k: nat, n: nat): nat {
    if k < n then n else k + 1
  }

  /** The first `k` of every `period` objects. */
  function Heads(k: nat, period: nat, xs: seq<Item>): (r: seq<seq<Item>>)
    requires k < period
    decreases |xs|
  {
    if |xs| < k then [] else if |xs| < period then [xs[..k]] else [xs[..k]] + Heads(k, period, xs[period..])
  }

  /** The state within a round: objects are collected up to the `k`-th and dropped from there on. */
  function InRound(k: nat, period: nat, fired: seq<seq<Item>>, xs: seq<Item>): Stream {
    if |xs| < k then Stream(|xs|, xs, fired)
    else Stream(if |xs| < period then |xs| else 0, [], fired + [xs[..k]])
  }

  lemma NextInRound(k: nat, n: nat, fired: seq<seq<Item>>, xs: seq<Item>, x: Item)
    requires 1 <= k && |xs| < Period(k, n)
    ensures RedundantNext(k, n, InRound(k, Period(k, n), fired, xs), x) == InRound(k, Period(k, n), fired, xs + [x])
  {
    if |xs| + 1 == k {
      assert (xs + [x])[..k] == xs + [x];
    } else if |xs| >= k {
      assert (xs + [x])[..k] == xs[..k];
    }
  }

  lemma {:induction false} OneRound(k: nat, n: nat, fired: seq<seq<Item>>, xs: seq<Item>)
    requires 1 <= k && |xs| <= Period(k, n)
    ensures RedundantRun(k, n, Stream(0, [], fired), xs) == InRound(k, Period(k, n), fired, xs)
  {
    if xs != [] {
      hide InRound, RedundantNext;
      var init, x := xs[..|xs| - 1], xs[|xs| - 1];
      OneRound(k, n, fired, init);
      NextInRound(k, n, fired, init, x);
      assert init + [x] == xs;
    }
  }

  lemma {:induction false} RunAppend(k: nat, n: nat, s: Stream, xs: seq<Item>, ys: seq<Item>)
    ensures RedundantRun(k, n, s, xs + ys) == RedundantRun(k, n, RedundantRun(k, n, s, xs), ys)
  {
    if ys == [] {
      assert xs + ys == xs;
    } else {
      assert (xs + ys)[..|xs + ys| - 1] == xs + ys[..|ys| - 1];
      RunAppend(k, n, s, xs, ys[..|ys| - 1]);
    }
  }

  /** The trigger fires exactly the first `k` objects of every round, for any `n`. */
  lemma {:induction false} RedundantFires(k: nat, n: nat, fired: seq<seq<Item>>, xs: seq<Item>)
    requires 1 <= k
    ensures RedundantRun(k, n, Stream(0, [], fired), xs).fired == fired + Heads(k, Period(k, n), xs)
    decreases |xs|
  {
    var p := Period(k, n);
    if |xs| < p {
      OneRound(k, n, fired, xs);
    } else {
      var head, rest := xs[..p], xs[p..];
      hide RedundantNext, RedundantRun;
      assert xs == head + rest && head[..k] == xs[..k];
      RunAppend(k, n, Stream(0, [], fired), head, rest);
      OneRound(k, n, fired, head);
      RedundantFires(k, n, fired + [xs[..k]], rest);
    }
  }

  /** Where round `j` starts. */
  function RoundStart(period: nat, j: nat): nat {
    if j == 0 then 0 else period + RoundStart(period, j - 1)
  }

  lemma {:induction false} RoundStartIsProduct(period: nat, j: nat)
    ensures RoundStart(period, j) == j * period
  {
    if j > 0 { RoundStartIsProduct(period, j - 1); }
  }

  /** Which objects those are. */
  lemma {:induction false} HeadAt(k: nat, period: nat, xs: seq<Item>, j: nat)
    requires k < period
    ensures j < |Heads(k, period, xs)| <==> RoundStart(period, j) + k <= |xs|
    ensures j < |Heads(k, period, xs)| ==> Heads(k, period, xs)[j] == xs[RoundStart(period, j)..RoundStart(period, j) + k]
    decreases j
  {
    if j > 0 && |xs| >= period {
      HeadAt(k, period, xs[period..], j - 1);
    }
  }

  /** With `k` zero the trigger never fires. */
  lemma {:induction false} NeverFires(n: nat, s: Stream, xs: seq<Item>)
    ensures RedundantRun(0, n, s, xs).fired == s.fired
  {
    if xs != [] { NeverFires(n, s, xs[..|xs| - 1]); }
  }

  class RedundantTrigger {
    const function_: string
    const k: nat
    const n: nat
    var count: nat
    var buffer: seq<Item>

    constructor (function_: string, k: nat, n: nat)
      ensures this.function_ == function_ && this.k == k && this.n == n && count == 0 && buffer == []
    {
      this.function_, this.k, this.n, count, buffer := function_, k, n, 0, [];
    }

    method ActionForNewObject(session: Session, key: Key) returns (actions: seq<Action>)
      modifies this
      ensures var next := RedundantNext(k, n, Stream(old(count), old(buffer), []), (session, key));
        && count == next.count && buffer == next.buffer
        && actions == if next.fired == [] then [] else [Action(function_, next.fired[0])]
    {
      actions := [];
      count := count + 1;
      if count <= k {
        buffer := buffer + [(session, key)];
        if count == k {
          actions := [Action(function_, buffer)];
          buffer := [];
        }
      } else if count >= n {
        count := 0;
      }
    }

    method Clear()
      modifies this
      ensures count == old(count) + k && buffer == []
    {
      count := count + k;
      buffer := [];
    }
  }
}
