/**
  Where the local scheduler sends a function call: to an executor of its node, or, when
  none will do, to the delay queue, which every turn of the scheduler's loop drains.

  The clock and the random choice among executors are left open: a method may read
  any later time and pick any eligible executor.
 */
module Dispatcher {
  import opened Options

  datatype Call = Call(session: string, func: string, args: seq<string>, flag: nat)

  /** A call that waits in the delay queue since a given time. */
  datatype Delayed = Delayed(call: Call, since: nat)

  datatype Sent = Sent(exec: nat, call: Call)

  // Executor states, as the scheduler numbers them.
  const EMPTY: nat := 0
  const AVAILABLE: nat := 1
  const AWAIT: nat := 2
  const BUSY: nat := 3

  // ---------------------------------------------------------------- choosing an executor

  predicate Free(st: nat) { st == EMPTY || st == AVAILABLE }

  predicate Warm(st: nat, known: set<nat>, e: nat) { st == AVAILABLE && e in known }

  predicate Cold(st: nat, shared: bool) { st == EMPTY || (shared && st == AVAILABLE) }

  predicate Eligible(status: seq<nat>, known: set<nat>, shared: bool, e: nat) {
    e < |status| && (Warm(status[e], known, e) || Cold(status[e], shared))
  }

  /** The executors that have a function loaded. */
  function KnownIn(warm: map<string, set<nat>>, func: string): set<nat> {
    if func in warm then warm[func] else {}
  }

  /** Some executor may take a call of the function. */
  ghost predicate Suits(status: seq<nat>, warm: map<string, set<nat>>, shared: bool, func: string) {
    exists e :: Eligible(status, KnownIn(warm, func), shared, e)
  }

  ghost predicate NoWarm(status: seq<nat>, known: set<nat>, upTo: nat) {
    forall e :: 0 <= e < upTo && e < |status| ==> !Warm(status[e], known, e)
  }

  /** The executor a call may go to: the first warm one, and any cold one when none is warm. */
  ghost predicate Chosen(status: seq<nat>, known: set<nat>, shared: bool, e: nat) {
    && e < |status|
    && if Warm(status[e], known, e) then NoWarm(status, known, e)
       else NoWarm(status, known, |status|) && Cold(status[e], shared)
  }

  /** The first available executor that has the function loaded; if there is none, an empty one, or any free one when they are shared. */
  method Select(status: seq<nat>, known: set<nat>, shared: bool) returns (pick: Option<nat>)
    ensures pick.Some? ==> Chosen(status, known, shared, pick.value)
    ensures pick.None? ==> forall e :: !Eligible(status, known, shared, e)
    ensures pick.Some? ==>
              var p := pick.value;
              && p < |status| && (status[p] == 0 || status[p] == 1)
              && (forall e :: 0 <= e < p ==> !(status[e] == 1 && e in known))
              && (status[p] == 0 || p !in known ==>
                    (status[p] == 0 || shared) && forall e :: 0 <= e < |status| ==> !(status[e] == 1 && e in known))
    ensures pick.None? ==>
      forall e :: 0 <= e < |status| ==> status[e] != 0 && !(status[e] == 1 && (shared || e in known))
  {
    var colds: seq<nat> := [];
    var e := 0;
    while e < |status|
      invariant e <= |status| && NoWarm(status, known, e)
      invariant forall x :: x in colds ==> x < |status| && Cold(status[x], shared)
      invariant forall x :: 0 <= x < e && Cold(status[x], shared) ==> x in colds
    {
      if Warm(status[e], known, e) {
        return Some(e);
      }
      if Cold(status[e], shared) {
        colds := colds + [e];
      }
      e := e + 1;
    }
    if colds == [] {
      return None;
    }
    var i :| 0 <= i < |colds|;
    assert colds[i] in colds;
    return Some(colds[i]);
  }

  // ---------------------------------------------------------------- counting executors

  function Avail(status: seq<nat>): nat {
    if status == [] then 0
    else Avail(status[..|status| - 1]) + if Free(status[|status| - 1]) then 1 else 0
  }

  /** It counts the executors that are empty or available. */
  lemma {:induction false} AvailCountsFree(status: seq<nat>)
    ensures Avail(status) == |set e | 0 <= e < |status| && (status[e] == 0 || status[e] == 1)|
  {
    var free := set e | 0 <= e < |status| && (status[e] == 0 || status[e] == 1);
    if status != [] {
      var last := |status| - 1;
      var before := set e | 0 <= e < last && (status[..last][e] == 0 || status[..last][e] == 1);
      AvailCountsFree(status[..last]);
      assert before == set e | 0 <= e < |status[..last]| && (status[..last][e] == 0 || status[..last][e] == 1);
      assert free == before + if Free(status[last]) then {last} else {};
    }
  }

  lemma {:induction false} TakingOneExecutor(status: seq<nat>, e: nat)
    requires e < |status| && Free(status[e])
    ensures Avail(status[e := AWAIT]) + 1 == Avail(status)
  {
    var last := |status| - 1;
    if e < last {
      TakingOneExecutor(status[..last], e);
      assert status[e := AWAIT][..last] == status[..last][e := AWAIT];
    } else {
      assert status[e := AWAIT][..last] == status[..last];
    }
  }

  lemma {:induction false} SomeoneFree(status: seq<nat>) returns (e: nat)
    requires Avail(status) > 0
    ensures e < |status| && Free(status[e])
  {
    if Free(status[|status| - 1]) {
      e := |status| - 1;
    } else {
      e := SomeoneFree(status[..|status| - 1]);
    }
  }

  // ---------------------------------------------------------------- books

  function SentCalls(sent: seq<Sent>): (r: seq<Call>)
    ensures |r| == |sent|
  {
    seq(|sent|, i requires 0 <= i < |sent| => sent[i].call)
  }

  function QueuedCalls(queue: seq<Delayed>): (r: seq<Call>)
    ensures |r| == |queue|
  {
    seq(|queue|, i requires 0 <= i < |queue| => queue[i].call)
  }

  /** All the calls the scheduler has a record of. */
  ghost function Accounted(sent: seq<Sent>, queue: seq<Delayed>, forwarded: seq<Call>, rejected: seq<Call>): multiset<Call> {
    multiset(SentCalls(sent)) + multiset(QueuedCalls(queue)) + multiset(forwarded) + multiset(rejected)
  }

  /** The queue is in order of time, and no entry is from the future. */
  ghost predicate InTimeOrder(queue: seq<Delayed>, clock: nat) {
    && (forall i, j :: 0 <= i < j < |queue| ==> queue[i].since <= queue[j].since)
    && (forall i :: 0 <= i < |queue| ==> queue[i].since <= clock)
  }

  /** All these calls have waited too long. */
  ghost predicate GaveUpOn(calls: seq<Delayed>, clock: nat, maxDelay: nat) {
    forall i :: 0 <= i < |calls| ==> clock - calls[i].since > maxDelay
  }

  /** The dispatches `news` took executors that were free, no two the same, and nothing else changed. */
  ghost predicate Took(before: seq<nat>, after: seq<nat>, news: seq<Sent>) {
    && |after| == |before|
    && (forall i :: 0 <= i < |news| ==> news[i].exec < |before| && Free(before[news[i].exec]))
    && (forall i, j :: 0 <= i < j < |news| ==> news[i].exec != news[j].exec)
    && (forall e :: 0 <= e < |before| ==>
          after[e] == if exists i :: 0 <= i < |news| && news[i].exec == e then AWAIT else before[e])
    && Avail(after) + |news| == Avail(before)
  }

  lemma TookOne(before: seq<nat>, now: seq<nat>, news: seq<Sent>, s: Sent)
    requires Took(before, now, news) && s.exec < |now| && Free(now[s.exec])
    ensures Took(before, now[s.exec := AWAIT], news + [s])
  {
    TakingOneExecutor(now, s.exec);
    var after, all := now[s.exec := AWAIT], news + [s];
    forall e | 0 <= e < |before|
      ensures after[e] == if exists i :: 0 <= i < |all| && all[i].exec == e then AWAIT else before[e]
    {
      if e == s.exec { assert all[|news|].exec == e; }
      if i :| 0 <= i < |news| && news[i].exec == e { assert all[i].exec == e; }
    }
  }

  lemma AddSent(sent: seq<Sent>, s: Sent)
    ensures SentCalls(sent + [s]) == SentCalls(sent) + [s.call]
  {
  }

  lemma AddQueued(queue: seq<Delayed>, d: Delayed)
    ensures QueuedCalls(queue + [d]) == QueuedCalls(queue) + [d.call]
  {
  }

  /** Whichever book a call is entered in, the total grows by that call. */
  lemma OneMoreCall(sent: seq<Sent>, queue: seq<Delayed>, forwarded: seq<Call>, rejected: seq<Call>, e: nat, t: nat, call: Call)
    ensures var all := Accounted(sent, queue, forwarded, rejected) + multiset{call};
      && Accounted(sent + [Sent(e, call)], queue, forwarded, rejected) == all
      && Accounted(sent, queue + [Delayed(call, t)], forwarded, rejected) == all
      && Accounted(sent, queue, forwarded + [call], rejected) == all
      && Accounted(sent, queue, forwarded, rejected + [call]) == all
  {
    hide SentCalls, QueuedCalls;
    AddSent(sent, Sent(e, call));
    AddQueued(queue, Delayed(call, t));
  }

  lemma PopQueued(queue: seq<Delayed>)
    requires queue != []
    ensures QueuedCalls(queue) == [queue[0].call] + QueuedCalls(queue[1..])
  {
  }

  // ---------------------------------------------------------------- the scheduler

  class Scheduler {
    const shared: bool
    const reject: bool
    const maxDelay: nat
    var status: seq<nat>
    var warm: map<string, set<nat>>
    var queue: seq<Delayed>
    var clock: nat
    var sent: seq<Sent>
    var forwarded: seq<Call>
    ghost var rejected: seq<Call>
    ghost var submitted: multiset<Call>

    constructor (executors: nat, shared: bool, reject: bool, maxDelay: nat, clock: nat)
      ensures Valid() && this.shared == shared && this.reject == reject && this.maxDelay == maxDelay
      ensures submitted == multiset{} && status == seq(executors, _ => AWAIT)
    {
      this.shared, this.reject, this.maxDelay := shared, reject, maxDelay;
      status, warm, queue, this.clock := seq(executors, _ => AWAIT), map[], [], clock;
      sent, forwarded, rejected, submitted := [], [], [], multiset{};
    }

    /** Every call ever submitted is dispatched, forwarded, rejected or still queued. */
    ghost predicate Valid()
      reads this
    {
      && submitted == Accounted(sent, queue, forwarded, rejected)
      && InTimeOrder(queue, clock)
      && (maxDelay == 0 ==> queue == [])
    }

    function Known(func: string): set<nat>
      reads this`warm
    {
      KnownIn(warm, func)
    }

    method ReadClock()
      modifies this`clock
      ensures old(clock) <= clock
    {
      var now: nat :| clock <= now;
      clock := now;
    }

    /** Sends a call to an executor, or else queues, forwards or rejects it. */
    method Route(call: Call) returns (pick: Option<nat>)
      modifies `status, `warm, `queue, `clock, `sent, `forwarded, `rejected
      ensures old(clock) <= clock
      ensures forall f :: KnownIn(warm, f) == KnownIn(old(warm), f) + if pick.Some? && f == call.func then {pick.value} else {}
      ensures pick.Some? ==>
        && Chosen(old(status), old(Known(call.func)), shared, pick.value)
        && status == old(status)[pick.value := AWAIT] && sent == old(sent) + [Sent(pick.value, call)]
        && queue == old(queue) && forwarded == old(forwarded) && rejected == old(rejected)
      ensures pick.None? ==>
        && (forall e :: !Eligible(old(status), old(Known(call.func)), shared, e))
        && status == old(status) && sent == old(sent)
        && queue == (if maxDelay > 0 then old(queue) + [Delayed(call, clock)] else old(queue))
        && forwarded == (if maxDelay == 0 && !reject then old(forwarded) + [call] else old(forwarded))
        && rejected == (if maxDelay == 0 && reject then old(rejected) + [call] else old(rejected))
    {
      pick := Select(status, Known(call.func), shared);
      match pick
      case Some(e) =>
        if !Warm(status[e], Known(call.func), e) {
          warm := warm[call.func := Known(call.func) + {e}];
        }
        sent := sent + [Sent(e, call)];
        status := status[e := AWAIT];
      case None =>
        if maxDelay > 0 {
          ReadClock();
          queue := queue + [Delayed(call, clock)];
        } else if !reject {
          forwarded := forwarded + [call];
        } else {
          rejected := rejected + [call];
        }
    }

    /** A new call. */
    method Submit(call: Call)
      requires Valid()
      modifies this
      ensures Valid() && submitted == old(submitted) + multiset{call}
    {
      hide Accounted;
      ghost var s, q, f, r := sent, queue, forwarded, rejected;
      var pick := Route(call);
      submitted := submitted + multiset{call};
      OneMoreCall(s, q, f, r, if pick.Some? then pick.value else 0, clock, call);
    }

    /** An executor reports that it is busy. */
    method Busy(e: nat)
      requires Valid() && e < |status|
      modifies `status
      ensures Valid() && status == old(status)[e := BUSY]
    {
      status := status[e := BUSY];
    }

    /** An executor reports that it is free: empty if no function was loaded into it since it was last awaited. */
    method Ready(e: nat)
      requires Valid() && e < |status|
      modifies `status
      ensures Valid() && status == old(status)[e := if old(status[e]) in {EMPTY, AWAIT} then EMPTY else AVAILABLE]
    {
      if status[e] == EMPTY || status[e] == AWAIT {
        status := status[e := EMPTY];
      } else {
        status := status[e := AVAILABLE];
      }
    }

    method CountAvail() returns (n: nat)
      ensures n == Avail(status)
    {
      n := 0;
      var e := 0;
      while e < |status|
        invariant e <= |status| && n == Avail(status[..e])
      {
        assert status[..e + 1][..e] == status[..e];
        if Free(status[e]) {
          n := n + 1;
        }
        e := e + 1;
      }
      assert status[..e] == status;
    }

    /**
      Visits the oldest queued calls, one for each free executor: a call that some executor suits is dispatched,
      any other goes to the end of the queue with a new time. The calls behind keep their place and their time.
      Whoever went to the end finds no executor when the pass is over either, and the oldest call goes first if any suits it.
     */
    method DispatchQueued()
      requires Valid()
      modifies `status, `warm, `queue, `clock, `sent, `forwarded, `rejected
      ensures Valid() && forwarded == old(forwarded) && rejected == old(rejected) && old(clock) <= clock
      ensures old(sent) <= sent && Took(old(status), status, sent[|old(sent)|..])
      ensures AllSuited(sent[|old(sent)|..], old(status), old(warm), shared)
      ensures Passed(old(queue), Visited(old(status), old(queue)), queue, sent[|old(sent)|..], old(clock))
      ensures forall i :: 0 <= i < |queue| && i >= |old(queue)| - Visited(old(status), old(queue)) ==>
                !Suits(status, warm, shared, queue[i].call.func)
      ensures old(queue) != [] && Suits(old(status), old(warm), shared, old(queue)[0].call.func) ==>
                |sent| > |old(sent)| && sent[|old(sent)|].call == old(queue)[0].call
      ensures shared ==>
        var m := Visited(old(status), old(queue));
        queue == old(queue)[m..] && SentCalls(sent) == SentCalls(old(sent)) + QueuedCalls(old(queue)[..m])
    {
      hide Accounted, InTimeOrder, Avail, InPass, Chosen, Eligible, KnownIn, Took, Passed, AllSuited, Suits, SentCalls, QueuedCalls;
      ghost var start, was := clock, View(status, warm, queue, sent);
      var avail := CountAvail();
      ghost var a := avail;
      PassBegins(was, start, shared);
      while avail > 0 && queue != []
        invariant Valid() && forwarded == old(forwarded) && rejected == old(rejected) && start <= clock && avail <= a
        invariant InPass(was, start, shared, a - avail, View(status, warm, queue, sent))
        decreases avail
      {
        ghost var v, clk, known := View(status, warm, queue, sent), clock, Known(queue[0].call.func);
        var d := queue[0];
        var pick := Route(d.call);
        avail := avail - 1;
        queue := queue[1..];
        StillAccounted(v.sent, v.queue, clk, forwarded, rejected, sent, queue, clock);
        if pick.Some? {
          VisitDispatches(was, start, shared, a - avail - 1, v, pick.value, warm);
        } else {
          assert known == KnownIn(v.warm, d.call.func);
          VisitPutsBack(was, start, shared, a - avail - 1, v, warm, clock);
          assert queue == v.queue[1..] + [Delayed(d.call, clock)];
        }
      }
      PassEnds(was, start, shared, a, avail, View(status, warm, queue, sent));
    }

    /** Gives up on the queued calls that have waited too long, oldest first. */
    method DropExpired() returns (k: nat)
      requires Valid()
      modifies `queue, `clock, `forwarded, `rejected
      ensures Valid() && old(clock) <= clock
      ensures Dropped(old(queue), k, queue, Books(old(forwarded), old(rejected)), Books(forwarded, rejected), reject)
      ensures GaveUpOn(old(queue)[..k], clock, maxDelay)
      ensures forall i :: 0 <= i < |queue| ==> clock - queue[i].since <= maxDelay
    {
      hide Accounted, InTimeOrder, GaveUpOn, Dropped;
      Later(queue, clock);
      ReadClock();
      ghost var q, was := queue, Books(forwarded, rejected);
      k := 0;
      NoneDropped(q, was, reject, clock, maxDelay);
      while queue != []
        invariant Valid() && old(clock) <= clock && k <= |q|
        invariant Dropped(q, k, queue, was, Books(forwarded, rejected), reject)
        invariant GaveUpOn(q[..k], clock, maxDelay)
        decreases |queue|
      {
        var d := queue[0];
        if clock - d.since <= maxDelay {
          break;
        }
        GiveUpOne(sent, queue, forwarded, rejected);
        DropOne(q, k, queue, was, Books(forwarded, rejected), reject, clock, maxDelay);
        Later(queue, clock);
        if !reject {
          forwarded := forwarded + [d.call];
        } else {
          rejected := rejected + [d.call];
        }
        queue := queue[1..];
        k := k + 1;
      }
      FrontIsOldest(queue, clock, maxDelay);
    }

    /** One pass over the delay queue. */
    method Drain()
      requires Valid()
      modifies `status, `warm, `queue, `clock, `sent, `forwarded, `rejected
      ensures Valid()
      ensures old(sent) <= sent && Took(old(status), status, sent[|old(sent)|..])
      ensures AllSuited(sent[|old(sent)|..], old(status), old(warm), shared)
      ensures forall i :: 0 <= i < |queue| ==> clock - queue[i].since <= maxDelay
      ensures exists rest: seq<Delayed>, k: nat ::
        && Passed(old(queue), Visited(old(status), old(queue)), rest, sent[|old(sent)|..], old(clock))
        && Dropped(rest, k, queue, Books(old(forwarded), old(rejected)), Books(forwarded, rejected), reject)
        && GaveUpOn(rest[..k], clock, maxDelay)
        && (forall i :: 0 <= i < |rest| && i >= |old(queue)| - Visited(old(status), old(queue)) ==>
              !Suits(status, warm, shared, rest[i].call.func))
        && (shared ==> rest == old(queue)[Visited(old(status), old(queue))..])
      ensures old(queue) != [] && Suits(old(status), old(warm), shared, old(queue)[0].call.func) ==>
                |sent| > |old(sent)| && sent[|old(sent)|].call == old(queue)[0].call
      ensures shared ==>
        SentCalls(sent) == SentCalls(old(sent)) + QueuedCalls(old(queue)[..Visited(old(status), old(queue))])
    {
      hide Took, Accounted, InTimeOrder, Avail, Passed, Dropped, GaveUpOn, Suits;
      if queue != [] {
        DispatchQueued();
        ghost var rest := queue;
        var k := DropExpired();
        assert Dropped(rest, k, queue, Books(old(forwarded), old(rejected)), Books(forwarded, rejected), reject);
      } else {
        NothingTaken(status);
        assert sent[|sent|..] == [];
        NonePassed(queue, clock);
        NoneDropped(queue, Books(forwarded, rejected), reject, clock, maxDelay);
        assert queue[0..] == [] == queue;
        assert queue[..0] == [];
      }
    }

    /**
      The limit on waiting starts over: a call that has waited 100 when 10 are allowed, and that the one free
      executor does not suit, is neither dispatched nor given up, but counts as new.
     */
    method LimitStartsOver(call: Call)
      requires Valid() && !shared && maxDelay == 10 && clock == 100
      requires status == [AVAILABLE] && warm == map[] && queue == [Delayed(call, 0)]
      modifies `status, `warm, `queue, `clock, `sent, `forwarded, `rejected
      ensures Valid() && sent == old(sent) && forwarded == old(forwarded)
      ensures |queue| == 1 && queue[0].call == call && queue[0].since >= 100
    {
      hide Took, Passed, Accounted, InTimeOrder, Avail, Suits;
      NobodySuits(status, warm, call.func);
      ghost var q, sn := queue, sent;
      DispatchQueued();
      OnlyCallPutBack(q, queue, sent[|sn|..], 100, call);
      assert sent == sn + sent[|sn|..];
    }
  }

  lemma Later(queue: seq<Delayed>, clock: nat)
    requires InTimeOrder(queue, clock)
    ensures forall t: nat :: clock <= t ==> InTimeOrder(queue, t)
    ensures queue != [] ==> InTimeOrder(queue[1..], clock)
  {
  }

  lemma FrontIsOldest(queue: seq<Delayed>, clock: nat, maxDelay: nat)
    requires InTimeOrder(queue, clock) && (queue != [] ==> clock - queue[0].since <= maxDelay)
    ensures forall i :: 0 <= i < |queue| ==> clock - queue[i].since <= maxDelay
  {
  }

  // ---------------------------------------------------------------- giving up

  datatype Books = Books(forwarded: seq<Call>, rejected: seq<Call>)

  /** The first `k` calls of `q` have left the queue, for the book they belong in. */
  ghost predicate Dropped(q: seq<Delayed>, k: nat, queue: seq<Delayed>, was: Books, now: Books, reject: bool) {
    && k <= |q| && queue == q[k..]
    && now == if reject then was.(rejected := was.rejected + QueuedCalls(q[..k]))
              else was.(forwarded := was.forwarded + QueuedCalls(q[..k]))
  }

  lemma NoneDropped(q: seq<Delayed>, was: Books, reject: bool, clock: nat, maxDelay: nat)
    ensures Dropped(q, 0, q, was, was, reject) && GaveUpOn(q[..0], clock, maxDelay)
  {
    assert q[0..] == q && q[..0] == [];
    assert was.rejected + [] == was.rejected && was.forwarded + [] == was.forwarded;
  }

  lemma DropOne(q: seq<Delayed>, k: nat, queue: seq<Delayed>, was: Books, now: Books, reject: bool, clock: nat, maxDelay: nat)
    requires Dropped(q, k, queue, was, now, reject) && GaveUpOn(q[..k], clock, maxDelay)
    requires queue != [] && clock - queue[0].since > maxDelay
    ensures k < |q| && GaveUpOn(q[..k + 1], clock, maxDelay)
    ensures Dropped(q, k + 1, queue[1..], was,
                    if reject then now.(rejected := now.rejected + [queue[0].call])
                    else now.(forwarded := now.forwarded + [queue[0].call]), reject)
  {
    assert q[k] == queue[0];
    AddQueued(q[..k], q[k]);
    assert q[..k + 1] == q[..k] + [q[k]];
  }

  // ---------------------------------------------------------------- one pass

  function Lesser(a: nat, b: nat): nat { if a < b then a else b }

  /** How many calls a pass visits: one for each free executor. */
  function Visited(status: seq<nat>, queue: seq<Delayed>): nat {
    Lesser(Avail(status), |queue|)
  }

  /**
    The first `m` calls of `q` have been visited: each is dispatched in `news` or stands at the end of `queue` with a
    time not before `start`. The others stand at its front, as they were.
   */
  ghost predicate Passed(q: seq<Delayed>, m: nat, queue: seq<Delayed>, news: seq<Sent>, start: nat) {
    && m <= |q| && q[m..] <= queue
    && (forall i :: |q| - m <= i < |queue| ==> queue[i].since >= start)
    && multiset(SentCalls(news)) + multiset(QueuedCalls(queue[|q| - m..])) == multiset(QueuedCalls(q[..m]))
  }

  lemma NonePassed(q: seq<Delayed>, start: nat)
    ensures Passed(q, 0, q, [], start)
  {
    assert q[|q|..] == [] && q[..0] == [] && q[0..] == q;
  }

  /**
    If all calls were queued before the pass, those that still have a time from before it are exactly the ones not
    visited: a call keeps its time if and only if its index is at least the number of free executors.
   */
  lemma TimeKeptIffNotVisited(q: seq<Delayed>, m: nat, queue: seq<Delayed>, news: seq<Sent>, start: nat, j: nat)
    requires Passed(q, m, queue, news, start) && j < |queue| && forall i :: 0 <= i < |q| ==> q[i].since < start
    ensures queue[j].since < start <==> j < |q| - m
    ensures j < |q| - m ==> queue[j] == q[m + j]
  {
    assert j < |q| - m ==> q[m..][j] == queue[j];
  }

  /** After `v` visits, one more: the front of the queue is dispatched. */
  lemma PassDispatched(q: seq<Delayed>, v: nat, queue: seq<Delayed>, news: seq<Sent>, start: nat, s: Sent)
    requires Passed(q, Lesser(v, |q|), queue, news, start) && queue != [] && s.call == queue[0].call
    ensures Passed(q, Lesser(v + 1, |q|), queue[1..], news + [s], start)
  {
    hide Passed;
    if v < |q| { DispatchNext(q, v, queue, news, start, s); } else { DispatchAgain(q, queue, news, start, s); }
  }

  lemma DispatchNext(q: seq<Delayed>, m: nat, queue: seq<Delayed>, news: seq<Sent>, start: nat, s: Sent)
    requires Passed(q, m, queue, news, start) && m < |q| && queue != [] && s.call == queue[0].call
    ensures Passed(q, m + 1, queue[1..], news + [s], start)
  {
    hide SentCalls, QueuedCalls;
    AddSent(news, s);
    assert queue[0] == q[m] && queue[1..][|q| - m - 1..] == queue[|q| - m..];
    AddQueued(q[..m], q[m]);
    assert q[..m + 1] == q[..m] + [q[m]];
    assert q[m..][1..] == q[m + 1..];
  }

  /** A call put back earlier in the same pass is visited again when free executors outnumber the queue. */
  lemma DispatchAgain(q: seq<Delayed>, queue: seq<Delayed>, news: seq<Sent>, start: nat, s: Sent)
    requires Passed(q, |q|, queue, news, start) && queue != [] && s.call == queue[0].call
    ensures Passed(q, |q|, queue[1..], news + [s], start)
  {
    hide SentCalls, QueuedCalls;
    AddSent(news, s);
    assert queue[0..] == queue && queue[1..][0..] == queue[1..];
    PopQueued(queue);
  }

  /** Or it goes to the end. */
  lemma PassPutBack(q: seq<Delayed>, v: nat, queue: seq<Delayed>, news: seq<Sent>, start: nat, t: nat)
    requires Passed(q, Lesser(v, |q|), queue, news, start) && queue != [] && t >= start
    ensures Passed(q, Lesser(v + 1, |q|), queue[1..] + [Delayed(queue[0].call, t)], news, start)
  {
    hide Passed;
    if v < |q| { PutBackNext(q, v, queue, news, start, t); } else { PutBackAgain(q, queue, news, start, t); }
  }

  lemma PutBackNext(q: seq<Delayed>, m: nat, queue: seq<Delayed>, news: seq<Sent>, start: nat, t: nat)
    requires Passed(q, m, queue, news, start) && m < |q| && queue != [] && t >= start
    ensures Passed(q, m + 1, queue[1..] + [Delayed(queue[0].call, t)], news, start)
  {
    hide SentCalls, QueuedCalls;
    var d, tail := Delayed(queue[0].call, t), queue[|q| - m..];
    assert queue[0] == q[m] && (queue[1..] + [d])[|q| - m - 1..] == tail + [d];
    AddQueued(q[..m], q[m]);
    AddQueued(tail, d);
    assert q[..m + 1] == q[..m] + [q[m]];
    assert q[m..][1..] == q[m + 1..];
  }

  lemma PutBackAgain(q: seq<Delayed>, queue: seq<Delayed>, news: seq<Sent>, start: nat, t: nat)
    requires Passed(q, |q|, queue, news, start) && queue != [] && t >= start
    ensures Passed(q, |q|, queue[1..] + [Delayed(queue[0].call, t)], news, start)
  {
    hide SentCalls, QueuedCalls;
    var d := Delayed(queue[0].call, t);
    assert queue[0..] == queue && (queue[1..] + [d])[0..] == queue[1..] + [d];
    PopQueued(queue);
    AddQueued(queue[1..], d);
  }

  /** Nobody suits the calls of the queue from index `from` on. */
  ghost predicate NobodyFor(queue: seq<Delayed>, from: int, status: seq<nat>, warm: map<string, set<nat>>, shared: bool) {
    forall i :: 0 <= i < |queue| && i >= from ==> !Suits(status, warm, shared, queue[i].call.func)
  }

  lemma NobodyForNone(queue: seq<Delayed>, from: int, status: seq<nat>, warm: map<string, set<nat>>, shared: bool)
    requires from >= |queue|
    ensures NobodyFor(queue, from, status, warm, shared)
  {
  }

  lemma SuitsMeans(status: seq<nat>, warm: map<string, set<nat>>, shared: bool, func: string)
    ensures Suits(status, warm, shared, func) <==> exists e :: Eligible(status, KnownIn(warm, func), shared, e)
  {
  }

  lemma SuitedMeansFree(status: seq<nat>, warm: map<string, set<nat>>, shared: bool, func: string)
    ensures Suits(status, warm, shared, func) ==> Avail(status) > 0
  {
    if Suits(status, warm, shared, func) {
      var e :| Eligible(status, KnownIn(warm, func), shared, e);
      TakingOneExecutor(status, e);
    }
  }

  /** Taking an executor away, even though it has the function loaded now, leaves nobody for a call that had nobody. */
  lemma OnlyTaken(queue: seq<Delayed>, from: int, st: seq<nat>, wm: map<string, set<nat>>,
                  status: seq<nat>, warm: map<string, set<nat>>, shared: bool, pick: Option<nat>, func: string)
    requires NobodyFor(queue, from, st, wm, shared) && (pick.Some? ==> pick.value < |st|)
    requires forall f :: KnownIn(warm, f) == KnownIn(wm, f) + (if pick.Some? && f == func then {pick.value} else {})
    requires status == if pick.Some? then st[pick.value := AWAIT] else st
    ensures NobodyFor(queue, from, status, warm, shared)
  {
    forall i | 0 <= i < |queue| && i >= from ensures !Suits(status, warm, shared, queue[i].call.func) {
      SuitsLess(st, wm, status, warm, shared, pick, func, queue[i].call.func);
    }
  }

  lemma SuitsLess(st: seq<nat>, wm: map<string, set<nat>>, status: seq<nat>, warm: map<string, set<nat>>, shared: bool,
                  pick: Option<nat>, func: string, f: string)
    requires pick.Some? ==> pick.value < |st|
    requires KnownIn(warm, f) == KnownIn(wm, f) + (if pick.Some? && f == func then {pick.value} else {})
    requires status == if pick.Some? then st[pick.value := AWAIT] else st
    ensures Suits(status, warm, shared, f) ==> Suits(st, wm, shared, f)
  {
    if Suits(status, warm, shared, f) {
      var e :| Eligible(status, KnownIn(warm, f), shared, e);
      assert Eligible(st, KnownIn(wm, f), shared, e);
    }
  }

  lemma NobodyShift(queue: seq<Delayed>, n: nat, v: nat, status: seq<nat>, warm: map<string, set<nat>>, shared: bool)
    requires queue != [] && NobodyFor(queue, n - Lesser(v, n), status, warm, shared)
    ensures NobodyFor(queue[1..], n - Lesser(v + 1, n), status, warm, shared)
  {
  }

  lemma NobodyShiftBack(queue: seq<Delayed>, n: nat, v: nat, status: seq<nat>, warm: map<string, set<nat>>, shared: bool, d: Delayed)
    requires queue != [] && NobodyFor(queue, n - Lesser(v, n), status, warm, shared) && !Suits(status, warm, shared, d.call.func)
    ensures NobodyFor(queue[1..] + [d], n - Lesser(v + 1, n), status, warm, shared)
  {
  }

  ghost predicate AllSuited(news: seq<Sent>, status: seq<nat>, warm: map<string, set<nat>>, shared: bool) {
    forall i :: 0 <= i < |news| ==> Suits(status, warm, shared, news[i].call.func)
  }

  /** Executors that have learnt a function since are awaited. */
  ghost predicate KnowsNoMore(was: map<string, set<nat>>, warm: map<string, set<nat>>, status: seq<nat>) {
    forall f :: KnownIn(warm, f) <= KnownIn(was, f) + Awaited(status)
  }

  ghost function Awaited(status: seq<nat>): set<nat> {
    set e | 0 <= e < |status| && status[e] == AWAIT
  }

  lemma NoneSuited(status: seq<nat>, warm: map<string, set<nat>>, shared: bool)
    ensures AllSuited([], status, warm, shared) && KnowsNoMore(warm, warm, status)
  {
  }

  lemma KnowsStep(was: map<string, set<nat>>, warm: map<string, set<nat>>, status: seq<nat>,
                  warm': map<string, set<nat>>, status': seq<nat>, pick: Option<nat>, func: string)
    requires KnowsNoMore(was, warm, status) && (pick.Some? ==> pick.value < |status|)
    requires forall f :: KnownIn(warm', f) == KnownIn(warm, f) + (if pick.Some? && f == func then {pick.value} else {})
    requires status' == if pick.Some? then status[pick.value := AWAIT] else status
    ensures KnowsNoMore(was, warm', status')
  {
    assert Awaited(status) <= Awaited(status') && (pick.Some? ==> pick.value in Awaited(status'));
    forall f ensures KnownIn(warm', f) <= KnownIn(was, f) + Awaited(status') {
      assert KnownIn(warm, f) <= KnownIn(was, f) + Awaited(status);
    }
  }

  /** An executor that suits a call during a pass suited it before: the pass only takes executors away. */
  lemma SuitedBefore(st: seq<nat>, wm: map<string, set<nat>>, now: seq<nat>, warm: map<string, set<nat>>, news: seq<Sent>, shared: bool, s: Sent)
    requires Took(st, now, news) && KnowsNoMore(wm, warm, now) && Chosen(now, KnownIn(warm, s.call.func), shared, s.exec)
    requires AllSuited(news, st, wm, shared)
    ensures AllSuited(news + [s], st, wm, shared)
  {
    hide KnownIn;
    assert st[s.exec] == now[s.exec];
    assert Eligible(st, KnownIn(wm, s.call.func), shared, s.exec);
  }

  // ---------------------------------------------------------------- the pass as a whole

  /** What a pass works on. */
  datatype View = View(status: seq<nat>, warm: map<string, set<nat>>, queue: seq<Delayed>, sent: seq<Sent>)

  /** The oldest call, if an executor suited it when the pass began, is the first dispatched. */
  ghost predicate OldestGoes(was: View, shared: bool, news: seq<Sent>) {
    was.queue != [] && Suits(was.status, was.warm, shared, was.queue[0].call.func) ==>
      news != [] && news[0].call == was.queue[0].call
  }

  /** With shared executors every visit is a dispatch, so the queue loses its front. */
  ghost predicate FrontGone(was: View, v: nat, now: View) {
    && v <= |was.queue| && now.queue == was.queue[v..] && Avail(now.status) + v == Avail(was.status)
    && SentCalls(now.sent) == SentCalls(was.sent) + QueuedCalls(was.queue[..v])
  }

  /** `now` is the state of a pass that began at `was` after `v` visits. */
  ghost predicate InPass(was: View, start: nat, shared: bool, v: nat, now: View) {
    && was.sent <= now.sent
    && var news := now.sent[|was.sent|..]; var m := Lesser(v, |was.queue|);
       && |news| <= v && Took(was.status, now.status, news)
       && KnowsNoMore(was.warm, now.warm, now.status) && AllSuited(news, was.status, was.warm, shared)
       && Passed(was.queue, m, now.queue, news, start)
       && NobodyFor(now.queue, |was.queue| - m, now.status, now.warm, shared)
       && (v == 0 ==> now == was) && (v > 0 ==> OldestGoes(was, shared, news))
       && (shared ==> FrontGone(was, v, now))
  }

  lemma PassBegins(was: View, start: nat, shared: bool)
    ensures InPass(was, start, shared, 0, was)
  {
    hide Took, Passed, NobodyFor, AllSuited, KnowsNoMore, Suits, Avail;
    var q := was.queue;
    assert was.sent[|was.sent|..] == [] && q[..0] == [] && q[0..] == q;
    NothingTaken(was.status);
    NonePassed(q, start);
    NoneSuited(was.status, was.warm, shared);
    NobodyForNone(q, |q|, was.status, was.warm, shared);
  }

  /** A visit that finds an executor. */
  lemma VisitDispatches(was: View, start: nat, shared: bool, v: nat, now: View, e: nat, warm: map<string, set<nat>>)
    requires InPass(was, start, shared, v, now) && now.queue != []
    requires Chosen(now.status, KnownIn(now.warm, now.queue[0].call.func), shared, e)
    requires forall f :: KnownIn(warm, f) == KnownIn(now.warm, f) + (if f == now.queue[0].call.func then {e} else {})
    ensures InPass(was, start, shared, v + 1,
                   View(now.status[e := AWAIT], warm, now.queue[1..], now.sent + [Sent(e, now.queue[0].call)]))
  {
    hide Took, Passed, NobodyFor, AllSuited, KnowsNoMore, Suits, Avail, Chosen, Eligible, KnownIn, SentCalls, QueuedCalls;
    var func, s, n := now.queue[0].call.func, Sent(e, now.queue[0].call), |was.sent|;
    ChosenIsFree(now.status, KnownIn(now.warm, func), shared, e);
    var status, news := now.status[e := AWAIT], now.sent[n..];
    assert (now.sent + [s])[n..] == news + [s];
    KnowsStep(was.warm, now.warm, now.status, warm, status, Some(e), func);
    SuitedBefore(was.status, was.warm, now.status, now.warm, news, shared, s);
    TookOne(was.status, now.status, news, s);
    TakingOneExecutor(now.status, e);
    PassDispatched(was.queue, v, now.queue, news, start, s);
    OnlyTaken(now.queue, |was.queue| - Lesser(v, |was.queue|), now.status, now.warm, status, warm, shared, Some(e), func);
    NobodyShift(now.queue, |was.queue|, v, status, warm, shared);
    if shared { FrontLeaves(was, v, now, e, warm); }
  }

  lemma FrontLeaves(was: View, v: nat, now: View, e: nat, warm: map<string, set<nat>>)
    requires FrontGone(was, v, now) && now.queue != [] && e < |now.status| && Free(now.status[e])
    ensures FrontGone(was, v + 1,
              View(now.status[e := AWAIT], warm, now.queue[1..], now.sent + [Sent(e, now.queue[0].call)]))
  {
    hide Avail;
    TakingOneExecutor(now.status, e);
    OldestGone(was.sent, now.sent, was.queue, v, Sent(e, now.queue[0].call));
  }

  /** A visit that finds none: with shared executors there is always one while free executors are left to count. */
  lemma VisitPutsBack(was: View, start: nat, shared: bool, v: nat, now: View, warm: map<string, set<nat>>, t: nat)
    requires InPass(was, start, shared, v, now) && now.queue != [] && t >= start && v < Avail(was.status)
    requires forall e :: !Eligible(now.status, KnownIn(now.warm, now.queue[0].call.func), shared, e)
    requires forall f :: KnownIn(warm, f) == KnownIn(now.warm, f)
    ensures InPass(was, start, shared, v + 1,
                   View(now.status, warm, now.queue[1..] + [Delayed(now.queue[0].call, t)], now.sent))
  {
    hide Took, Passed, NobodyFor, AllSuited, KnowsNoMore, Avail, Eligible, KnownIn, SentCalls, QueuedCalls;
    var func, news, d := now.queue[0].call.func, now.sent[|was.sent|..], Delayed(now.queue[0].call, t);
    KnowsStep(was.warm, now.warm, now.status, warm, now.status, None, func);
    PassPutBack(was.queue, v, now.queue, news, start, t);
    OnlyTaken(now.queue, |was.queue| - Lesser(v, |was.queue|), now.status, now.warm, now.status, warm, shared, None, func);
    SuitsLess(now.status, now.warm, now.status, warm, shared, None, func, func);
    NobodyShiftBack(now.queue, |was.queue|, v, now.status, warm, shared, d);
    if shared { SharedFinds(now.status, KnownIn(now.warm, func)); }
  }

  /** The pass stops when the free executors are used up or the queue is empty, and then all due visits were made. */
  lemma PassEnds(was: View, start: nat, shared: bool, a: nat, avail: nat, now: View)
    requires a == Avail(was.status) && avail <= a && (avail == 0 || now.queue == [])
    requires InPass(was, start, shared, a - avail, now)
    ensures was.sent <= now.sent
    ensures var news := now.sent[|was.sent|..]; var m := Visited(was.status, was.queue);
      && Took(was.status, now.status, news) && AllSuited(news, was.status, was.warm, shared)
      && Passed(was.queue, m, now.queue, news, start)
      && (forall i :: 0 <= i < |now.queue| && i >= |was.queue| - m ==>
            !Suits(now.status, now.warm, shared, now.queue[i].call.func))
      && OldestGoes(was, shared, news)
      && (shared ==> m <= |was.queue| && now.queue == was.queue[m..]
                     && SentCalls(now.sent) == SentCalls(was.sent) + QueuedCalls(was.queue[..m]))
  {
    hide Took, AllSuited, KnowsNoMore, Avail, Suits, SentCalls, QueuedCalls;
    if was.queue != [] { SuitedMeansFree(was.status, was.warm, shared, was.queue[0].call.func); }
  }

  lemma NobodySuits(status: seq<nat>, warm: map<string, set<nat>>, func: string)
    requires status == [AVAILABLE] && warm == map[]
    ensures !Suits(status, warm, false, func) && Avail(status) == 1
  {
    assert status[..0] == [];
  }

  lemma OnlyCallPutBack(q: seq<Delayed>, queue: seq<Delayed>, news: seq<Sent>, start: nat, call: Call)
    requires Passed(q, 1, queue, news, start) && |q| == 1 && q[0].call == call
    requires forall i :: 0 <= i < |news| ==> news[i].call != call
    ensures news == [] && |queue| == 1 && queue[0].call == call && queue[0].since >= start
  {
    assert queue[0..] == queue && q[..1] == q;
    assert QueuedCalls(q) == [call];
    var all := multiset(SentCalls(news)) + multiset(QueuedCalls(queue));
    assert all == multiset{call};
    assert multiset(SentCalls(news)) <= all;
    assert forall c :: c in SentCalls(news) ==> c in all;
    assert forall i :: 0 <= i < |queue| ==> QueuedCalls(queue)[i] in all;
    assert |all| == |news| + |queue|;
  }

  lemma ChosenIsFree(status: seq<nat>, known: set<nat>, shared: bool, e: nat)
    requires Chosen(status, known, shared, e)
    ensures e < |status| && Free(status[e])
  {
  }

  /** When executors are shared, any free one will do. */
  lemma SharedFinds(status: seq<nat>, known: set<nat>)
    requires Avail(status) > 0
    ensures exists e :: Eligible(status, known, true, e)
  {
    var e := SomeoneFree(status);
    assert Eligible(status, known, true, e);
  }

  /** Handing out the front of the queue, or putting it back at the end, loses no call and keeps the order of times. */
  lemma StillAccounted(sent: seq<Sent>, queue: seq<Delayed>, clock: nat, forwarded: seq<Call>, rejected: seq<Call>,
                       sent': seq<Sent>, queue': seq<Delayed>, clock': nat)
    requires queue != [] && InTimeOrder(queue, clock) && clock <= clock'
    requires || (queue' == queue[1..] && exists e :: sent' == sent + [Sent(e, queue[0].call)])
             || (sent' == sent && queue' == (queue + [Delayed(queue[0].call, clock')])[1..])
    ensures Accounted(sent', queue', forwarded, rejected) == Accounted(sent, queue, forwarded, rejected)
    ensures InTimeOrder(queue', clock')
  {
    hide Accounted;
    var call, rest := queue[0].call, queue[1..];
    assert queue' == rest || queue' == rest + [Delayed(call, clock')];
    GiveUpOne(sent, queue, forwarded, rejected);
    OneMoreCall(sent, rest, forwarded, rejected, 0, clock', call);
    if sent' != sent {
      var e :| sent' == sent + [Sent(e, call)];
      OneMoreCall(sent, rest, forwarded, rejected, e, clock', call);
    }
  }

  lemma OldestGone(sn: seq<Sent>, now: seq<Sent>, q: seq<Delayed>, m: nat, s: Sent)
    requires m < |q| && s.call == q[m].call && SentCalls(now) == SentCalls(sn) + QueuedCalls(q[..m])
    ensures SentCalls(now + [s]) == SentCalls(sn) + QueuedCalls(q[..m + 1])
  {
    AddSent(now, s);
    AddQueued(q[..m], q[m]);
    assert q[..m + 1] == q[..m] + [q[m]];
  }

  lemma GiveUpOne(sent: seq<Sent>, queue: seq<Delayed>, forwarded: seq<Call>, rejected: seq<Call>)
    requires queue != []
    ensures Accounted(sent, queue[1..], forwarded + [queue[0].call], rejected) == Accounted(sent, queue, forwarded, rejected)
    ensures Accounted(sent, queue[1..], forwarded, rejected + [queue[0].call]) == Accounted(sent, queue, forwarded, rejected)
  {
    PopQueued(queue);
  }

  lemma NothingTaken(status: seq<nat>)
    ensures Took(status, status, [])
  {
  }
}
