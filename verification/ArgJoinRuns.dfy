/**
  The waiting tables seen from outside: whatever the run, what became of the call in
  event `i` is a matter of the events alone. Nothing here is phrased in terms of the
  tables' own bookkeeping of which call has which id.
 */
module ArgJoinRuns {
  import opened Options
  import opened ArgJoin

  /** The call id that the next call will get. */
  function NextId(es: seq<Event>): nat {
    if es == [] then 0
    else NextId(es[..|es| - 1]) +
         match es[|es| - 1]
         case KeyCall(_) => 1
         case SkipIds(n) => n
         case _ => 0
  }

  /** The size of an object according to the last event that brought it to the node, if any did. */
  function Recorded(es: seq<Event>, k: Key): Option<nat> {
    if es == [] then None
    else
      var e := es[|es| - 1];
      if (e.DataResponse? || e.StoredLocally?) && e.key == k then Some(e.size) else Recorded(es[..|es| - 1], k)
  }

  /** Each key of the call in event `i` was on the node before that event, or has been answered since. */
  predicate Complete(es: seq<Event>, i: nat)
    requires i < |es| && es[i].KeyCall?
  {
    forall k :: k in es[i].call.keys ==> Recorded(es[..i], k).Some? || k in Answered(es[i + 1..])
  }

  /** The keys of the call in event `i` that were not on the node before it. */
  function AbsentAt(es: seq<Event>, i: nat): set<Key>
    requires i < |es| && es[i].KeyCall?
  {
    set k | k in es[i].call.keys && Recorded(es[..i], k) == None
  }

  lemma CompleteIff(es: seq<Event>, i: nat)
    requires i < |es| && es[i].KeyCall?
    ensures Complete(es, i) <==> AbsentAt(es, i) - Answered(es[i + 1..]) == {}
  {
    hide Recorded, Answered;
    var left := AbsentAt(es, i) - Answered(es[i + 1..]);
    forall k ensures k in left <==> k in es[i].call.keys && Recorded(es[..i], k) == None && k !in Answered(es[i + 1..]) {}
  }

  // ---------------------------------------------------------------- the tables follow the events

  lemma {:induction false} RunLast(s: State, es: seq<Event>)
    requires Inv(s) && es != []
    ensures Run(s, es) == Exec(Run(s, es[..|es| - 1]), es[|es| - 1])
    decreases |es|
  {
    hide Inv, Exec;
    ExecKeepsInv(s, es[0]);
    var n := |es| - 1;
    if n == 0 {
      assert es[1..] == [] && es[..0] == [];
    } else {
      RunLast(Exec(s, es[0]), es[1..]);
      assert es[1..][..n - 1] == es[..n][1..];
    }
  }

  lemma {:induction false} RunSplit(s: State, es: seq<Event>, n: nat)
    requires Inv(s) && n <= |es|
    ensures Run(s, es) == Run(Run(s, es[..n]), es[n..])
    decreases n
  {
    hide Inv, Exec;
    if n == 0 {
      assert es[..0] == [] && es[0..] == es;
    } else {
      ExecKeepsInv(s, es[0]);
      RunSplit(Exec(s, es[0]), es[1..], n - 1);
      assert es[1..][..n - 1] == es[..n][1..] && es[1..][n - 1..] == es[n..];
    }
  }

  lemma {:induction false} CallIdIs(es: seq<Event>)
    ensures FromStart(es).callId == NextId(es)
  {
    hide Inv, Run;
    if es == [] {
      NothingRun();
    } else {
      StartIsFine();
      RunLast(START, es);
      CallIdIs(es[..|es| - 1]);
    }
  }

  lemma StartIsFine()
    ensures Inv(START)
  {
  }

  lemma NothingRun()
    ensures FromStart([]) == START
  {
  }

  /** The table of lengths holds the size each object had when it last arrived. */
  lemma {:induction false} KeyLenIsRecorded(es: seq<Event>, k: Key)
    ensures var keyLen := FromStart(es).keyLen;
      Recorded(es, k) == if k in keyLen then Some(keyLen[k]) else None
  {
    hide Inv, Run;
    if es == [] {
      NothingRun();
    } else {
      StartIsFine();
      RunLast(START, es);
      KeyLenIsRecorded(es[..|es| - 1], k);
    }
  }

  lemma {:induction false} IssuedIs(es: seq<Event>, i: nat)
    requires i < |es| && es[i].KeyCall?
    ensures var s, c := FromStart(es), NextId(es[..i]); c in s.issued && s.issued[c] == es[i].call && c < s.callId
  {
    hide Inv, Run;
    StartIsFine();
    RunLast(START, es);
    var n := |es| - 1;
    CallIdIs(es[..n]);
    if i < n {
      IssuedIs(es[..n], i);
      assert es[..n][..i] == es[..i];
    }
  }

  // ---------------------------------------------------------------- what becomes of a call

  /** Right after its event a call is dispatched if its keys are all there, and waits for the others if not. */
  lemma CallArrives(es: seq<Event>, i: nat)
    requires i < |es| && es[i].KeyCall?
    ensures var s, c := FromStart(es[..i + 1]), NextId(es[..i]);
      var missing := AbsentAt(es, i);
      if missing == {} then Dispatched(s, c) && c !in s.inflight
      else c in s.inflight && s.inflight[c] == Waiting(es[i].call, missing)
  {
    hide Inv, Run, Ledger, Mirror, Missing, Accounted, Dispatches;
    StartIsFine();
    RunLast(START, es[..i + 1]);
    assert es[..i + 1][..i] == es[..i];
    CallIdIs(es[..i]);
    var b := FromStart(es[..i]);
    forall k ensures Recorded(es[..i], k) == None <==> k !in b.keyLen { KeyLenIsRecorded(es[..i], k); }
    assert Absent(b.keyLen, es[i].call.keys) == AbsentAt(es, i);
    IdIsNew(b);
    CallDispatches(b, es[i].call, b.callId);
  }

  /**
    After any run the call in event `i` has been dispatched if and only if each of its keys was on the node
    before it or has been answered since; until then it waits, and for exactly the other keys.
   */
  lemma CallWaitsUntilComplete(es: seq<Event>, i: nat)
    requires i < |es| && es[i].KeyCall?
    ensures var s, c := FromStart(es), NextId(es[..i]);
      && (Dispatched(s, c) <==> Complete(es, i)) && (c in s.inflight <==> !Complete(es, i))
      && (c in s.inflight ==> s.inflight[c] == Waiting(es[i].call, AbsentAt(es, i) - Answered(es[i + 1..])))
  {
    hide Inv, Run, Exec, Recorded, Answered, AbsentAt, Complete;
    CompleteIff(es, i);
    var c := NextId(es[..i]);
    var then_ := FromStart(es[..i + 1]);
    StartIsFine();
    RunSplit(START, es, i + 1);
    CallArrives(es, i);
    if c in then_.inflight {
      DispatchedAtLastAnswer(then_, es[i + 1..], c);
      NotBoth(FromStart(es), c);
    } else {
      StaysDispatched(then_, es[i + 1..], c);
    }
  }

  lemma NotBoth(s: State, c: nat)
    requires Inv(s)
    ensures c in s.inflight ==> !Dispatched(s, c)
  {
  }

  /** A dispatch, or a waiting entry, under the id that event `i` was given is for the call of event `i` and no other. */
  lemma CallKeepsItsName(es: seq<Event>, i: nat, p: nat)
    requires i < |es| && es[i].KeyCall?
    ensures var s, c := FromStart(es), NextId(es[..i]);
      && (c in s.inflight ==> s.inflight[c].call == es[i].call)
      && (p < |s.dispatched| && s.dispatched[p].id == c ==> s.dispatched[p].call == es[i].call)
  {
    hide Run, Exec, Mirror, Missing, Accounted;
    IssuedIs(es, i);
    var s := FromStart(es);
    if p < |s.dispatched| { assert DispatchOk(s, s.dispatched[p]); }
  }

  lemma ExecGrows(s: State, e: Event)
    ensures s.dispatched <= Exec(s, e).dispatched
  {
  }

  lemma {:induction false} DispatchesGrow(s: State, es: seq<Event>)
    requires Inv(s)
    ensures s.dispatched <= Run(s, es).dispatched
    decreases |es|
  {
    hide Inv, Exec;
    if es != [] {
      ExecKeepsInv(s, es[0]);
      ExecGrows(s, es[0]);
      DispatchesGrow(Exec(s, es[0]), es[1..]);
    }
  }

  /**
    The dispatch of the call in event `i` carries, key by key, the sizes last brought by the events up to and
    including event `n`, the one that completes it.
   */
  lemma DispatchCarriesSizes(es: seq<Event>, i: nat, n: nat, p: nat, j: nat)
    requires i <= n < |es| && es[i].KeyCall?
    requires Complete(es[..n + 1], i) && (n == i || !Complete(es[..n], i))
    requires p < |FromStart(es).dispatched| && FromStart(es).dispatched[p].id == NextId(es[..i])
    requires j < |es[i].call.keys|
    ensures var d := FromStart(es).dispatched[p];
      && d.call == es[i].call && |d.lengths| == |d.call.keys|
      && Recorded(es[..n + 1], d.call.keys[j]) == Some(d.lengths[j])
  {
    hide Inv, Run, Exec, Recorded, Complete;
    var c := NextId(es[..i]);
    var b, a, r := FromStart(es[..n]), FromStart(es[..n + 1]), FromStart(es);
    CallKeepsItsName(es, i, p);
    assert !Dispatched(b, c) by { NotYetDispatched(es, i, n); }
    assert Dispatched(a, c) by {
      CallWaitsUntilComplete(es[..n + 1], i);
      assert es[..n + 1][..i] == es[..i];
    }
    StartIsFine();
    RunLast(START, es[..n + 1]);
    assert es[..n + 1][..n] == es[..n];
    RunSplit(START, es, n + 1);
    DispatchesGrow(a, es[n + 1..]);
    ExecGrows(b, es[n]);
    SameDispatch(b, a, r, c, p);
    DispatchesCarryLengths(b, es[n], p, j);
    KeyLenIsRecorded(es[..n + 1], es[i].call.keys[j]);
  }

  lemma NotYetDispatched(es: seq<Event>, i: nat, n: nat)
    requires i <= n < |es| && es[i].KeyCall? && (n == i || !Complete(es[..n], i))
    ensures !Dispatched(FromStart(es[..n]), NextId(es[..i]))
  {
    hide Inv, Run, Complete;
    if n == i {
      CallIdIs(es[..i]);
      IdIsNew(FromStart(es[..i]));
    } else {
      CallWaitsUntilComplete(es[..n], i);
      assert es[..n][..i] == es[..i];
    }
  }

  /** The one dispatch of `c` in the end is the one that appeared between `b` and `a`. */
  lemma SameDispatch(b: State, a: State, r: State, c: nat, p: nat)
    requires Inv(r) && !Dispatched(b, c) && Dispatched(a, c) && b.dispatched <= a.dispatched <= r.dispatched
    requires p < |r.dispatched| && r.dispatched[p].id == c
    ensures |b.dispatched| <= p < |a.dispatched| && a.dispatched[p] == r.dispatched[p]
  {
    hide Mirror, Ledger, Missing, Accounted;
    var q :| 0 <= q < |a.dispatched| && a.dispatched[q].id == c;
    assert r.dispatched[q] == a.dispatched[q];
    assert q == p;
    assert forall x :: 0 <= x < |b.dispatched| ==> b.dispatched[x] == a.dispatched[x] && b.dispatched[x].id != c;
  }
}
