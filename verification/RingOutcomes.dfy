/**
  What the result of an operation says about the ring, over every interleaving: between
  the start of a push and its return, its thread appended the payload exactly once if the
  push reports success and nothing if it reports full; likewise for a pop and what it took.
 */
module RingOutcomes {
  import opened Options
  import opened Ring
  import opened RingTheorems

  /** What `grown` has beyond `base`. */
  function Beyond(base: seq<Payload>, grown: seq<Payload>): seq<Payload> {
    if |base| <= |grown| then grown[|base|..] else []
  }

  /** The payloads that the steps of `tid` among the labels from `i` up to `n` appended to the history of pushes. */
  ghost function OwnPushes(s0: State, sched: seq<Label>, tid: Tid, i: nat, n: nat): (vs: seq<Payload>)
    requires Inv(s0) && i <= n <= |sched|
  {
    if n == i then []
    else OwnPushes(s0, sched, tid, i, n - 1) +
         if sched[n - 1].tid == tid
         then Beyond(After(s0, sched, n - 1).pushed, After(s0, sched, n).pushed) else []
  }

  /** The payloads that the steps of `tid` among the labels from `i` up to `n` took out of the ring. */
  ghost function OwnPops(s0: State, sched: seq<Label>, tid: Tid, i: nat, n: nat): (vs: seq<Payload>)
    requires Inv(s0) && i <= n <= |sched|
  {
    if n == i then []
    else OwnPops(s0, sched, tid, i, n - 1) +
         if sched[n - 1].tid == tid
         then Beyond(After(s0, sched, n - 1).popped, After(s0, sched, n).popped) else []
  }

  /** Label `i` starts an operation of `tid`, and `j` is the next moment at which the thread is idle. */
  ghost predicate Spans(s0: State, sched: seq<Label>, tid: Tid, i: nat, j: nat)
    requires Inv(s0)
  {
    && i < j <= |sched| && sched[i].tid == tid
    && tid in After(s0, sched, i).pc && After(s0, sched, i).pc[tid].Idle?
    && (forall k :: i < k < j ==> tid in After(s0, sched, k).pc && !After(s0, sched, k).pc[tid].Idle?)
    && tid in After(s0, sched, j).pc && After(s0, sched, j).pc[tid].Idle?
  }

  // ---------------------------------------------------------------- one step

  /** A push of `v` in progress whose thread has so far appended `mine`. */
  predicate Pushing(p: Pc, v: Payload, mine: seq<Payload>) {
    || ((p.PushLoadCt? || p.PushLoadRd? || p.PushCasCt?) && p.v == v && mine == [])
    || (Finishing(p) && mine == [v])
  }

  predicate PushOver(p: Pc, v: Payload, mine: seq<Payload>) {
    (p == Idle(Pushed) && mine == [v]) || (p == Idle(Full) && mine == [])
  }

  lemma PushingStep(s: State, tid: Tid, act: Action, v: Payload, mine: seq<Payload>)
    requires Inv(s) && tid in s.pc && Pushing(s.pc[tid], v, mine)
    ensures tid in Exec(s, Label(tid, act)).pc
    ensures var s' := Exec(s, Label(tid, act));
      var mine' := mine + Beyond(s.pushed, s'.pushed);
      Pushing(s'.pc[tid], v, mine') || PushOver(s'.pc[tid], v, mine')
  {
    hide Cursors, Threads, Flags, Covered, Stored, LocalShape;
    var s' := Exec(s, Label(tid, act));
    assert Beyond(s.pushed, s.pushed) == [] && Beyond(s.pushed, s.pushed + [v]) == [v];
    assert s'.pushed == s.pushed || (s'.pushed == s.pushed + [v] && mine == []);
    assert mine + [] == mine && [] + [v] == [v];
  }

  lemma OthersDoNotMove(s: State, l: Label, tid: Tid)
    requires Shaped(s) && tid in s.pc && l.tid != tid
    ensures tid in Exec(s, l).pc && Exec(s, l).pc[tid] == s.pc[tid]
  {
    hide Shaped;
  }

  predicate PopOver(p: Pc, mine: seq<Payload>) {
    p.Idle? && ((p.last == Empty && mine == []) || (p.last.Popped? && mine == [p.last.v]))
  }

  lemma PoppingStep(s: State, tid: Tid, act: Action)
    requires Inv(s) && tid in s.pc && PopPc(s.pc[tid])
    ensures tid in Exec(s, Label(tid, act)).pc
    ensures var s' := Exec(s, Label(tid, act));
      var mine := Beyond(s.popped, s'.popped);
      (PopPc(s'.pc[tid]) && mine == []) || PopOver(s'.pc[tid], mine)
  {
    hide Cursors, Threads, Flags, Covered, Stored, LocalShape;
  }

  // ---------------------------------------------------------------- whole runs

  lemma {:induction false} StillPushing(s0: State, sched: seq<Label>, tid: Tid, i: nat, j: nat, n: nat, v: Payload)
    requires Inv(s0) && Spans(s0, sched, tid, i, j) && sched[i].act == StartPush(v) && |v| == s0.w && i < n <= j
    ensures tid in After(s0, sched, n).pc
    ensures var p, mine := After(s0, sched, n).pc[tid], OwnPushes(s0, sched, tid, i, n);
      Pushing(p, v, mine) || (n == j && PushOver(p, v, mine))
    decreases n
  {
    hide Inv, Exec, Pushing, PushOver, Beyond;
    var s := After(s0, sched, n - 1);
    if n == i + 1 {
      WidthKept(s0, sched, i);
      FirstStep(s, tid, v);
      assert OwnPushes(s0, sched, tid, i, i) == [];
    } else {
      StillPushing(s0, sched, tid, i, j, n - 1, v);
      var mine := OwnPushes(s0, sched, tid, i, n - 1);
      NotOver(s.pc[tid], v, mine);
      if sched[n - 1].tid == tid {
        PushingStep(s, tid, sched[n - 1].act, v, mine);
      } else {
        OthersDoNotMove(s, sched[n - 1], tid);
        assert mine + [] == mine;
      }
      if n < j { NotOver(After(s0, sched, n).pc[tid], v, OwnPushes(s0, sched, tid, i, n)); }
    }
  }

  lemma NotOver(p: Pc, v: Payload, mine: seq<Payload>)
    ensures !p.Idle? ==> !PushOver(p, v, mine)
    ensures p.Idle? ==> !Pushing(p, v, mine)
  {
  }

  lemma FirstStep(s: State, tid: Tid, v: Payload)
    requires Inv(s) && tid in s.pc && s.pc[tid].Idle? && |v| == s.w
    ensures var s' := Exec(s, Label(tid, StartPush(v)));
      tid in s'.pc && Pushing(s'.pc[tid], v, [] + Beyond(s.pushed, s'.pushed))
  {
    hide Cursors, Threads, Flags, Covered, Stored, LocalShape;
  }

  lemma {:induction false} WidthKept(s0: State, sched: seq<Label>, k: nat)
    requires Inv(s0) && k <= |sched|
    ensures After(s0, sched, k).w == s0.w
  {
    hide Inv, Shaped;
    if k > 0 { WidthKept(s0, sched, k - 1); }
  }

  /** The result of a push is the truth: `Pushed` means its thread appended the payload once, `Full` that it appended nothing. */
  lemma PushReturnsWhatItDid(s0: State, sched: seq<Label>, tid: Tid, i: nat, j: nat, v: Payload)
    requires Inv(s0) && Spans(s0, sched, tid, i, j) && sched[i].act == StartPush(v) && |v| == s0.w
    ensures After(s0, sched, j).pc[tid] in {Idle(Pushed), Idle(Full)}
    ensures OwnPushes(s0, sched, tid, i, j) == if After(s0, sched, j).pc[tid] == Idle(Pushed) then [v] else []
  {
    hide Inv, Exec, After;
    StillPushing(s0, sched, tid, i, j, j, v);
  }

  lemma {:induction false} StillPopping(s0: State, sched: seq<Label>, tid: Tid, i: nat, j: nat, n: nat)
    requires Inv(s0) && Spans(s0, sched, tid, i, j) && sched[i].act == StartPop && i < n <= j
    ensures tid in After(s0, sched, n).pc
    ensures var p, mine := After(s0, sched, n).pc[tid], OwnPops(s0, sched, tid, i, n);
      (PopPc(p) && mine == []) || (n == j && PopOver(p, mine))
    decreases n
  {
    hide Inv, Exec, Beyond;
    var s := After(s0, sched, n - 1);
    if n == i + 1 {
      FirstPopStep(s, tid);
      assert OwnPops(s0, sched, tid, i, i) == [];
    } else {
      StillPopping(s0, sched, tid, i, j, n - 1);
      if sched[n - 1].tid == tid {
        PoppingStep(s, tid, sched[n - 1].act);
      } else {
        OthersDoNotMove(s, sched[n - 1], tid);
      }
    }
  }

  lemma FirstPopStep(s: State, tid: Tid)
    requires Inv(s) && tid in s.pc && s.pc[tid].Idle?
    ensures var s' := Exec(s, Label(tid, StartPop));
      tid in s'.pc && PopPc(s'.pc[tid]) && Beyond(s.popped, s'.popped) == []
  {
    hide Cursors, Threads, Flags, Covered, Stored, LocalShape;
  }

  /** The result of a pop is the truth: the payload it returns is the one its thread took out, and `Empty` means it took none. */
  lemma PopReturnsWhatItTook(s0: State, sched: seq<Label>, tid: Tid, i: nat, j: nat)
    requires Inv(s0) && Spans(s0, sched, tid, i, j) && sched[i].act == StartPop
    ensures var p := After(s0, sched, j).pc[tid];
      && (p.last == Empty || p.last.Popped?)
      && OwnPops(s0, sched, tid, i, j) == if p.last.Popped? then [p.last.v] else []
  {
    hide Inv, Exec, After;
    StillPopping(s0, sched, tid, i, j, j);
  }

  /** The history of pushes grows by nothing but such appends: one payload, by a thread whose push of it then holds the ticket. */
  lemma OnlyPushesGrowHistory(s: State, l: Label)
    requires Inv(s)
    ensures var s' := Exec(s, l);
      || s'.pushed == s.pushed
      || (&& l.tid in s.pc && l.tid in s'.pc && s.pc[l.tid].PushCasCt? && s'.pushed == s.pushed + [s.pc[l.tid].v]
          && s'.pc[l.tid] == PushWrite(s.pc[l.tid].v, |s.pushed|, 0))
  {
    hide Threads, Flags, Covered, Stored, LocalShape;
  }

  // ---------------------------------------------------------------- why an operation is refused

  /**
    A push ends with full only on its room test. Either one slot less than all are taken, or the `ct` that it
    loaded is so old that its ticket has been pushed and popped since.
   */
  lemma FullOnlyWithoutRoom(s: State, l: Label)
    requires Inv(s) && l.tid in s.pc && !s.pc[l.tid].Idle? && Exec(s, l).pc[l.tid] == Idle(Full)
    ensures s.pc[l.tid].PushLoadRd?
    ensures (s.pc[l.tid].cur == s.ct && s.ct - s.rd == |s.data| - 1) || s.pc[l.tid].cur < s.rd
  {
    hide Flags, Covered, Stored, LocalShape, Slot;
    OnlyRoomTestSaysFull(s, l);
    assert PcOk(s, s.pc[l.tid]);
    if s.pc[l.tid].cur >= s.rd { RoomTest(s, s.pc[l.tid].cur); }
  }

  lemma OnlyRoomTestSaysFull(s: State, l: Label)
    requires Shaped(s) && l.tid in s.pc && !s.pc[l.tid].Idle? && Exec(s, l).pc[l.tid] == Idle(Full)
    ensures s.pc[l.tid].PushLoadRd? && Slot(s, s.pc[l.tid].cur + 1) == Slot(s, s.rd)
  {
    hide Shaped, Slot;
  }

  lemma RoomTest(s: State, cur: nat)
    requires Shaped(s) && Cursors(s) && s.rd <= cur <= s.ct && Slot(s, cur + 1) == Slot(s, s.rd)
    ensures cur == s.ct && s.ct - s.rd == |s.data| - 1
  {
    hide LocalShape;
    if cur + 1 < s.rd + |s.data| { SlotInjective(s.rd, cur + 1, |s.data|); }
  }

  /**
    The second case does happen, on any ring: `a` has loaded `ct` for its push into an empty ring when `b` pushes and
    pops one message. The ring is empty again, and the push of `a` reports that it is full.
   */
  lemma StaleLoadSaysFull(s: State, a: Tid, b: Tid, u: Payload, v: Payload)
    requires Inv(s) && AtRest(s) && a in s.pc && b in s.pc && a != b && s.rd == s.ct && |u| == |v| == s.w
    ensures var s1 := Exec(s, Label(a, StartPush(v))); Inv(s1) && s1 == At(s, a, PushLoadCt(v))
    ensures var s2 := Exec(Exec(s, Label(a, StartPush(v))), Label(a, Go)); Inv(s2) && s2 == At(s, a, PushLoadRd(v, s.ct))
    ensures PushOnce(At(s, a, PushLoadRd(v, s.ct)), b, u).pc[b] == Idle(Pushed)
    ensures var s4 := PopOnce(PushOnce(At(s, a, PushLoadRd(v, s.ct)), b, u), b);
      s4.pc[b] == Idle(Popped(u)) && s4.rd == s4.ct && Exec(s4, Label(a, Go)).pc[a] == Idle(Full)
  {
    hide Threads, Flags, Covered, Stored, LocalShape, PushOnce, PopOnce, Ready, Exec;
    PushStarts(s, a, v);
    LoadsCt(At(s, a, PushLoadCt(v)), a, v);
    var s2 := At(s, a, PushLoadRd(v, s.ct));
    assert At(At(s, a, PushLoadCt(v)), a, PushLoadRd(v, s.ct)) == s2;
    var s3 := PushOnce(s2, b, u);
    ReadyUnlessOwned(s3);
    var s4 := PopOnce(s3, b);
    SeesNoRoom(s4, a, v);
  }

  lemma LoadsCt(s: State, a: Tid, v: Payload)
    requires Inv(s) && a in s.pc && s.pc[a] == PushLoadCt(v)
    ensures var s' := Exec(s, Label(a, Go)); Inv(s') && s' == At(s, a, PushLoadRd(v, s.ct))
  {
    hide Threads, Flags, Covered, Stored, LocalShape;
    ExecKeepsInv(s, Label(a, Go));
  }

  lemma SeesNoRoom(s: State, a: Tid, v: Payload)
    requires Inv(s) && a in s.pc && s.rd > 0 && s.pc[a] == PushLoadRd(v, s.rd - 1)
    ensures Exec(s, Label(a, Go)).pc[a] == Idle(Full)
  {
    hide Threads, Flags, Covered, Stored, LocalShape;
  }

  /** A pop ends with empty only on a ticket at the `wt` it read that is not announced any more or not yet. */
  lemma EmptyOnlyUnannounced(s: State, l: Label)
    requires Inv(s) && l.tid in s.pc && !s.pc[l.tid].Idle? && Exec(s, l).pc[l.tid] == Idle(Empty)
    ensures s.pc[l.tid].PopLoadFlag? && Stage(s, s.pc[l.tid].x) != 2
  {
    hide Threads, Flags, Covered, Stored, LocalShape;
    Facts(s, l.tid);
  }
}
