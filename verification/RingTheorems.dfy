/**
  What the ring promises: over every interleaving, first in first out with nothing
  lost, duplicated or torn; each ticket committed by exactly one thread; and a quiet
  ring can always be emptied by one popper.
 */
module RingTheorems {
  import opened Options
  import opened Ring

  lemma InitHasInv(s: State)
    requires Init(s)
    ensures Inv(s)
  {
  }

  /** The state of a run after the first `k` labels of its schedule. */
  ghost function After(s: State, sched: seq<Label>, k: nat): (r: State)
    requires Inv(s) && k <= |sched|
    ensures Inv(r) && Shaped(r)
  {
    if k == 0 then s
    else
      var before := After(s, sched, k - 1);
      ExecKeepsInv(before, sched[k - 1]);
      Exec(before, sched[k - 1])
  }

  // ---------------------------------------------------------------- order and integrity

  /** The step ends no pop with a payload and leaves `rd` and the history alone. */
  ghost predicate PopsNothing(s: State, s': State, tid: Tid) {
    && s'.popped == s.popped && s'.rd == s.rd
    && (tid in s.pc && !s.pc[tid].Idle? ==> tid in s'.pc && !(s'.pc[tid].Idle? && s'.pc[tid].last.Popped?))
  }

  /** The step ends a pop with the payload of ticket `rd`, and appends it to the history. */
  ghost predicate PopsOldest(s: State, s': State, tid: Tid) {
    && tid in s.pc && tid in s'.pc && s.pc[tid].PopCopy? && s'.rd == s.rd + 1 && s.rd < s.wt && s.rd < |s.pushed|
    && s'.popped == s.popped + [s.pushed[s.rd]] && s'.pc[tid] == Idle(Popped(s.pushed[s.rd]))
  }

  /** The histories record what the operations do: a step appends to `popped` exactly what the pop returns. */
  lemma HistoryIsWhatPopsReturn(s: State, l: Label)
    requires Inv(s)
    ensures PopsNothing(s, Exec(s, l), l.tid) || PopsOldest(s, Exec(s, l), l.tid)
  {
    hide Threads, Flags, Covered, Stored;
    if l.tid in s.pc && l.act.Go? && s.pc[l.tid].PopCopy? && |s.pc[l.tid].buf| >= s.w && s.pc[l.tid].r == s.rd {
      KeepsAdvanceRd(s, l.tid);
    } else {
      OtherStepsPopNothing(s, l);
    }
  }

  lemma OtherStepsPopNothing(s: State, l: Label)
    requires Shaped(s)
    requires !(l.tid in s.pc && l.act.Go? && s.pc[l.tid].PopCopy? && |s.pc[l.tid].buf| >= s.w && s.pc[l.tid].r == s.rd)
    ensures PopsNothing(s, Exec(s, l), l.tid)
  {
    hide Shaped;
  }

  /** In every interleaving the payloads popped are, in order, the first of those pushed, byte for byte. */
  lemma FirstInFirstOut(s0: State, sched: seq<Label>)
    requires Init(s0)
    ensures var s := After(s0, sched, |sched|);
      s.popped <= s.pushed && |s.popped| == s.rd && |s.pushed| == s.ct && s.popped == s.pushed[..s.rd]
  {
    InitHasInv(s0);
  }

  /** In every reachable state the cursors are ordered and at most one ticket less than the slots is outstanding. */
  lemma CursorsOrdered(s0: State, sched: seq<Label>)
    requires Init(s0)
    ensures var s := After(s0, sched, |sched|); s.rd <= s.wt <= s.ct <= s.rd + |s.data| - 1
  {
    InitHasInv(s0);
  }

  // ---------------------------------------------------------------- life of a ticket

  /** 0 not taken, 1 being written, 2 announced, 3 flag cleared by one thread, 4 passed by `wt`. */
  ghost function Stage(s: State, t: nat): (g: nat)
    requires |s.flag| == |s.data| > 0
  {
    if t >= s.ct then 0
    else if t < s.wt then 4
    else if s.flag[Slot(s, t)] == Some(t) then 2
    else if Claimed(s, t) then 3
    else 1
  }

  /** The step takes down the flag of ticket `t`. */
  ghost predicate Clears(s: State, l: Label, t: nat)
    requires Shaped(s)
  {
    s.flag[Slot(s, t)] == Some(t) && Exec(s, l).flag[Slot(s, t)] != Some(t)
  }

  /** How a step may act on shared memory. */
  ghost predicate Quiet(s: State, s': State, tid: Tid) {
    && tid in s.pc && tid in s'.pc && s'.pc == s.pc[tid := s'.pc[tid]]
    && s'.flag == s.flag && s'.wt == s.wt && s'.ct == s.ct && |s'.data| == |s.data|
    && Claims(s.pc[tid]) == Claims(s'.pc[tid]) == None
  }

  function Claims(p: Pc): Option<nat> {
    match p
    case HelpStoreWt(cur) => Some(cur)
    case PopStoreWt(x) => Some(x)
    case _ => None
  }

  lemma QuietKeepsStage(s: State, s': State, tid: Tid, t: nat)
    requires Inv(s) && Inv(s') && Quiet(s, s', tid)
    ensures Stage(s', t) == Stage(s, t)
  {
    hide Covered, Stored;
    if Claimed(s, t) {
      var q :| q in s.pc && (s.pc[q] == HelpStoreWt(t) || s.pc[q] == PopStoreWt(t));
      assert q != tid && s'.pc[q] == s.pc[q];
    }
    if Claimed(s', t) {
      var q :| q in s'.pc && (s'.pc[q] == HelpStoreWt(t) || s'.pc[q] == PopStoreWt(t));
      assert q != tid && s'.pc[q] == s.pc[q];
    }
  }

  lemma TakeTicketStage(s: State, tid: Tid, t: nat)
    requires Inv(s) && tid in s.pc && s.pc[tid].PushCasCt? && s.pc[tid].cur == s.ct && Inv(PushStep(s, tid))
    ensures Stage(PushStep(s, tid), t) == if t == s.ct then 1 else Stage(s, t)
  {
    hide Covered, Stored;
    var s' := PushStep(s, tid);
    OtherTicketsUnmoved(s, s', tid, s.ct);
    if t == s.ct {
      assert PcOk(s', s'.pc[tid]);
      assert Owned(s'.pc[tid]) == Some(t);
    }
  }

  lemma SetFlagStage(s: State, tid: Tid, t: nat)
    requires Inv(s) && tid in s.pc && s.pc[tid].PushWrite? && s.pc[tid].i == s.w && Inv(PushStep(s, tid))
    ensures var x := s.pc[tid].t; Stage(s, x) == 1 && Stage(PushStep(s, tid), t) == if t == x then 2 else Stage(s, t)
  {
    hide Covered, Stored;
    var s' := PushStep(s, tid);
    var x := s.pc[tid].t;
    assert PcOk(s, s.pc[tid]);
    assert Owned(s.pc[tid]) == Some(x);
    OtherTicketsUnmoved(s, s', tid, x);
    if t != x && s.wt <= t < s.ct { LiveSlotsDistinct(s, t, x); }
  }

  lemma ClearFlagStage(s: State, s': State, tid: Tid, t: nat)
    requires Inv(s) && Inv(s') && tid in s.pc && tid in s'.pc
    requires s.pc[tid] == HelpCasFlag(s.wt) || s.pc[tid] == PopCasFlag(s.wt)
    requires s.flag[Slot(s, s.wt)] == Some(s.wt) && Claims(s'.pc[tid]) == Some(s.wt)
    requires s' == At(s.(flag := s.flag[Slot(s, s.wt) := None]), tid, s'.pc[tid])
    ensures Stage(s, s.wt) == 2 && Stage(s', t) == if t == s.wt then 3 else Stage(s, t)
  {
    FlagUpMeansAtWt(s, tid, s.wt);
    OtherTicketsUnmoved(s, s', tid, s.wt);
    assert Claimed(s', s.wt);
    if t != s.wt && s.wt <= t < s.ct { LiveSlotsDistinct(s, t, s.wt); }
  }

  lemma AdvanceWtStage(s: State, s': State, tid: Tid, t: nat)
    requires Inv(s) && Inv(s') && tid in s.pc && tid in s'.pc
    requires Claims(s.pc[tid]) == Some(s.wt) && Owned(s'.pc[tid]) == None
    requires s' == At(s.(wt := s.wt + 1), tid, s'.pc[tid])
    ensures Stage(s, s.wt) == 3 && Stage(s', t) == if t == s.wt then 4 else Stage(s, t)
  {
    ClaimIsAtWt(s, tid);
    OtherTicketsUnmoved(s, s', tid, s.wt);
    assert Claimed(s, s.wt);
  }

  /** Steps that touch neither a flag, nor `wt`, nor `ct`. */
  predicate QuietPc(p: Pc) {
    !(p.PushCasCt? || p.PushWrite? || p.HelpStoreWt? || p.PopStoreWt? || p.HelpCasFlag? || p.PopCasFlag?)
  }

  lemma QuietPcIsQuiet(s: State, l: Label)
    requires Shaped(s) && l.tid in s.pc && QuietPc(s.pc[l.tid])
    ensures Quiet(s, Exec(s, l), l.tid)
  {
    match s.pc[l.tid]
    case Idle(_) => match l.act { case StartPush(v) => case _ => }
    case PopCopy(_, _) =>
    case PushLoadCt(_) =>
    case _ =>
  }

  lemma PushExchangeStage(s: State, l: Label, t: nat)
    requires Inv(s) && Inv(Exec(s, l)) && l.tid in s.pc && s.pc[l.tid].PushCasCt?
    ensures Stage(s, t) <= Stage(Exec(s, l), t) <= Stage(s, t) + 1
  {
    if l.act.Go? && s.pc[l.tid].cur == s.ct {
      TakeTicketStage(s, l.tid, t);
    } else if Exec(s, l) != s {
      QuietKeepsStage(s, Exec(s, l), l.tid, t);
    }
  }

  lemma PushWriteStage(s: State, l: Label, t: nat)
    requires Inv(s) && Inv(Exec(s, l)) && l.tid in s.pc && s.pc[l.tid].PushWrite?
    ensures Stage(s, t) <= Stage(Exec(s, l), t) <= Stage(s, t) + 1
  {
    hide Covered, Stored;
    if l.act.Go? && s.pc[l.tid].i == s.w {
      SetFlagStage(s, l.tid, t);
    } else if Exec(s, l) != s {
      QuietKeepsStage(s, Exec(s, l), l.tid, t);
    }
  }

  lemma ClaimStage(s: State, l: Label, t: nat)
    requires Inv(s) && Inv(Exec(s, l)) && l.tid in s.pc && Claims(s.pc[l.tid]).Some?
    ensures Stage(s, t) <= Stage(Exec(s, l), t) <= Stage(s, t) + 1
  {
    hide Covered, Stored, Threads, Stage;
    ClaimIsAtWt(s, l.tid);
    if l.act.Go? { AdvanceWtStage(s, Exec(s, l), l.tid, t); }
  }

  lemma FlagExchangeStage(s: State, l: Label, x: nat, t: nat)
    requires Inv(s) && Inv(Exec(s, l)) && l.tid in s.pc
    requires s.pc[l.tid] == HelpCasFlag(x) || s.pc[l.tid] == PopCasFlag(x)
    ensures Stage(s, t) <= Stage(Exec(s, l), t) <= Stage(s, t) + 1
  {
    hide Threads, Covered, Stored;
    var s' := Exec(s, l);
    if l.act.Go? && s.flag[Slot(s, x)] == Some(x) {
      FlagUpMeansAtWt(s, l.tid, x);
      ClearFlagStage(s, s', l.tid, t);
    } else if s' != s {
      QuietKeepsStage(s, s', l.tid, t);
    }
  }

  /** Each ticket passes through the stages one at a time, and never goes back. */
  lemma StageAdvances(s: State, l: Label, t: nat)
    requires Inv(s)
    ensures Inv(Exec(s, l)) && Stage(s, t) <= Stage(Exec(s, l), t) <= Stage(s, t) + 1
  {
    ExecKeepsInv(s, l);
    if l.tid in s.pc {
      match s.pc[l.tid]
      case PushCasCt(_, _) => PushExchangeStage(s, l, t);
      case PushWrite(_, _, _) => PushWriteStage(s, l, t);
      case HelpStoreWt(_) => ClaimStage(s, l, t);
      case PopStoreWt(_) => ClaimStage(s, l, t);
      case HelpCasFlag(x) => FlagExchangeStage(s, l, x, t);
      case PopCasFlag(x) => FlagExchangeStage(s, l, x, t);
      case _ => QuietPcIsQuiet(s, l); QuietKeepsStage(s, Exec(s, l), l.tid, t);
    }
  }

  /** Along a run the stage of a ticket never goes down. */
  lemma {:induction false} StageMonotone(s: State, sched: seq<Label>, i: nat, j: nat, t: nat)
    requires Inv(s) && i <= j <= |sched|
    ensures Stage(After(s, sched, i), t) <= Stage(After(s, sched, j), t)
    decreases j - i
  {
    hide Exec, Inv, Shaped, Stage, Clears;
    if i < j {
      StageMonotone(s, sched, i, j - 1, t);
      StageAdvances(After(s, sched, j - 1), sched[j - 1], t);
    }
  }

  /** The flag of a ticket is taken down at most once in any run: its commit has one clearer. */
  lemma OneClearerPerTicket(s0: State, sched: seq<Label>, i: nat, j: nat, t: nat)
    requires Inv(s0) && i < j < |sched|
    requires Clears(After(s0, sched, i), sched[i], t)
    ensures !Clears(After(s0, sched, j), sched[j], t)
  {
    hide Exec, Inv, Shaped, Stage, Clears;
    ClearedStage(After(s0, sched, i), sched[i], t);
    StageMonotone(s0, sched, i + 1, j, t);
    if Clears(After(s0, sched, j), sched[j], t) { ClearedStage(After(s0, sched, j), sched[j], t); }
  }

  /** Once `wt` has passed a ticket, exactly one earlier step of the run took its flag down. */
  lemma ExactlyOneClearer(s0: State, sched: seq<Label>, t: nat) returns (i: nat)
    requires Init(s0) && t < After(s0, sched, |sched|).wt
    ensures i < |sched| && Clears(After(s0, sched, i), sched[i], t)
    ensures forall j :: 0 <= j < |sched| && j != i ==> !Clears(After(s0, sched, j), sched[j], t)
  {
    InitHasInv(s0);
    hide Exec, Clears, After, Threads, Flags, Covered, Stored;
    assert After(s0, sched, 0) == s0 by { AfterNothing(s0, sched); }
    assert Stage(s0, t) == 0;
    assert Stage(After(s0, sched, |sched|), t) == 4 by { assert Cursors(After(s0, sched, |sched|)); }
    i := ClearedBefore(s0, sched, |sched|, t);
    forall j | 0 <= j < |sched| && j != i ensures !Clears(After(s0, sched, j), sched[j], t) {
      if i < j { OneClearerPerTicket(s0, sched, i, j, t); }
      else if Clears(After(s0, sched, j), sched[j], t) { OneClearerPerTicket(s0, sched, j, i, t); }
    }
  }

  lemma AfterNothing(s0: State, sched: seq<Label>)
    requires Inv(s0)
    ensures After(s0, sched, 0) == s0
  {
  }

  lemma {:induction false} ClearedBefore(s0: State, sched: seq<Label>, n: nat, t: nat) returns (i: nat)
    requires Inv(s0) && n <= |sched| && Stage(s0, t) < 3 <= Stage(After(s0, sched, n), t)
    ensures i < n && Clears(After(s0, sched, i), sched[i], t)
  {
    hide Exec, Inv, Stage, Clears;
    assert After(s0, sched, 0) == s0;
    var s := After(s0, sched, n - 1);
    if Stage(s, t) >= 3 {
      i := ClearedBefore(s0, sched, n - 1, t);
    } else {
      i := n - 1;
      StageAdvances(s, sched[i], t);
      ThirdStageClears(s, sched[i], t);
    }
  }

  lemma ThirdStageClears(s: State, l: Label, t: nat)
    requires Inv(s) && Stage(s, t) == 2 && Stage(Exec(s, l), t) == 3
    ensures Clears(s, l, t)
  {
    hide Inv, Threads, Flags, Covered, Stored, Claimed;
  }

  lemma ClearedStage(s: State, l: Label, t: nat)
    requires Inv(s) && Clears(s, l, t)
    ensures Stage(s, t) == 2 && Stage(Exec(s, l), t) == 3
    ensures l.tid in s.pc && l.tid in Exec(s, l).pc && Claims(Exec(s, l).pc[l.tid]) == Some(t) && t == s.wt
  {
    hide Covered, Stored, Threads, Flags, Stage;
    ClearIsExchange(s, l, t);
    FlagUpMeansAtWt(s, l.tid, t);
    ExecKeepsInv(s, l);
    ClearFlagStage(s, Exec(s, l), l.tid, t);
  }

  lemma ClearIsExchange(s: State, l: Label, t: nat)
    requires Inv(s) && Clears(s, l, t)
    ensures l.tid in s.pc && l.act.Go? && (s.pc[l.tid] == HelpCasFlag(t) || s.pc[l.tid] == PopCasFlag(t))
  {
    hide Covered, Stored, Threads, Flags;
    if l.tid in s.pc {
      Facts(s, l.tid);
      if QuietPc(s.pc[l.tid]) { QuietPcIsQuiet(s, l); }
    }
  }

  /** Whoever takes a flag down stays at the store of `wt` until it does that store itself. */
  lemma ClaimHeld(s: State, l: Label, tid: Tid, t: nat)
    requires Inv(s) && tid in s.pc && Claims(s.pc[tid]) == Some(t)
    ensures tid in Exec(s, l).pc
    ensures Exec(s, l).wt == s.wt + 1 <==> l == Label(tid, Go)
    ensures l != Label(tid, Go) ==> Exec(s, l).wt == s.wt == t && Claims(Exec(s, l).pc[tid]) == Some(t)
  {
    hide Threads, Covered, Stored, Flags;
    Facts(s, tid);
    ClaimIsAtWt(s, tid);
    WtMovesByClaimant(s, l);
  }

  /** `wt` moves by one, and only at the hand of the thread that holds the claim on its ticket. */
  lemma WtMovesByClaimant(s: State, l: Label)
    requires Inv(s)
    ensures var s' := Exec(s, l);
      s'.wt == s.wt || (s'.wt == s.wt + 1 && l.act.Go? && l.tid in s.pc && Claims(s.pc[l.tid]) == Some(s.wt))
  {
    if l.tid in s.pc {
      if Claims(s.pc[l.tid]).Some? { ClaimIsAtWt(s, l.tid); }
      else if QuietPc(s.pc[l.tid]) { QuietPcIsQuiet(s, l); }
    }
  }

  /** The thread that took down the flag of `t` is the one that moves `wt` from `t` to `t + 1`. */
  lemma ClearerMovesWt(s0: State, sched: seq<Label>, i: nat, j: nat, t: nat)
    requires Inv(s0) && i < j < |sched|
    requires Clears(After(s0, sched, i), sched[i], t)
    requires After(s0, sched, j).wt == t && After(s0, sched, j + 1).wt == t + 1
    ensures sched[j] == Label(sched[i].tid, Go)
  {
    hide Exec, Inv, Shaped, Clears;
    ClearedStage(After(s0, sched, i), sched[i], t);
    ClaimHeldAlong(s0, sched, i + 1, j, sched[i].tid, t);
    ClaimHeld(After(s0, sched, j), sched[j], sched[i].tid, t);
  }

  lemma {:induction false} ClaimHeldAlong(s0: State, sched: seq<Label>, i: nat, j: nat, tid: Tid, t: nat)
    requires Inv(s0) && i <= j <= |sched|
    requires tid in After(s0, sched, i).pc && Claims(After(s0, sched, i).pc[tid]) == Some(t)
    requires After(s0, sched, j).wt == t
    ensures tid in After(s0, sched, j).pc && Claims(After(s0, sched, j).pc[tid]) == Some(t)
    decreases j - i
  {
    hide Exec, Inv, Shaped, Clears;
    if i < j {
      var s := After(s0, sched, i);
      ClaimIsAtWt(s, tid);
      assert After(s0, sched, i + 1) == Exec(s, sched[i]);
      ClaimHeld(s, sched[i], tid, t);
      WtMonotone(s0, sched, i + 1, j);
      ClaimHeldAlong(s0, sched, i + 1, j, tid, t);
    }
  }

  /** `wt` never goes back. */
  lemma {:induction false} WtMonotone(s0: State, sched: seq<Label>, i: nat, j: nat)
    requires Inv(s0) && i <= j <= |sched|
    ensures After(s0, sched, i).wt <= After(s0, sched, j).wt
    decreases j - i
  {
    hide Exec, Inv, Shaped, Clears;
    if i < j {
      WtMonotone(s0, sched, i, j - 1);
      WtMovesByClaimant(After(s0, sched, j - 1), sched[j - 1]);
    }
  }

  /** Once announced, an unpopped ticket keeps its payload: no step rewrites its slot. */
  lemma AnnouncedSlotKept(s: State, l: Label, t: nat)
    requires Inv(s) && Stage(s, t) >= 2 && Exec(s, l).rd <= t
    ensures Exec(s, l).data[Slot(s, t)] == s.data[Slot(s, t)] == s.pushed[t]
  {
    hide Inv, Exec, Stage;
    InvIsShaped(s);
    var s' := Exec(s, l);
    StageAdvances(s, l, t);
    HistoryGrows(s, l);
    AnnouncedIsStored(s, t);
    AnnouncedIsStored(s', t);
  }

  lemma InvIsShaped(s: State)
    requires Inv(s)
    ensures Shaped(s)
  {
  }

  lemma AnnouncedIsStored(s: State, t: nat)
    requires Inv(s) && Stage(s, t) >= 2 && s.rd <= t
    ensures t < |s.pushed| && s.data[Slot(s, t)] == s.pushed[t]
  {
    OwnedInRange(s);
    assert !Writing(s, t);
  }

  lemma HistoryGrows(s: State, l: Label)
    requires Inv(s)
    ensures s.pushed <= Exec(s, l).pushed && s.rd <= Exec(s, l).rd
  {
    HistoryIsWhatPopsReturn(s, l);
    if l.tid in s.pc && QuietPc(s.pc[l.tid]) { QuietPcIsQuiet(s, l); }
  }

  // ------------------------------------------- one popper, the others stopped anywhere

  /** A pop that now loads both cursors will find a payload. */
  predicate Ready(s: State)
    requires |s.flag| == |s.data| > 0
  {
    s.rd < s.wt || s.flag[Slot(s, s.wt)] == Some(s.wt)
  }

  /** What the popper has loaded is still current. */
  ghost predicate Fresh(s: State, tid: Tid)
    requires Inv(s) && tid in s.pc
  {
    match s.pc[tid]
    case PopLoadRd => true
    case PopLoadWt(r) => r == s.rd
    case PopLoadFlag(x) => x == s.wt == s.rd
    case PopCasFlag(x) => x == s.wt == s.rd && s.flag[Slot(s, x)] == Some(x)
    case PopStoreWt(x) => x == s.wt
    case PopCopy(r, _) => r == s.rd
    case _ => false
  }

  /** The ring is ready, or will be once this thread has stored `wt`. */
  ghost predicate WillFind(s: State, tid: Tid)
    requires Inv(s) && tid in s.pc
  {
    Ready(s) || s.pc[tid].PopStoreWt?
  }

  /** Distance from the end of the pop while `wt` stands still; a stale load costs another round. */
  function Rank(s: State, p: Pc): nat
    requires |s.flag| == |s.data| > 0
  {
    match p
    case PopLoadWt(r) => if r == s.rd then 4 else 8
    case PopCopy(r, _) => if r == s.rd then 0 else 7
    case PopCasFlag(x) => if s.flag[Slot(s, x)] == Some(x) then 2 else 6
    case PopLoadRd => 5
    case PopLoadFlag(_) => 3
    case PopStoreWt(_) => 1
    case _ => 0
  }

  predicate Copied(p: Pc, p': Pc) {
    p.PopCopy? && p'.PopCopy? && |p'.buf| == |p.buf| + 1
  }

  /** A step of a popper ends the pop, or gets closer to the end; on current loads it ends the pop as it should. */
  ghost predicate PopAdvances(s: State, s': State, tid: Tid)
    requires Inv(s) && tid in s.pc && Inv(s')
  {
    && s'.ct == s.ct && s'.pushed == s.pushed && |s'.data| == |s.data| && s'.w == s.w
    && tid in s'.pc && s'.pc == s.pc[tid := s'.pc[tid]]
    && if s'.pc[tid].Idle?
       then && s'.pc[tid].last in {Empty, Popped(if s.rd < |s.pushed| then s.pushed[s.rd] else [])}
            && (Fresh(s, tid) ==>
                 if WillFind(s, tid)
                 then s.rd < |s.pushed| && s'.rd == s.rd + 1 && s'.pc[tid] == Idle(Popped(s.pushed[s.rd]))
                 else s'.rd == s.rd && s'.pc[tid] == Idle(Empty))
       else && PopPc(s'.pc[tid]) && s'.rd == s.rd && s.wt <= s'.wt
            && (Fresh(s, tid) ==> Fresh(s', tid) && WillFind(s', tid) == WillFind(s, tid))
            && (s'.wt > s.wt || Rank(s', s'.pc[tid]) < Rank(s, s.pc[tid])
                || (Rank(s', s'.pc[tid]) == Rank(s, s.pc[tid]) && Copied(s.pc[tid], s'.pc[tid])))
  }

  lemma PopperProgress(s: State, tid: Tid)
    requires Inv(s) && tid in s.pc && PopPc(s.pc[tid])
    ensures Inv(Exec(s, Label(tid, Go))) && PopAdvances(s, Exec(s, Label(tid, Go)), tid)
  {
    hide Inv, Shaped, Threads, Flags, Covered, Stored;
    Facts(s, tid);
    ExecKeepsInv(s, Label(tid, Go));
    match s.pc[tid]
    case PopLoadWt(r) =>
      if r == s.rd && Slot(s, r) == Slot(s, s.wt) { SlotInjective(r, s.wt, |s.data|); }
    case PopCopy(r, buf) => if |buf| == s.w && r == s.rd { KeepsAdvanceRd(s, tid); }
    case _ =>
  }

  /** The pop in progress at `s` ended in `r`, nobody else having moved: with the oldest payload or with empty, rightly if its loads were current. */
  ghost predicate PopResult(s: State, r: State, tid: Tid)
    requires Inv(s)
  {
    && tid in s.pc && tid in r.pc && r.pc == s.pc[tid := r.pc[tid]] && r.ct == s.ct && r.pushed == s.pushed
    && r.pc[tid].Idle? && (r.pc[tid].last == Empty || r.pc[tid].last.Popped?)
    && (Fresh(s, tid) ==>
         if WillFind(s, tid)
         then s.rd < |s.pushed| && r.rd == s.rd + 1 && r.pc[tid] == Idle(Popped(s.pushed[s.rd]))
         else r.rd == s.rd && r.pc[tid] == Idle(Empty))
  }

  lemma AdvanceThenResult(s: State, s': State, r: State, tid: Tid)
    requires Inv(s) && Inv(s') && tid in s.pc && PopAdvances(s, s', tid)
    requires if s'.pc[tid].Idle? then r == s' else PopResult(s', r, tid)
    ensures PopResult(s, r, tid)
  {
    hide Inv, Fresh, WillFind, Rank;
    assert r.pc == s.pc[tid := r.pc[tid]];
  }

  /** Rounds of the pop still possible. */
  function RoundsLeft(s: State): nat { if s.wt <= s.ct then s.ct - s.wt else 0 }

  function BytesToCopy(s: State, p: Pc): nat { if p.PopCopy? && |p.buf| <= s.w then s.w - |p.buf| else 0 }

  lemma AdvanceDecreases(s: State, s': State, tid: Tid)
    requires Inv(s) && Inv(s') && tid in s.pc && PopAdvances(s, s', tid) && !s'.pc[tid].Idle?
    ensures RoundsLeft(s') < RoundsLeft(s)
      || (RoundsLeft(s') == RoundsLeft(s) &&
           (Rank(s', s'.pc[tid]) < Rank(s, s.pc[tid])
            || (Rank(s', s'.pc[tid]) == Rank(s, s.pc[tid]) && BytesToCopy(s', s'.pc[tid]) < BytesToCopy(s, s.pc[tid]))))
  {
    hide Threads, Flags, Covered, Stored, Fresh, WillFind, Rank;
  }

  /** The state in which a pop ends when only its thread moves, wherever in their operations the others stand. */
  ghost function PopEnds(s: State, tid: Tid): (r: State)
    requires Inv(s) && tid in s.pc && PopPc(s.pc[tid])
    ensures Inv(r) && PopResult(s, r, tid)
    decreases RoundsLeft(s), Rank(s, s.pc[tid]), BytesToCopy(s, s.pc[tid])
  {
    hide Exec, LocalShape, Cursors, Threads, Flags, Covered, Stored, Fresh, WillFind, Rank, PopResult, RoundsLeft, BytesToCopy;
    PopperProgress(s, tid);
    var s' := Exec(s, Label(tid, Go));
    var r := if s'.pc[tid].Idle? then s' else (AdvanceDecreases(s, s', tid); PopEnds(s', tid));
    AdvanceThenResult(s, s', r, tid);
    r
  }

  /**
    One whole pop of a thread, the others stopped anywhere: it ends, with the oldest payload if the ring
    is ready and with empty if not. A pusher stopped while it writes ticket `rd` makes it report empty.
   */
  ghost function PopOnce(s: State, tid: Tid): (r: State)
    requires Inv(s) && tid in s.pc && s.pc[tid].Idle?
    ensures Inv(r) && tid in r.pc && r.pc == s.pc[tid := r.pc[tid]] && r.pushed == s.pushed
    ensures s.rd <= s.ct == r.ct == |s.pushed|
    ensures Ready(s) ==> s.rd < s.ct && r.rd == s.rd + 1 && r.pc[tid] == Idle(Popped(s.pushed[s.rd]))
    ensures !Ready(s) ==> r.rd == s.rd && r.pc[tid] == Idle(Empty)
  {
    hide Exec, LocalShape, Threads, Flags, Covered, Stored;
    PopStarts(s, tid);
    PopEnds(Exec(s, Label(tid, StartPop)), tid)
  }

  lemma PopStarts(s: State, tid: Tid)
    requires Inv(s) && tid in s.pc && s.pc[tid].Idle?
    ensures var r := Exec(s, Label(tid, StartPop));
      && Inv(r) && r == At(s, tid, PopLoadRd) && Fresh(r, tid) && WillFind(r, tid) == Ready(s)
      && s.rd <= s.ct == |s.pushed|
  {
    ExecKeepsInv(s, Label(tid, StartPop));
  }

  // ---------------------------------------------------------------- emptying a quiet ring

  /** A ring with no operation in progress. */
  ghost predicate AtRest(s: State) {
    forall q :: q in s.pc ==> s.pc[q].Idle?
  }

  /**
    When no thread is writing a ticket or about to move `wt`, the ring is ready exactly when a ticket is outstanding:
    `wt` may lag `ct`, the flags do not.
   */
  lemma ReadyUnlessOwned(s: State)
    requires Inv(s) && forall q :: q in s.pc ==> Owned(s.pc[q]) == None
    ensures Ready(s) <==> s.rd < s.ct
  {
    if s.wt < s.ct { assert !Writing(s, s.wt) && !Claimed(s, s.wt); }
  }

  /** One thread pops until it is told that the ring is empty; the result is what it collected. */
  ghost function Drain(s: State, tid: Tid): (vs: seq<Payload>)
    requires Inv(s) && AtRest(s) && tid in s.pc
    decreases s.ct - s.rd
  {
    var r := PopOnce(s, tid);
    if r.pc[tid].last.Popped? then [r.pc[tid].last.v] + Drain(r, tid) else []
  }

  /** It collects exactly the outstanding payloads, in ticket order, although `wt` may lag behind `ct`. */
  lemma {:induction false} DrainCollectsAll(s: State, tid: Tid)
    requires Inv(s) && AtRest(s) && tid in s.pc
    ensures Drain(s, tid) == s.pushed[s.rd..]
    decreases s.ct - s.rd
  {
    hide Inv, PopOnce, Ready;
    var r := PopOnce(s, tid);
    ReadyUnlessOwned(s);
    if s.rd < s.ct { DrainCollectsAll(r, tid); }
  }

  // ------------------------------------------- one pusher, the others stopped anywhere

  predicate PushPc(p: Pc) {
    !p.Idle? && !PopPc(p)
  }

  /** The pusher has its ticket. */
  predicate Finishing(p: Pc) {
    p.PushWrite? || p.HelpLoadFlag? || p.HelpLoadWt? || p.HelpCasFlag? || p.HelpStoreWt?
  }

  function HelpRank(p: Pc): nat {
    match p
    case PushWrite(_, _, _) => 5
    case HelpLoadFlag(_) => 4
    case HelpLoadWt(_, _) => 3
    case HelpCasFlag(_) => 2
    case HelpStoreWt(_) => 1
    case _ => 0
  }

  function BytesLeft(s: State, p: Pc): nat { if p.PushWrite? && p.i <= s.w then s.w - p.i + 1 else 0 }

  /** A step of such a pusher ends its push, or gets closer to the end: it writes on, or helps `wt` towards `ct`. */
  ghost predicate HelpStep(s: State, s': State, tid: Tid) {
    && tid in s.pc && tid in s'.pc && s'.pc == s.pc[tid := s'.pc[tid]]
    && s'.rd == s.rd && s'.ct == s.ct && s'.pushed == s.pushed
    && var p, p' := s.pc[tid], s'.pc[tid];
       p' == Idle(Pushed) || (Finishing(p') &&
         (BytesLeft(s', p') < BytesLeft(s, p) ||
          (BytesLeft(s', p') == BytesLeft(s, p) &&
            (RoundsLeft(s') < RoundsLeft(s) || (RoundsLeft(s') == RoundsLeft(s) && HelpRank(p') < HelpRank(p))))))
  }

  lemma PusherProgress(s: State, tid: Tid)
    requires Inv(s) && tid in s.pc && Finishing(s.pc[tid])
    ensures Inv(Exec(s, Label(tid, Go))) && HelpStep(s, Exec(s, Label(tid, Go)), tid)
  {
    hide Threads, Flags, Covered, Stored;
    Facts(s, tid);
    ExecKeepsInv(s, Label(tid, Go));
  }

  /** The state in which the push of a thread that has its ticket ends when only that thread moves. */
  ghost function FinishPush(s: State, tid: Tid): (r: State)
    requires Inv(s) && tid in s.pc && Finishing(s.pc[tid])
    ensures Inv(r) && r.pc == s.pc[tid := Idle(Pushed)]
    ensures r.rd == s.rd && r.ct == s.ct && r.pushed == s.pushed
    decreases BytesLeft(s, s.pc[tid]), RoundsLeft(s), HelpRank(s.pc[tid])
  {
    hide Inv, Shaped, Exec, BytesLeft, RoundsLeft, HelpRank;
    InvIsShaped(s);
    PusherProgress(s, tid);
    var s' := Exec(s, Label(tid, Go));
    if s'.pc[tid].Idle? then s' else FinishPush(s', tid)
  }

  /** The ring looks full exactly when one slot less than all are taken. */
  lemma LooksFull(rd: nat, ct: nat, n: nat)
    requires n >= 2 && rd <= ct <= rd + n - 1
    ensures Residue(ct + 1, n) == Residue(rd, n) <==> ct - rd == n - 1
  {
    if ct - rd < n - 1 && Residue(ct + 1, n) == Residue(rd, n) { SlotInjective(rd, ct + 1, n); }
  }

  /** The distance to taking a ticket; a stale load of `ct` costs another round. */
  function TicketRank(s: State, p: Pc): nat {
    match p
    case PushLoadRd(_, cur) => if cur == s.ct then 2 else 5
    case PushCasCt(_, cur) => if cur == s.ct then 1 else 4
    case PushLoadCt(_) => 3
    case _ => 0
  }

  function PayloadOf(p: Pc): Payload {
    match p
    case PushLoadCt(v) => v
    case PushLoadRd(v, _) => v
    case PushCasCt(v, _) => v
    case _ => []
  }

  /** The push has not read `ct`, or what it read is current. */
  predicate FreshPush(s: State, p: Pc) {
    p.PushLoadCt? || (p.PushLoadRd? && p.cur == s.ct) || (p.PushCasCt? && p.cur == s.ct)
  }

  /** A step of a pusher without a ticket reports full, takes the ticket `ct`, or gets closer. */
  ghost predicate TicketStep(s: State, s': State, tid: Tid) {
    && tid in s.pc && tid in s'.pc && s'.pc == s.pc[tid := s'.pc[tid]]
    && s'.rd == s.rd && |s'.data| == |s.data| && s.rd <= s.ct == |s.pushed|
    && var p, p' := s.pc[tid], s'.pc[tid];
       if p' == Idle(Full)
       then s'.ct == s.ct && s'.pushed == s.pushed && (FreshPush(s, p) ==> s.ct - s.rd == |s.data| - 1)
       else if Finishing(p')
       then s'.ct == s.ct + 1 && s'.pushed == s.pushed + [PayloadOf(p)] && s.ct - s.rd != |s.data| - 1
       else && PushPc(p') && PayloadOf(p') == PayloadOf(p) && s'.ct == s.ct && s'.pushed == s.pushed
            && TicketRank(s', p') < TicketRank(s, p) && (FreshPush(s, p) ==> FreshPush(s', p'))
  }

  lemma TicketProgress(s: State, tid: Tid)
    requires Inv(s) && tid in s.pc && PushPc(s.pc[tid]) && !Finishing(s.pc[tid])
    ensures Inv(Exec(s, Label(tid, Go))) && TicketStep(s, Exec(s, Label(tid, Go)), tid)
  {
    hide Threads, Flags, Covered, Stored;
    Facts(s, tid);
    LooksFull(s.rd, s.ct, |s.data|);
    ExecKeepsInv(s, Label(tid, Go));
  }

  /** The push in progress at `s` ended in `r`, nobody else having moved: pushed, or refused, rightly if its loads were current. */
  ghost predicate PushResult(s: State, r: State, tid: Tid) {
    && tid in s.pc && tid in r.pc && r.pc == s.pc[tid := r.pc[tid]] && r.rd == s.rd
    && (r.pc[tid] == Idle(Pushed) || r.pc[tid] == Idle(Full))
    && if Finishing(s.pc[tid])
       then r.pc[tid] == Idle(Pushed) && r.pushed == s.pushed && r.ct == s.ct
       else && (r.pc[tid] == Idle(Full) ==> r.pushed == s.pushed && r.ct == s.ct)
            && (r.pc[tid] == Idle(Pushed) ==> r.pushed == s.pushed + [PayloadOf(s.pc[tid])] && r.ct == s.ct + 1)
            && (FreshPush(s, s.pc[tid]) ==> (r.pc[tid] == Idle(Full) <==> s.ct - s.rd == |s.data| - 1))
  }

  lemma TicketThenResult(s: State, s': State, r: State, tid: Tid)
    requires TicketStep(s, s', tid) && PushPc(s.pc[tid]) && !Finishing(s.pc[tid])
    requires if s'.pc[tid].Idle? then r == s' else PushResult(s', r, tid)
    ensures PushResult(s, r, tid)
  {
    assert r.pc == s.pc[tid := r.pc[tid]];
  }

  /** The state in which a push ends when only its thread moves, wherever in their operations the others stand. */
  ghost function PushEnds(s: State, tid: Tid): (r: State)
    requires Inv(s) && tid in s.pc && PushPc(s.pc[tid])
    ensures Inv(r) && PushResult(s, r, tid)
    decreases TicketRank(s, s.pc[tid])
  {
    hide Inv, Shaped, Exec;
    if Finishing(s.pc[tid]) then FinishPush(s, tid)
    else
      InvIsShaped(s);
      TicketProgress(s, tid);
      var s' := Exec(s, Label(tid, Go));
      var r := if s'.pc[tid].Idle? then s' else PushEnds(s', tid);
      TicketThenResult(s, s', r, tid);
      r
  }

  /** One whole push of a thread, the others stopped anywhere: it reports full exactly when one slot less than all are taken. */
  ghost function PushOnce(s: State, tid: Tid, v: Payload): (r: State)
    requires Inv(s) && tid in s.pc && s.pc[tid].Idle? && |v| == s.w
    ensures Inv(r) && tid in r.pc && r.pc == s.pc[tid := r.pc[tid]] && r.rd == s.rd
    ensures s.ct - s.rd == |s.data| - 1 ==> r.pc[tid] == Idle(Full) && r.pushed == s.pushed && r.ct == s.ct
    ensures s.ct - s.rd != |s.data| - 1 ==> r.pc[tid] == Idle(Pushed) && r.pushed == s.pushed + [v] && r.ct == s.ct + 1
  {
    hide Exec, LocalShape, Threads, Flags, Covered, Stored;
    PushStarts(s, tid, v);
    PushEnds(Exec(s, Label(tid, StartPush(v))), tid)
  }

  lemma PushStarts(s: State, tid: Tid, v: Payload)
    requires Inv(s) && tid in s.pc && s.pc[tid].Idle? && |v| == s.w
    ensures var s1 := Exec(s, Label(tid, StartPush(v))); Inv(s1) && s1 == At(s, tid, PushLoadCt(v))
  {
    hide Threads, Flags, Covered, Stored;
    ExecKeepsInv(s, Label(tid, StartPush(v)));
  }
}
