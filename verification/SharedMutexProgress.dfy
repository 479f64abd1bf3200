/**
  Every operation of the shared mutex comes back when nobody stands in its way, and the
  state it leaves is the one its caller expects: the lock is granted, counted once, and
  given back entirely by the last release. The one exception is the call that waits for
  its own flag, of which the mutex module says exactly when it happens.
 */
module SharedMutexProgress {
  import opened Options
  import opened SharedMutex

  /** A slot in use belongs to some thread. */
  ghost predicate SlotsHeld(m: State) {
    forall i :: 0 <= i < |m.slots| && m.slots[i] != 0 ==> exists u :: u in m.threads && m.threads[u].slot == Some(i)
  }

  /** A step changes no slot but that of its thread, before or after. */
  lemma OnlyOwnSlotChanges(m: State, l: Label, i: nat)
    requires l.tid in m.threads && i < |m.slots|
    ensures var m' := Exec(m, l);
      && l.tid in m'.threads && m'.threads == m.threads[l.tid := m'.threads[l.tid]] && |m'.slots| == |m.slots|
      && (m'.threads[l.tid].slot != Some(i) ==>
            (m'.slots[i] == m.slots[i] && m.threads[l.tid].slot != Some(i)) || m'.slots[i] == 0)
  {
    hide Begin, FlagStep, SlotStep;
    if l.act.Go? {
      if SlotPc(m.threads[l.tid].pc) { SlotStepSlots(m, l.tid); } else { FlagStepSlots(m, l.tid); }
    } else {
      BeginSlots(m, l.tid, l.act, i);
    }
  }

  lemma FlagStepSlots(m: State, t: Tid)
    requires t in m.threads
    ensures var m' := FlagStep(m, t);
      m'.slots == m.slots && t in m'.threads && m'.threads == m.threads[t := m'.threads[t]] && m'.threads[t].slot == m.threads[t].slot
  {
  }

  lemma SlotStepSlots(m: State, t: Tid)
    requires t in m.threads
    ensures var m' := SlotStep(m, t);
      && |m'.slots| == |m.slots| && t in m'.threads && m'.threads == m.threads[t := m'.threads[t]]
      && m'.threads[t].slot == m.threads[t].slot
      && forall i :: 0 <= i < |m.slots| && m.threads[t].slot != Some(i) ==> m'.slots[i] == m.slots[i]
  {
  }

  lemma BeginSlots(m: State, t: Tid, a: Action, i: nat)
    requires t in m.threads && i < |m.slots|
    ensures var m' := Begin(m, t, a);
      && t in m'.threads && m'.threads == m.threads[t := m'.threads[t]] && |m'.slots| == |m.slots|
      && (m'.threads[t].slot != Some(i) ==>
            (m'.slots[i] == m.slots[i] && m.threads[t].slot != Some(i)) || m'.slots[i] == 0)
  {
  }

  lemma ExecKeepsSlotsHeld(m: State, l: Label)
    requires SlotsHeld(m)
    ensures SlotsHeld(Exec(m, l))
  {
    hide Begin, FlagStep, SlotStep;
    if l.tid in m.threads {
      var m' := Exec(m, l);
      if |m.slots| > 0 { OnlyOwnSlotChanges(m, l, 0); } else { NoSlots(m, l); }
      forall i | 0 <= i < |m'.slots| && m'.slots[i] != 0
        ensures exists u :: u in m'.threads && m'.threads[u].slot == Some(i)
      {
        HolderStays(m, l, i);
      }
    }
  }

  lemma NoSlots(m: State, l: Label)
    requires m.slots == []
    ensures Exec(m, l).slots == []
  {
  }

  lemma HolderStays(m: State, l: Label, i: nat)
    requires l.tid in m.threads && i < |m.slots| && SlotsHeld(m)
    requires i < |Exec(m, l).slots| && Exec(m, l).slots[i] != 0
    ensures exists u :: u in Exec(m, l).threads && Exec(m, l).threads[u].slot == Some(i)
  {
    hide Exec;
    OnlyOwnSlotChanges(m, l, i);
    var m' := Exec(m, l);
    if m'.threads[l.tid].slot != Some(i) {
      var u :| u in m.threads && m.threads[u].slot == Some(i);
      assert u in m'.threads && m'.threads[u].slot == Some(i);
    }
  }

  /** No thread but `t` is in an operation or inside a section; threads may well be registered. */
  ghost predicate Calm(m: State, t: Tid) {
    && Inv(m) && SlotsHeld(m) && t in m.threads
    && forall u :: u in m.threads && u != t ==>
         m.threads[u].pc.Client? && m.threads[u].x == m.threads[u].s == m.threads[u].f == 0
  }

  lemma CalmStays(m: State, t: Tid, a: Action)
    requires Calm(m, t)
    ensures Calm(Exec(m, Label(t, a)), t)
  {
    hide Inv, SlotsHeld;
    ExecKeepsInv(m, Label(t, a));
    ExecKeepsSlotsHeld(m, Label(t, a));
    hide Begin, FlagStep, SlotStep;
    OnlyOneMoves(m, t, a);
  }

  lemma OnlyOneMoves(m: State, t: Tid, a: Action)
    requires t in m.threads
    ensures var m' := Exec(m, Label(t, a)); t in m'.threads && m'.threads == m.threads[t := m'.threads[t]]
  {
  }

  /** What a thread knows of the flag when the others are calm. */
  lemma CalmFlag(m: State, t: Tid)
    requires Calm(m, t)
    ensures m.want == HoldsFlag(m.threads[t]) && (m.owner == Some(t) <==> Named(m.threads[t]))
    ensures m.owner in {None, Some(t)}
    ensures m.rec == if HoldsFlag(m.threads[t]) then m.threads[t].x + m.threads[t].f else 0
    ensures ThreadOk(m, m.threads[t])
  {
    hide DistinctSlots, Shut, SlotsHeld;
  }

  /** The scan of `lock` finds no slot above one: neither free slots nor those of idle readers hold it up. */
  lemma CalmSlots(m: State, t: Tid, i: nat)
    requires Calm(m, t) && m.threads[t].s == 0 && Announced(m.threads[t].pc) == 0 && i < |m.slots|
    ensures m.slots[i] <= 1
  {
    hide FlagOk, DistinctSlots, Shut;
    if m.slots[i] != 0 {
      var u :| u in m.threads && m.threads[u].slot == Some(i);
      assert ThreadOk(m, m.threads[u]);
    }
  }

  /** The state after `n` steps of `t` and of nobody else. */
  ghost function OwnSteps(m: State, t: Tid, n: nat): State
    decreases n
  {
    if n == 0 then m else OwnSteps(Exec(m, Label(t, Go)), t, n - 1)
  }

  lemma StepsInFlag(m: State, t: Tid)
    requires t in m.threads && !SlotPc(m.threads[t].pc)
    ensures Exec(m, Label(t, Go)) == FlagStep(m, t)
  {
    hide Begin, FlagStep, SlotStep;
  }

  lemma StepsInSlot(m: State, t: Tid)
    requires t in m.threads && SlotPc(m.threads[t].pc)
    ensures Exec(m, Label(t, Go)) == SlotStep(m, t)
  {
    hide Begin, FlagStep, SlotStep;
  }

  // ---------------------------------------------------------------- lock

  predicate LockPc(p: Pc) {
    p.LockTest? || p.LockCas? || p.LockOwn? || p.LockScan? || p.LockCount?
  }

  /** The lock is granted: the flag is up, `t` owns it, and it is counted once more. */
  function Locked(m: State, t: Tid): State
    requires t in m.threads
  {
    Put(m.(want := true, owner := Some(t), rec := m.rec + 1), t, m.threads[t].(pc := Client, x := m.threads[t].x + 1))
  }

  function LockRank(m: State, p: Pc): nat {
    match p
    case LockTest => |m.slots| + 5
    case LockCas => |m.slots| + 4
    case LockOwn => |m.slots| + 3
    case LockScan(i) => if i <= |m.slots| then |m.slots| - i + 2 else 2
    case _ => 1
  }

  /** Moving on inside `lock` does not change what it will end with. */
  lemma SameLocked(m: State, t: Tid, want: bool, owner: Option<Tid>, pc: Pc)
    requires t in m.threads
    ensures Locked(Goto(m.(want := want, owner := owner), t, pc), t) == Locked(m, t)
  {
  }

  ghost predicate LockAdvances(m: State, m': State, t: Tid)
    requires t in m.threads
  {
    && t in m'.threads
    && if m.threads[t].pc.LockCount? then m' == Locked(m, t)
       else LockPc(m'.threads[t].pc) && LockRank(m', m'.threads[t].pc) < LockRank(m, m.threads[t].pc) && Locked(m', t) == Locked(m, t)
  }

  lemma LockStep(m: State, t: Tid)
    requires Calm(m, t) && LockPc(m.threads[t].pc)
    ensures LockAdvances(m, Exec(m, Label(t, Go)), t)
  {
    CalmFlag(m, t);
    if m.threads[t].pc.LockScan? && m.threads[t].pc.i < |m.slots| { CalmSlots(m, t, m.threads[t].pc.i); }
    hide Calm, Exec, FlagStep, LockAdvances;
    StepsInFlag(m, t);
    LockFlagStep(m, t);
  }

  lemma LockFlagStep(m: State, t: Tid)
    requires t in m.threads && LockPc(m.threads[t].pc) && PcOk(m, m.threads[t])
    requires m.want == HoldsFlag(m.threads[t]) && (m.owner == Some(t) <==> Named(m.threads[t]))
    requires m.threads[t].pc.LockScan? && m.threads[t].pc.i < |m.slots| ==> m.slots[m.threads[t].pc.i] <= 1
    ensures LockAdvances(m, FlagStep(m, t), t)
  {
    hide Locked;
    match m.threads[t].pc
    case LockTest => SameLocked(m, t, m.want, m.owner, if m.owner == Some(t) then LockCount else LockCas);
    case LockCas => SameLocked(m, t, true, m.owner, LockOwn);
    case LockOwn => SameLocked(m, t, m.want, Some(t), LockScan(0));
    case LockScan(i) => SameLocked(m, t, m.want, m.owner, if i >= |m.slots| then LockCount else LockScan(i + 1));
    case LockCount => CountsLock(m, t);
  }

  lemma CountsLock(m: State, t: Tid)
    requires t in m.threads && m.threads[t].pc.LockCount? && m.want && m.owner == Some(t)
    ensures FlagStep(m, t) == Locked(m, t)
  {
  }

  /** A call of `lock` comes back, after finitely many steps of its thread, with the lock granted. */
  lemma {:induction false} LockReturns(m: State, t: Tid) returns (n: nat)
    requires Calm(m, t) && LockPc(m.threads[t].pc)
    ensures OwnSteps(m, t, n) == Locked(m, t)
    decreases LockRank(m, m.threads[t].pc)
  {
    hide Inv, SlotsHeld, Exec, Locked;
    LockStep(m, t);
    CalmStays(m, t, Go);
    var m' := Exec(m, Label(t, Go));
    if m.threads[t].pc.LockCount? {
      n := 1;
      assert OwnSteps(m', t, 0) == m';
    } else {
      var k := LockReturns(m', t);
      n := k + 1;
    }
  }

  // ---------------------------------------------------------------- unlock, and unlock_shared without a slot

  predicate ReleasePc(p: Pc) {
    p.Unlock? || p.UnlockFall? || p.UnlockOwner? || p.UnlockWant?
  }

  /** One hold through the flag is given back; the last of them leaves the flag down and nobody its owner. */
  function Released(m: State, t: Tid): State
    requires t in m.threads
  {
    var th := m.threads[t];
    var left := th.(pc := Client,
                    x := if th.pc.Unlock? && th.x > 0 then th.x - 1 else th.x,
                    f := if th.pc.UnlockFall? && th.f > 0 then th.f - 1 else th.f);
    if left.x + left.f == 0 then Put(m.(want := false, owner := None, rec := 0), t, left)
    else Put(m.(rec := m.rec - 1), t, left)
  }

  function ReleaseRank(p: Pc): nat {
    if p.UnlockWant? then 1 else if p.UnlockOwner? then 2 else 3
  }

  ghost predicate ReleaseAdvances(m: State, m': State, t: Tid)
    requires t in m.threads
  {
    && t in m'.threads
    && if m'.threads[t].pc.Client? then m' == Released(m, t)
       else ReleasePc(m'.threads[t].pc) && ReleaseRank(m'.threads[t].pc) < ReleaseRank(m.threads[t].pc) && Released(m', t) == Released(m, t)
  }

  lemma ReleaseStep(m: State, t: Tid)
    requires Calm(m, t) && ReleasePc(m.threads[t].pc)
    ensures ReleaseAdvances(m, Exec(m, Label(t, Go)), t)
  {
    CalmFlag(m, t);
    hide Calm, Exec, FlagStep, ReleaseAdvances;
    StepsInFlag(m, t);
    ReleaseFlagStep(m, t);
  }

  lemma ReleaseFlagStep(m: State, t: Tid)
    requires t in m.threads && ReleasePc(m.threads[t].pc) && PcOk(m, m.threads[t])
    requires m.rec == m.threads[t].x + m.threads[t].f && m.owner == if Named(m.threads[t]) then Some(t) else None
    ensures ReleaseAdvances(m, FlagStep(m, t), t)
  {
  }

  /** A call of `unlock`, or of `unlock_shared` by a thread without a slot, comes back with the hold given back. */
  lemma {:induction false} ReleaseReturns(m: State, t: Tid) returns (n: nat)
    requires Calm(m, t) && ReleasePc(m.threads[t].pc)
    ensures OwnSteps(m, t, n) == Released(m, t)
    decreases ReleaseRank(m.threads[t].pc)
  {
    hide Inv, SlotsHeld, Exec, Released;
    ReleaseStep(m, t);
    CalmStays(m, t, Go);
    var m' := Exec(m, Label(t, Go));
    if m'.threads[t].pc.Client? {
      n := 1;
      assert OwnSteps(m', t, 0) == m';
    } else {
      var k := ReleaseReturns(m', t);
      n := k + 1;
    }
  }

  // ---------------------------------------------------------------- lock_shared

  predicate SharedPc(th: Thread) {
    || (th.slot.Some? && (th.pc.SharedRegister? || th.pc.SharedLoad? || th.pc.SharedRecur? || th.pc.SharedAnnounce?
                          || th.pc.SharedCheck? || th.pc.SharedBackOff? || th.pc.SharedWait?))
    || th.pc.FallTest? || th.pc.FallCas? || th.pc.FallOwn? || th.pc.FallCount?
  }

  /** Shared access is granted, through the slot if there is one and through the flag if not. */
  function SharedLocked(m: State, t: Tid): State
    requires t in m.threads
  {
    var th := m.threads[t];
    if HasSlot(m, th)
    then Put(m.(slots := m.slots[th.slot.value := th.s + 2]), t, th.(pc := Client, s := th.s + 1))
    else Put(m.(want := true, owner := Some(t), rec := m.rec + 1), t, th.(pc := Client, f := th.f + 1))
  }

  function SharedRank(p: Pc): nat {
    match p
    case SharedRegister => 6
    case SharedLoad => 5
    case SharedBackOff => 4
    case SharedWait => 3
    case SharedAnnounce => 2
    case FallTest => 4
    case FallCas => 3
    case FallOwn => 2
    case _ => 1
  }

  ghost predicate SharedAdvances(m: State, m': State, t: Tid)
    requires t in m.threads
  {
    && t in m'.threads
    && if m'.threads[t].pc.Client? then m' == SharedLocked(m, t)
       else && SharedPc(m'.threads[t]) && SharedRank(m'.threads[t].pc) < SharedRank(m.threads[t].pc)
            && m'.threads[t] == m.threads[t].(pc := m'.threads[t].pc) && SharedLocked(m', t) == SharedLocked(m, t)
  }

  lemma SharedStep(m: State, t: Tid)
    requires Calm(m, t) && SharedPc(m.threads[t])
    requires m.threads[t].slot.Some? ==> m.threads[t].x + m.threads[t].f == 0
    ensures SharedAdvances(m, Exec(m, Label(t, Go)), t)
  {
    CalmFlag(m, t);
    hide Calm, Exec, FlagStep, SlotStep, SharedAdvances;
    if m.threads[t].slot.Some? {
      StepsInSlot(m, t);
      SharedSlotStep(m, t);
    } else {
      StepsInFlag(m, t);
      SharedFlagStep(m, t);
    }
  }

  lemma SharedSlotStep(m: State, t: Tid)
    requires t in m.threads && m.threads[t].slot.Some? && SharedPc(m.threads[t]) && ThreadOk(m, m.threads[t]) && !m.want
    ensures SharedAdvances(m, SlotStep(m, t), t)
  {
  }

  lemma SharedFlagStep(m: State, t: Tid)
    requires t in m.threads && m.threads[t].slot == None && SharedPc(m.threads[t]) && ThreadOk(m, m.threads[t])
    requires m.want == HoldsFlag(m.threads[t]) && (m.owner == Some(t) <==> Named(m.threads[t]))
    ensures SharedAdvances(m, FlagStep(m, t), t)
  {
  }

  /** A call of `lock_shared` past registration comes back with access granted, unless it waits for its own flag. */
  lemma {:induction false} SharedReturns(m: State, t: Tid) returns (n: nat)
    requires Calm(m, t) && SharedPc(m.threads[t])
    requires m.threads[t].slot.Some? ==> m.threads[t].x + m.threads[t].f == 0
    ensures OwnSteps(m, t, n) == SharedLocked(m, t)
    decreases SharedRank(m.threads[t].pc)
  {
    hide Inv, SlotsHeld, Exec, SharedLocked;
    SharedStep(m, t);
    CalmStays(m, t, Go);
    var m' := Exec(m, Label(t, Go));
    if m'.threads[t].pc.Client? {
      n := 1;
      assert OwnSteps(m', t, 0) == m';
    } else {
      var k := SharedReturns(m', t);
      n := k + 1;
    }
  }

  // ---------------------------------------------------------------- unlock_shared, with a slot

  function SharedReleased(m: State, t: Tid): State
    requires t in m.threads && HasSlot(m, m.threads[t])
  {
    var th := m.threads[t];
    Put(m.(slots := m.slots[th.slot.value := th.s]), t, th.(pc := Client, s := if th.s > 0 then th.s - 1 else 0))
  }

  /** A call of `unlock_shared` by a thread with a slot takes two steps, whatever others do, and counts one access less. */
  lemma SharedReleaseReturns(m: State, t: Tid)
    requires Inv(m) && t in m.threads && m.threads[t].pc.UnlockSharedLoad?
    ensures HasSlot(m, m.threads[t]) && OwnSteps(m, t, 2) == SharedReleased(m, t)
  {
    assert ThreadOk(m, m.threads[t]);
    hide Inv, Exec;
    StepsInSlot(m, t);
    SharedReleaseSteps(m, t);
    var m1 := SlotStep(m, t);
    StepsInSlot(m1, t);
    assert OwnSteps(m1, t, 1) == OwnSteps(Exec(m1, Label(t, Go)), t, 0);
  }

  lemma SharedReleaseSteps(m: State, t: Tid)
    requires t in m.threads && m.threads[t].pc.UnlockSharedLoad? && ThreadOk(m, m.threads[t])
    ensures var m1 := SlotStep(m, t);
      t in m1.threads && m1.threads[t].pc.UnlockSharedStore? && SlotStep(m1, t) == SharedReleased(m, t)
  {
  }

  // ---------------------------------------------------------------- whole calls

  /** Every thread but `t` is as it was. */
  ghost predicate OthersAsBefore(m: State, r: State, t: Tid) {
    t in m.threads && t in r.threads && r.threads == m.threads[t := r.threads[t]]
  }

  /** `lock` comes back with the lock granted and counted once more. */
  lemma LockCall(m: State, t: Tid) returns (n: nat)
    requires Calm(m, t) && m.threads[t].pc.Client?
    requires m.threads[t].x > 0 || (m.threads[t].s == 0 && m.threads[t].f == 0)
    ensures var r := OwnSteps(Exec(m, Label(t, CallLock)), t, n);
      && OthersAsBefore(m, r, t) && r.threads[t] == m.threads[t].(x := m.threads[t].x + 1)
      && r.want && r.owner == Some(t) && r.rec == m.rec + 1 && r.slots == m.slots
  {
    assert t in m.threads;
    hide Calm, Exec, OwnSteps, Locked;
    AsksLock(m, t);
    CalmStays(m, t, CallLock);
    n := LockReturns(Goto(m, t, LockTest), t);
    LockedMeans(m, t);
  }

  lemma AsksLock(m: State, t: Tid)
    requires t in m.threads && m.threads[t].pc.Client?
    requires m.threads[t].x > 0 || (m.threads[t].s == 0 && m.threads[t].f == 0)
    ensures Exec(m, Label(t, CallLock)) == Goto(m, t, LockTest)
  {
    hide FlagStep, SlotStep;
  }

  lemma LockedMeans(m: State, t: Tid)
    requires t in m.threads && m.threads[t].pc.Client?
    ensures var r := Locked(Goto(m, t, LockTest), t);
      && OthersAsBefore(m, r, t) && r.threads[t] == m.threads[t].(x := m.threads[t].x + 1)
      && r.want && r.owner == Some(t) && r.rec == m.rec + 1 && r.slots == m.slots
  {
  }

  /** `unlock` comes back with one hold less; with no hold left the flag is down and nobody owns it. */
  lemma UnlockCall(m: State, t: Tid) returns (n: nat)
    requires Calm(m, t) && m.threads[t].pc.Client? && m.threads[t].x > 0
    ensures var r := OwnSteps(Exec(m, Label(t, CallUnlock)), t, n);
      && OthersAsBefore(m, r, t) && r.threads[t] == m.threads[t].(x := m.threads[t].x - 1)
      && r.rec == m.rec - 1 && r.slots == m.slots
      && (r.threads[t].x + r.threads[t].f == 0 ==> !r.want && r.owner == None)
      && (r.threads[t].x + r.threads[t].f > 0 ==> r.want && r.owner == Some(t))
  {
    CalmFlag(m, t);
    assert t in m.threads;
    hide Calm, Exec, OwnSteps, Released, ThreadOk;
    AsksUnlock(m, t);
    CalmStays(m, t, CallUnlock);
    n := ReleaseReturns(Goto(m, t, Unlock), t);
    ReleasedMeans(m, t, Unlock);
  }

  lemma AsksUnlock(m: State, t: Tid)
    requires t in m.threads && m.threads[t].pc.Client? && m.threads[t].x > 0
    ensures Exec(m, Label(t, CallUnlock)) == Goto(m, t, Unlock)
  {
    hide FlagStep, SlotStep;
  }

  lemma ReleasedMeans(m: State, t: Tid, pc: Pc)
    requires t in m.threads && m.threads[t].pc.Client?
    requires (pc.Unlock? && m.threads[t].x > 0) || (pc.UnlockFall? && m.threads[t].f > 0)
    requires m.want && m.owner == Some(t) && m.rec == m.threads[t].x + m.threads[t].f
    ensures var r := Released(Goto(m, t, pc), t); var th := m.threads[t];
      && OthersAsBefore(m, r, t) && r.slots == m.slots && r.rec == m.rec - 1
      && r.threads[t] == (if pc.Unlock? then th.(x := th.x - 1) else th.(f := th.f - 1))
      && (r.threads[t].x + r.threads[t].f == 0 ==> !r.want && r.owner == None)
      && (r.threads[t].x + r.threads[t].f > 0 ==> r.want && r.owner == Some(t))
  {
  }

  /** `lock_shared` of a registered thread that does not hold the flag comes back with one access more in its slot. */
  lemma SharedCall(m: State, t: Tid) returns (n: nat)
    requires Calm(m, t) && m.threads[t].pc.Client? && m.threads[t].slot.Some? && m.threads[t].x + m.threads[t].f == 0
    ensures var r := OwnSteps(Exec(m, Label(t, CallLockShared)), t, n); var k := m.threads[t].slot.value;
      && OthersAsBefore(m, r, t) && r.threads[t] == m.threads[t].(s := m.threads[t].s + 1)
      && r.want == m.want && r.owner == m.owner && r.rec == m.rec
      && k < |m.slots| && r.slots == m.slots[k := m.slots[k] + 1]
  {
    CalmFlag(m, t);
    assert t in m.threads;
    hide Calm, Exec, OwnSteps, SharedLocked;
    AsksShared(m, t);
    CalmStays(m, t, CallLockShared);
    n := SharedReturns(Goto(m, t, SharedRegister), t);
    SharedLockedMeans(m, t);
  }

  lemma AsksShared(m: State, t: Tid)
    requires t in m.threads && m.threads[t].pc.Client?
    ensures Exec(m, Label(t, CallLockShared)) == Goto(m, t, SharedRegister)
  {
    hide FlagStep, SlotStep;
  }

  lemma SharedLockedMeans(m: State, t: Tid)
    requires t in m.threads && HasSlot(m, m.threads[t]) && m.threads[t].pc.Client? && ThreadOk(m, m.threads[t])
    ensures var r := SharedLocked(Goto(m, t, SharedRegister), t); var k := m.threads[t].slot.value;
      && OthersAsBefore(m, r, t) && r.threads[t] == m.threads[t].(s := m.threads[t].s + 1)
      && r.want == m.want && r.owner == m.owner && r.rec == m.rec && r.slots == m.slots[k := m.slots[k] + 1]
  {
  }

  /** `lock_shared` of a thread without a slot that finds slot `i` free: it registers there and is inside through it. */
  lemma RegisteringSharedCall(m: State, t: Tid, i: nat) returns (n: nat)
    requires Calm(m, t) && m.threads[t].pc.Client? && m.threads[t].slot == None && m.threads[t].x + m.threads[t].f == 0
    requires i < |m.slots| && m.slots[i] == 0
    ensures var r := OwnSteps(Exec(Exec(m, Label(t, CallLockShared)), Label(t, Register(i))), t, n);
      && OthersAsBefore(m, r, t) && r.threads[t] == m.threads[t].(slot := Some(i), s := 1)
      && r.want == m.want && r.owner == m.owner && r.rec == m.rec && r.slots == m.slots[i := 2]
  {
    CalmFlag(m, t);
    assert t in m.threads && m.threads[t].s == 0;
    hide Calm, Exec, OwnSteps, ThreadOk, SharedLocked;
    AsksShared(m, t);
    CalmStays(m, t, CallLockShared);
    Registers(m, t, i);
    CalmStays(Goto(m, t, SharedRegister), t, Register(i));
    n := SharedReturns(Registered(m, t, i), t);
    RegisteredMeans(m, t, i);
  }

  function Registered(m: State, t: Tid, i: nat): State
    requires t in m.threads && i < |m.slots|
  {
    Put(m.(slots := m.slots[i := 1]), t, m.threads[t].(pc := SharedLoad, slot := Some(i)))
  }

  lemma Registers(m: State, t: Tid, i: nat)
    requires t in m.threads && m.threads[t].slot == None && i < |m.slots| && m.slots[i] == 0
    ensures Exec(Goto(m, t, SharedRegister), Label(t, Register(i))) == Registered(m, t, i)
  {
    hide FlagStep, SlotStep;
  }

  lemma RegisteredMeans(m: State, t: Tid, i: nat)
    requires t in m.threads && m.threads[t].pc.Client? && m.threads[t].s == 0 && i < |m.slots|
    ensures var r := SharedLocked(Registered(m, t, i), t);
      && OthersAsBefore(m, r, t) && r.threads[t] == m.threads[t].(slot := Some(i), s := 1)
      && r.want == m.want && r.owner == m.owner && r.rec == m.rec && r.slots == m.slots[i := 2]
  {
  }

  /** `lock_shared` of a thread for which there is no slot: it is inside through the flag, also when it already holds it. */
  lemma FallbackSharedCall(m: State, t: Tid) returns (n: nat)
    requires Calm(m, t) && m.threads[t].pc.Client? && m.threads[t].slot == None
    ensures var r := OwnSteps(Exec(Exec(m, Label(t, CallLockShared)), Label(t, RegisterFails)), t, n);
      && OthersAsBefore(m, r, t) && r.threads[t] == m.threads[t].(f := m.threads[t].f + 1)
      && r.want && r.owner == Some(t) && r.rec == m.rec + 1 && r.slots == m.slots
  {
    assert t in m.threads;
    hide Calm, Exec, OwnSteps, SharedLocked;
    AsksShared(m, t);
    CalmStays(m, t, CallLockShared);
    FindsNoSlot(m, t);
    CalmStays(Goto(m, t, SharedRegister), t, RegisterFails);
    n := SharedReturns(Goto(m, t, FallTest), t);
    FallbackMeans(m, t);
  }

  lemma FindsNoSlot(m: State, t: Tid)
    requires t in m.threads && m.threads[t].slot == None
    ensures Exec(Goto(m, t, SharedRegister), Label(t, RegisterFails)) == Goto(m, t, FallTest)
  {
    hide FlagStep, SlotStep;
  }

  lemma FallbackMeans(m: State, t: Tid)
    requires t in m.threads && m.threads[t].pc.Client? && m.threads[t].slot == None
    ensures var r := SharedLocked(Goto(m, t, FallTest), t);
      && OthersAsBefore(m, r, t) && r.threads[t] == m.threads[t].(f := m.threads[t].f + 1)
      && r.want && r.owner == Some(t) && r.rec == m.rec + 1 && r.slots == m.slots
  {
  }

  /** `unlock_shared` comes back with one access less, in the slot or at the flag; the last one at the flag takes it down. */
  lemma UnlockSharedCall(m: State, t: Tid) returns (n: nat)
    requires Calm(m, t) && m.threads[t].pc.Client? && m.threads[t].s + m.threads[t].f > 0
    ensures var r := OwnSteps(Exec(m, Label(t, CallUnlockShared)), t, n); var th := m.threads[t];
      && OthersAsBefore(m, r, t)
      && if th.slot.Some?
         then && th.s > 0 && r.threads[t] == th.(s := th.s - 1) && th.slot.value < |m.slots|
              && r.slots == m.slots[th.slot.value := m.slots[th.slot.value] - 1]
              && r.want == m.want && r.owner == m.owner && r.rec == m.rec
         else && th.f > 0 && r.threads[t] == th.(f := th.f - 1) && r.slots == m.slots && r.rec == m.rec - 1
              && (r.threads[t].x + r.threads[t].f == 0 ==> !r.want && r.owner == None)
              && (r.threads[t].x + r.threads[t].f > 0 ==> r.want && r.owner == Some(t))
  {
    CalmFlag(m, t);
    var th := m.threads[t];
    AsksUnlockShared(m, t);
    CalmStays(m, t, CallUnlockShared);
    assert Inv(Exec(m, Label(t, CallUnlockShared))) && t in m.threads;
    hide Calm, Inv, Exec, OwnSteps, SharedReleased, Released;
    if th.slot.Some? {
      SharedReleaseReturns(Goto(m, t, UnlockSharedLoad), t);
      SharedReleasedMeans(m, t);
      n := 2;
    } else {
      n := ReleaseReturns(Goto(m, t, UnlockFall), t);
      ReleasedMeans(m, t, UnlockFall);
    }
  }

  lemma AsksUnlockShared(m: State, t: Tid)
    requires t in m.threads && m.threads[t].pc.Client? && m.threads[t].s + m.threads[t].f > 0
    ensures Exec(m, Label(t, CallUnlockShared)) == Goto(m, t, if m.threads[t].slot.Some? then UnlockSharedLoad else UnlockFall)
  {
    hide FlagStep, SlotStep;
  }

  lemma SharedReleasedMeans(m: State, t: Tid)
    requires t in m.threads && HasSlot(m, m.threads[t]) && m.threads[t].pc.Client? && m.threads[t].s > 0 && ThreadOk(m, m.threads[t])
    ensures var r := SharedReleased(Goto(m, t, UnlockSharedLoad), t); var th := m.threads[t];
      && OthersAsBefore(m, r, t) && r.threads[t] == th.(s := th.s - 1)
      && r.slots == m.slots[th.slot.value := m.slots[th.slot.value] - 1]
      && r.want == m.want && r.owner == m.owner && r.rec == m.rec
  {
  }

  /** A thread gives its slot back exactly when it is not inside through it. */
  lemma UnregistersIffOutside(m: State, t: Tid)
    requires Inv(m) && t in m.threads && m.threads[t].pc.Client? && m.threads[t].slot.Some?
    ensures var r := Exec(m, Label(t, Unregister)); var k := m.threads[t].slot.value;
      if m.threads[t].s > 0 then r == m
      else && OthersAsBefore(m, r, t) && r.threads[t] == m.threads[t].(slot := None)
           && k < |m.slots| && r.slots == m.slots[k := 0] && r.want == m.want && r.owner == m.owner && r.rec == m.rec
  {
    assert ThreadOk(m, m.threads[t]);
    hide Inv, FlagStep, SlotStep, PcOk;
  }

  /** What `lock` takes, `unlock` gives back: the pair leaves the mutex exactly as it was. */
  lemma LockThenUnlock(m: State, t: Tid) returns (i: nat, j: nat)
    requires Calm(m, t) && m.threads[t] == Thread(Client, m.threads[t].slot, 0, 0, 0)
    ensures var locked := OwnSteps(Exec(m, Label(t, CallLock)), t, i);
      t in locked.threads && InExclusive(locked.threads[t]) && OwnSteps(Exec(locked, Label(t, CallUnlock)), t, j) == m
  {
    hide Inv, SlotsHeld, Exec, OwnSteps;
    i := LockCall(m, t);
    CalmStays(m, t, CallLock);
    CalmAfter(Exec(m, Label(t, CallLock)), t, i);
    var locked := OwnSteps(Exec(m, Label(t, CallLock)), t, i);
    j := UnlockCall(locked, t);
    CalmFlag(m, t);
  }

  lemma {:induction false} CalmAfter(m: State, t: Tid, n: nat)
    requires Calm(m, t)
    ensures Calm(OwnSteps(m, t, n), t)
    decreases n
  {
    hide Calm, Exec;
    if n > 0 {
      CalmStays(m, t, Go);
      CalmAfter(Exec(m, Label(t, Go)), t, n - 1);
    }
  }

  /** In every run from the start, slots in use belong to threads, so a moment with nobody else about is calm. */
  lemma {:induction false} RunHoldsSlots(m: State, sched: seq<Label>)
    requires Inv(m) && SlotsHeld(m)
    ensures SlotsHeld(Run(m, sched))
    decreases |sched|
  {
    hide Inv, SlotsHeld, Exec;
    if sched != [] {
      ExecKeepsInv(m, sched[0]);
      ExecKeepsSlotsHeld(m, sched[0]);
      RunHoldsSlots(Exec(m, sched[0]), sched[1..]);
    }
  }
}
