/**
  The contention-free shared mutex: one flag for writers, one slot per registered
  reader, and readers that find no free slot falling back to the writers' flag.

  Every atomic load, store and compare-exchange is one step, and any number of
  threads may run. The one rule imposed on clients is the one the original states:
  a thread that holds only a shared lock does not ask for the exclusive one.
 */
module SharedMutex {
  import opened Options

  type Tid = nat

  datatype Pc =
    | Client
      // lock
    | LockTest | LockCas | LockOwn | LockScan(i: nat) | LockCount
      // lock_shared, with a slot
    | SharedRegister | SharedLoad | SharedRecur(d: int) | SharedAnnounce | SharedCheck | SharedBackOff | SharedWait
      // lock_shared, without a slot
    | FallTest | FallCas | FallOwn | FallCount
      // unlock and unlock_shared
    | Unlock | UnlockFall | UnlockOwner | UnlockWant | UnlockSharedLoad | UnlockSharedStore(d: int)

  /** `slot` is the registered slot; `x`, `s`, `f` are how often the thread holds the exclusive lock,
      the shared lock through its slot, and the shared lock through the fallback. */
  datatype Thread = Thread(pc: Pc, slot: Option<nat>, x: nat, s: nat, f: nat)

  datatype State = State(
    want: bool, owner: Option<Tid>, rec: int,
    slots: seq<int>,
    threads: map<Tid, Thread>)

  datatype Action =
    | CallLock | CallUnlock | CallLockShared | CallUnlockShared
    | Register(i: nat) | RegisterFails | Unregister
    | Go | Spurious

  datatype Label = Label(tid: Tid, act: Action)

  ghost predicate Init(m: State) {
    && !m.want && m.owner == None && m.rec == 0
    && (forall i :: 0 <= i < |m.slots| ==> m.slots[i] == 0)
    && forall t :: t in m.threads ==> m.threads[t] == Thread(Client, None, 0, 0, 0)
  }

  function Put(m: State, t: Tid, th: Thread): State {
    m.(threads := m.threads[t := th])
  }

  function Goto(m: State, t: Tid, pc: Pc): State
    requires t in m.threads
  {
    Put(m, t, m.threads[t].(pc := pc))
  }

  /** The slot of the thread, which exists and is in range whenever it is used. */
  predicate HasSlot(m: State, th: Thread) {
    th.slot.Some? && th.slot.value < |m.slots|
  }

  function SetSlot(m: State, t: Tid, v: int, th: Thread): State
    requires t in m.threads && HasSlot(m, m.threads[t])
  {
    Put(m.(slots := m.slots[m.threads[t].slot.value := v]), t, th)
  }

  /** Entering an operation, registration, and leaving for good. */
  function Begin(m: State, t: Tid, a: Action): State
    requires t in m.threads
  {
    var th := m.threads[t];
    match a
    case CallLock => if th.pc.Client? && (th.x > 0 || (th.s == 0 && th.f == 0)) then Goto(m, t, LockTest) else m
    case CallUnlock => if th.pc.Client? && th.x > 0 then Goto(m, t, Unlock) else m
    case CallLockShared => if th.pc.Client? then Goto(m, t, SharedRegister) else m
    case CallUnlockShared =>
      if th.pc.Client? && th.s + th.f > 0
      then Goto(m, t, if th.slot.Some? then UnlockSharedLoad else UnlockFall) else m
    case Register(i) =>
      if th.pc.SharedRegister? && th.slot == None && i < |m.slots| && m.slots[i] == 0
      then Put(m.(slots := m.slots[i := 1]), t, th.(pc := SharedLoad, slot := Some(i))) else m
    case RegisterFails => if th.pc.SharedRegister? && th.slot == None then Goto(m, t, FallTest) else m
    case Unregister =>
      if th.pc.Client? && HasSlot(m, th) && m.slots[th.slot.value] == 1
      then SetSlot(m, t, 0, th.(slot := None)) else m
    case _ => m
  }

  /** The next step inside `lock`, or inside `lock_shared` without a slot. */
  function FlagStep(m: State, t: Tid): State
    requires t in m.threads
  {
    var th := m.threads[t];
    match th.pc
    case LockTest => Goto(m, t, if m.owner == Some(t) then LockCount else LockCas)
    case LockCas => if m.want then m else Goto(m.(want := true), t, LockOwn)
    case LockOwn => Goto(m.(owner := Some(t)), t, LockScan(0))
    case LockScan(i) =>
      if i >= |m.slots| then Goto(m, t, LockCount)
      else if m.slots[i] > 1 then m else Goto(m, t, LockScan(i + 1))
    case LockCount => Put(m.(rec := m.rec + 1), t, th.(pc := Client, x := th.x + 1))
    case FallTest => Goto(m, t, if m.owner == Some(t) then FallCount else FallCas)
    case FallCas => if m.want then m else Goto(m.(want := true), t, FallOwn)
    case FallOwn => Goto(m.(owner := Some(t)), t, FallCount)
    case FallCount => Put(m.(rec := m.rec + 1), t, th.(pc := Client, f := th.f + 1))
    case Unlock =>
      Put(m.(rec := m.rec - 1), t, th.(pc := if m.rec - 1 == 0 then UnlockOwner else Client, x := if th.x > 0 then th.x - 1 else 0))
    case UnlockFall =>
      Put(m.(rec := m.rec - 1), t, th.(pc := if m.rec - 1 == 0 then UnlockOwner else Client, f := if th.f > 0 then th.f - 1 else 0))
    case UnlockOwner => Goto(m.(owner := None), t, UnlockWant)
    case UnlockWant => Goto(m.(want := false), t, Client)
    case _ => m
  }

  /** The next step inside `lock_shared` or `unlock_shared` with a slot. */
  function SlotStep(m: State, t: Tid): State
    requires t in m.threads
  {
    var th := m.threads[t];
    if !HasSlot(m, th) then m
    else match th.pc
      case SharedRegister => Goto(m, t, SharedLoad)
      case SharedLoad =>
        var d := m.slots[th.slot.value];
        Goto(m, t, if d > 1 then SharedRecur(d) else SharedAnnounce)
      case SharedRecur(d) => SetSlot(m, t, d + 1, th.(pc := Client, s := th.s + 1))
      case SharedAnnounce => SetSlot(m, t, 2, th.(pc := SharedCheck))
      case SharedCheck => if m.want then Goto(m, t, SharedBackOff) else Put(m, t, th.(pc := Client, s := th.s + 1))
      case SharedBackOff => SetSlot(m, t, 1, th.(pc := SharedWait))
      case SharedWait => if m.want then m else Goto(m, t, SharedAnnounce)
      case UnlockSharedLoad => Goto(m, t, UnlockSharedStore(m.slots[th.slot.value]))
      case UnlockSharedStore(d) => SetSlot(m, t, d - 1, th.(pc := Client, s := if th.s > 0 then th.s - 1 else 0))
      case _ => m
  }

  predicate SlotPc(p: Pc) {
    p.SharedRegister? || p.SharedLoad? || p.SharedRecur? || p.SharedAnnounce? || p.SharedCheck? || p.SharedBackOff?
    || p.SharedWait? || p.UnlockSharedLoad? || p.UnlockSharedStore?
  }

  /** One step; a weak exchange that fails spuriously leaves everything as it is. */
  function Exec(m: State, l: Label): State {
    if l.tid !in m.threads then m
    else match l.act
      case Go => if SlotPc(m.threads[l.tid].pc) then SlotStep(m, l.tid) else FlagStep(m, l.tid)
      case Spurious => m
      case _ => Begin(m, l.tid, l.act)
  }

  // ---------------------------------------------------------------- invariant

  /** The thread has taken the writers' flag and not yet given it back. */
  predicate HoldsFlag(th: Thread) {
    th.x + th.f > 0 || th.pc.LockOwn? || th.pc.LockScan? || th.pc.LockCount? || th.pc.FallOwn? || th.pc.FallCount?
    || th.pc.UnlockOwner? || th.pc.UnlockWant?
  }

  /** The thread that holds the flag has its name in `owner`. */
  predicate Named(th: Thread) {
    HoldsFlag(th) && !th.pc.LockOwn? && !th.pc.FallOwn? && !th.pc.UnlockWant?
  }

  ghost predicate FlagOk(m: State) {
    && (m.want <==> exists t :: t in m.threads && HoldsFlag(m.threads[t]))
    && (forall a, b :: a in m.threads && b in m.threads && HoldsFlag(m.threads[a]) && HoldsFlag(m.threads[b]) ==> a == b)
    && (forall t :: m.owner == Some(t) <==> t in m.threads && Named(m.threads[t]))
    && (!m.want ==> m.rec == 0)
    && (forall t :: t in m.threads && HoldsFlag(m.threads[t]) ==> m.rec == m.threads[t].x + m.threads[t].f)
  }

  function Announced(p: Pc): nat {
    if p.SharedCheck? || p.SharedBackOff? then 1 else 0
  }

  /** The slot of a thread shows how often it holds the shared lock, plus one while it is announcing itself. */
  ghost predicate SlotOk(m: State, th: Thread) {
    && (th.slot == None ==> th.s == 0)
    && (th.slot.Some? ==> HasSlot(m, th) && m.slots[th.slot.value] == 1 + th.s + Announced(th.pc))
  }

  predicate PcOk(m: State, th: Thread) {
    match th.pc
    case LockTest => th.x > 0 || (th.s == 0 && th.f == 0)
    case LockCas => th.x == 0 && th.f == 0 && th.s == 0
    case LockOwn => th.x == 0 && th.f == 0 && th.s == 0
    case LockScan(i) => th.x == 0 && th.f == 0 && th.s == 0 && i <= |m.slots|
    case LockCount => th.x > 0 || (th.s == 0 && th.f == 0)
    case SharedLoad => th.slot.Some?
    case SharedRecur(d) => HasSlot(m, th) && d == m.slots[th.slot.value] && th.s > 0
    case SharedAnnounce => th.slot.Some? && th.s == 0
    case SharedCheck => th.slot.Some? && th.s == 0
    case SharedBackOff => th.slot.Some? && th.s == 0
    case SharedWait => th.slot.Some? && th.s == 0
    case FallTest => th.slot == None
    case FallCas => th.slot == None && th.x == 0 && th.f == 0
    case FallOwn => th.slot == None && th.x == 0 && th.f == 0
    case FallCount => th.slot == None
    case Unlock => th.x > 0
    case UnlockFall => th.f > 0
    case UnlockOwner => th.x == 0 && th.f == 0
    case UnlockWant => th.x == 0 && th.f == 0
    case UnlockSharedLoad => th.slot.Some? && th.s > 0
    case UnlockSharedStore(d) => HasSlot(m, th) && d == m.slots[th.slot.value] && th.s > 0
    case _ => true
  }

  /** A thread that used the fallback and has since found a slot is caught waiting for itself. */
  predicate Caught(th: Thread) {
    th.pc.SharedLoad? || th.pc.SharedAnnounce? || th.pc.SharedCheck? || th.pc.SharedBackOff? || th.pc.SharedWait?
  }

  ghost predicate ThreadOk(m: State, th: Thread) {
    SlotOk(m, th) && PcOk(m, th) && (th.f > 0 && th.slot.Some? ==> Caught(th) && th.s == 0)
  }

  /** What holding, or being about to hold, the exclusive lock says about the readers. */
  ghost predicate Shut(m: State, th: Thread) {
    && (th.x > 0 || th.pc.LockCount? ==> forall u :: u in m.threads ==> m.threads[u].s == 0)
    && (th.pc.LockScan? ==>
          forall u :: u in m.threads && m.threads[u].slot.Some? && m.threads[u].slot.value < th.pc.i ==> m.threads[u].s == 0)
  }

  ghost predicate DistinctSlots(m: State) {
    forall a, b :: a in m.threads && b in m.threads && m.threads[a].slot.Some? && m.threads[a].slot == m.threads[b].slot ==> a == b
  }

  ghost predicate Inv(m: State) {
    && FlagOk(m) && DistinctSlots(m)
    && (forall t :: t in m.threads ==> ThreadOk(m, m.threads[t]))
    && (forall t :: t in m.threads ==> Shut(m, m.threads[t]))
  }

  // ------------------------------------------------------ preservation, by kind of step

  /** The thread keeps its grip on the flag and its holds through it. */
  ghost predicate SameGrip(th: Thread, th': Thread) {
    && th'.x == th.x && th'.f == th.f
    && HoldsFlag(th') == HoldsFlag(th) && Named(th') == Named(th)
  }

  lemma GripKeepsFlagOk(m: State, m': State, t: Tid)
    requires FlagOk(m) && t in m.threads && t in m'.threads && m'.threads == m.threads[t := m'.threads[t]]
    requires SameGrip(m.threads[t], m'.threads[t])
    requires m'.want == m.want && m'.owner == m.owner && m'.rec == m.rec
    ensures FlagOk(m')
  {
    forall u ensures u in m'.threads && HoldsFlag(m'.threads[u]) <==> u in m.threads && HoldsFlag(m.threads[u]) {}
    if m.want {
      var h :| h in m.threads && HoldsFlag(m.threads[h]);
      assert h in m'.threads && HoldsFlag(m'.threads[h]);
    }
  }

  /** Threads that do not move are unaffected by a change of another thread's slot. */
  lemma OthersOk(m: State, m': State, t: Tid)
    requires Inv(m) && t in m.threads && t in m'.threads && m'.threads == m.threads[t := m'.threads[t]]
    requires |m'.slots| == |m.slots|
    requires forall i :: 0 <= i < |m.slots| && m.threads[t].slot != Some(i) && m'.threads[t].slot != Some(i) ==> m'.slots[i] == m.slots[i]
    requires m'.threads[t].slot in {None, m.threads[t].slot} || forall u :: u in m.threads ==> m.threads[u].slot != m'.threads[t].slot
    requires ThreadOk(m', m'.threads[t])
    ensures DistinctSlots(m') && forall u :: u in m'.threads ==> ThreadOk(m', m'.threads[u])
  {
    forall u | u in m'.threads ensures ThreadOk(m', m'.threads[u]) {
      if u != t { assert ThreadOk(m, m.threads[u]); }
    }
  }

  /** Readers other than `t` are as they were, and `t` does not become one unless nobody holds the flag. */
  lemma ShutOk(m: State, m': State, t: Tid)
    requires Inv(m) && t in m.threads && t in m'.threads && m'.threads == m.threads[t := m'.threads[t]]
    requires m'.threads[t].s > 0 ==> m.threads[t].s > 0 || !m.want
    requires m'.threads[t].slot != m.threads[t].slot ==> m'.threads[t].s == 0
    requires m.want || !HoldsFlag(m'.threads[t]) || m'.threads[t].pc.LockOwn? || m'.threads[t].pc.FallOwn?
    requires Shut(m, m'.threads[t]) && (m'.threads[t].x > 0 || m'.threads[t].pc.LockCount? ==> m'.threads[t].s == 0)
    requires m'.threads[t].pc.LockScan? && m'.threads[t].slot.Some? ==> m'.threads[t].s == 0
    ensures forall u :: u in m'.threads ==> Shut(m', m'.threads[u])
  {
    forall u | u in m'.threads ensures Shut(m', m'.threads[u]) {
      if u != t {
        assert Shut(m, m.threads[u]);
        if HoldsFlag(m.threads[u]) { assert m.want; }
      }
    }
  }

  /** A step that moves only the program counter. */
  lemma KeepsGoto(m: State, t: Tid, th': Thread)
    requires Inv(m) && t in m.threads
    requires SameGrip(m.threads[t], th') && th'.slot == m.threads[t].slot && th'.s == m.threads[t].s
    requires ThreadOk(m, th') && Shut(m, th')
    ensures Inv(Put(m, t, th'))
  {
    var m' := Put(m, t, th');
    assert ThreadOk(m', th');
    assert ThreadOk(m, m.threads[t]);
    GripKeepsFlagOk(m, m', t);
    OthersOk(m, m', t);
    if HoldsFlag(th') { assert m.want; }
    ShutOk(m, m', t);
  }

  /** A store to the thread's own slot by a thread that is already inside, or is only announcing itself. */
  lemma KeepsSetSlot(m: State, t: Tid, v: int, th': Thread)
    requires Inv(m) && t in m.threads && HasSlot(m, m.threads[t])
    requires SameGrip(m.threads[t], th') && th'.slot == m.threads[t].slot && (th'.s > 0 ==> m.threads[t].s > 0)
    requires v == 1 + th'.s + Announced(th'.pc)
    requires PcOk(SetSlot(m, t, v, th'), th') && !th'.pc.LockScan? && !th'.pc.LockCount?
    requires th'.f > 0 ==> Caught(th') && th'.s == 0
    ensures Inv(SetSlot(m, t, v, th'))
  {
    var m' := SetSlot(m, t, v, th');
    assert ThreadOk(m, m.threads[t]) && Shut(m, m.threads[t]);
    GripKeepsFlagOk(m, m', t);
    OthersOk(m, m', t);
    if HoldsFlag(th') { assert m.want; }
    ShutOk(m, m', t);
  }

  /** The exchange on the flag succeeds: nobody held it, so nobody was inside through it. */
  lemma KeepsTakeFlag(m: State, t: Tid, pc: Pc)
    requires Inv(m) && t in m.threads && !m.want
    requires (m.threads[t].pc.LockCas? && pc.LockOwn?) || (m.threads[t].pc.FallCas? && pc.FallOwn?)
    ensures Inv(Goto(m.(want := true), t, pc))
  {
    var m' := Goto(m.(want := true), t, pc);
    assert ThreadOk(m, m.threads[t]) && ThreadOk(m', m'.threads[t]);
    assert FlagOk(m') by {
      assert HoldsFlag(m'.threads[t]);
      forall u | u in m.threads ensures !HoldsFlag(m.threads[u]) {}
    }
    OthersOk(m, m', t);
    ShutOk(m, m', t);
  }

  /** Exactly one thread holds the flag. */
  lemma OnlyHolder(m: State, t: Tid)
    requires FlagOk(m) && t in m.threads && HoldsFlag(m.threads[t])
    ensures m.want && m.rec == m.threads[t].x + m.threads[t].f
    ensures forall u :: u in m.threads && u != t ==> !HoldsFlag(m.threads[u])
    ensures m.owner == if Named(m.threads[t]) then Some(t) else None
  {
    if m.owner.Some? { assert m.owner == Some(m.owner.value); }
  }

  /** Conversely, a state with one holder, properly named and counted, is consistent. */
  lemma HolderMakesFlagOk(m: State, t: Tid)
    requires t in m.threads && HoldsFlag(m.threads[t]) && m.want
    requires m.rec == m.threads[t].x + m.threads[t].f
    requires m.owner == if Named(m.threads[t]) then Some(t) else None
    requires forall u :: u in m.threads && u != t ==> !HoldsFlag(m.threads[u])
    ensures FlagOk(m)
  {
  }

  /** The holder of the flag does something with it and keeps it. */
  lemma KeepsHolder(m: State, m': State, t: Tid)
    requires Inv(m) && t in m.threads && HoldsFlag(m.threads[t])
    requires t in m'.threads && m'.threads == m.threads[t := m'.threads[t]] && m'.slots == m.slots && m'.want
    requires HoldsFlag(m'.threads[t]) && m'.rec == m'.threads[t].x + m'.threads[t].f
    requires m'.owner == if Named(m'.threads[t]) then Some(t) else None
    requires m'.threads[t].slot == m.threads[t].slot && m'.threads[t].s == m.threads[t].s
    requires ThreadOk(m, m'.threads[t]) && Shut(m, m'.threads[t])
    ensures Inv(m')
  {
    OnlyHolder(m, t);
    HolderMakesFlagOk(m', t);
    assert ThreadOk(m', m'.threads[t]);
    OthersOk(m, m', t);
    assert m.threads[t].s == m'.threads[t].s;
    ShutOk(m, m', t);
  }

  /** The flag goes down last, when its holder is inside no section. */
  lemma KeepsDropFlag(m: State, t: Tid)
    requires Inv(m) && t in m.threads && m.threads[t].pc.UnlockWant?
    ensures Inv(Goto(m.(want := false), t, Client))
  {
    var m' := Goto(m.(want := false), t, Client);
    OnlyHolder(m, t);
    assert ThreadOk(m, m.threads[t]) && ThreadOk(m', m'.threads[t]);
    assert FlagOk(m') by {
      forall u | u in m'.threads ensures !HoldsFlag(m'.threads[u]) {}
    }
    OthersOk(m, m', t);
    ShutOk(m, m', t);
  }

  /** A reader that has announced itself and sees the flag down is inside: no writer can have passed its slot. */
  lemma KeepsEnter(m: State, t: Tid)
    requires Inv(m) && t in m.threads && m.threads[t].pc.SharedCheck? && !m.want
    ensures Inv(Put(m, t, m.threads[t].(pc := Client, s := m.threads[t].s + 1)))
  {
    var th := m.threads[t];
    var m' := Put(m, t, th.(pc := Client, s := th.s + 1));
    assert ThreadOk(m, th) && !HoldsFlag(th);
    assert ThreadOk(m', m'.threads[t]);
    GripKeepsFlagOk(m, m', t);
    OthersOk(m, m', t);
    ShutOk(m, m', t);
  }

  lemma KeepsRegister(m: State, t: Tid, i: nat)
    requires Inv(m) && t in m.threads && m.threads[t].pc.SharedRegister? && m.threads[t].slot == None
    requires i < |m.slots| && m.slots[i] == 0
    ensures Inv(Put(m.(slots := m.slots[i := 1]), t, m.threads[t].(pc := SharedLoad, slot := Some(i))))
  {
    var th := m.threads[t];
    var th' := th.(pc := SharedLoad, slot := Some(i));
    var m' := Put(m.(slots := m.slots[i := 1]), t, th');
    assert ThreadOk(m, th) && Shut(m, th);
    assert ThreadOk(m', th');
    forall u | u in m.threads ensures m.threads[u].slot != Some(i) { assert ThreadOk(m, m.threads[u]); }
    GripKeepsFlagOk(m, m', t);
    OthersOk(m, m', t);
    if HoldsFlag(th') { assert m.want; }
    ShutOk(m, m', t);
  }

  lemma KeepsUnregister(m: State, t: Tid)
    requires Inv(m) && t in m.threads && m.threads[t].pc.Client? && HasSlot(m, m.threads[t])
    requires m.slots[m.threads[t].slot.value] == 1
    ensures Inv(SetSlot(m, t, 0, m.threads[t].(slot := None)))
  {
    var th := m.threads[t];
    var th' := th.(slot := None);
    var m' := SetSlot(m, t, 0, th');
    assert ThreadOk(m, th) && Shut(m, th);
    assert ThreadOk(m', th');
    GripKeepsFlagOk(m, m', t);
    OthersOk(m, m', t);
    if HoldsFlag(th') { assert m.want; }
    ShutOk(m, m', t);
  }

  // ---------------------------------------------------------------- all steps

  /** What the invariant says to one thread. */
  lemma Facts(m: State, t: Tid)
    requires Inv(m) && t in m.threads
    ensures FlagOk(m) && ThreadOk(m, m.threads[t]) && Shut(m, m.threads[t])
    ensures HoldsFlag(m.threads[t]) ==>
      m.want && m.rec == m.threads[t].x + m.threads[t].f && m.owner == if Named(m.threads[t]) then Some(t) else None
    ensures m.owner == Some(t) ==> Named(m.threads[t])
  {
    if HoldsFlag(m.threads[t]) { OnlyHolder(m, t); }
  }

  lemma BeginKeepsInv(m: State, t: Tid, a: Action)
    requires Inv(m) && t in m.threads
    ensures Inv(Begin(m, t, a))
  {
    hide Inv, FlagOk;
    var th := m.threads[t];
    Facts(m, t);
    match a
    case CallLock => if th.pc.Client? && (th.x > 0 || (th.s == 0 && th.f == 0)) { KeepsGoto(m, t, th.(pc := LockTest)); }
    case CallUnlock => if th.pc.Client? && th.x > 0 { KeepsGoto(m, t, th.(pc := Unlock)); }
    case CallLockShared => if th.pc.Client? { KeepsGoto(m, t, th.(pc := SharedRegister)); }
    case CallUnlockShared =>
      if th.pc.Client? && th.s + th.f > 0 {
        KeepsGoto(m, t, th.(pc := if th.slot.Some? then UnlockSharedLoad else UnlockFall));
      }
    case Register(i) =>
      if th.pc.SharedRegister? && th.slot == None && i < |m.slots| && m.slots[i] == 0 { KeepsRegister(m, t, i); }
    case RegisterFails => if th.pc.SharedRegister? && th.slot == None { KeepsGoto(m, t, th.(pc := FallTest)); }
    case Unregister => if th.pc.Client? && HasSlot(m, th) && m.slots[th.slot.value] == 1 { KeepsUnregister(m, t); }
    case _ =>
  }

  lemma LockKeepsInv(m: State, t: Tid)
    requires Inv(m) && t in m.threads
    requires var p := m.threads[t].pc; p.LockTest? || p.LockCas? || p.LockOwn? || p.LockScan? || p.LockCount?
    ensures Inv(FlagStep(m, t))
  {
    hide Inv, FlagOk;
    var th := m.threads[t];
    Facts(m, t);
    match th.pc
    case LockTest => KeepsGoto(m, t, th.(pc := if m.owner == Some(t) then LockCount else LockCas));
    case LockCas => if !m.want { KeepsTakeFlag(m, t, LockOwn); }
    case LockOwn => KeepsHolder(m, FlagStep(m, t), t);
    case LockScan(i) => ScanKeepsInv(m, t);
    case LockCount => KeepsHolder(m, FlagStep(m, t), t);
  }

  /** A slot seen at most one belongs to nobody inside; nobody gets in behind the scan while the flag is up. */
  lemma ScanKeepsInv(m: State, t: Tid)
    requires Inv(m) && t in m.threads && m.threads[t].pc.LockScan?
    ensures Inv(FlagStep(m, t))
  {
    hide FlagOk;
    var th := m.threads[t];
    var i := th.pc.i;
    Facts(m, t);
    if i >= |m.slots| {
      forall u | u in m.threads ensures m.threads[u].s == 0 { assert ThreadOk(m, m.threads[u]); }
      KeepsGoto(m, t, th.(pc := LockCount));
    } else if m.slots[i] <= 1 {
      forall u | u in m.threads && m.threads[u].slot.Some? && m.threads[u].slot.value < i + 1 ensures m.threads[u].s == 0 {
        assert ThreadOk(m, m.threads[u]);
      }
      KeepsGoto(m, t, th.(pc := LockScan(i + 1)));
    }
  }

  lemma FallKeepsInv(m: State, t: Tid)
    requires Inv(m) && t in m.threads
    requires var p := m.threads[t].pc; p.FallTest? || p.FallCas? || p.FallOwn? || p.FallCount?
    ensures Inv(FlagStep(m, t))
  {
    hide Inv, FlagOk;
    var th := m.threads[t];
    Facts(m, t);
    match th.pc
    case FallTest => KeepsGoto(m, t, th.(pc := if m.owner == Some(t) then FallCount else FallCas));
    case FallCas => if !m.want { KeepsTakeFlag(m, t, FallOwn); }
    case FallOwn => KeepsHolder(m, FlagStep(m, t), t);
    case FallCount => KeepsHolder(m, FlagStep(m, t), t);
  }

  lemma UnlockKeepsInv(m: State, t: Tid)
    requires Inv(m) && t in m.threads
    requires var p := m.threads[t].pc; p.Unlock? || p.UnlockFall? || p.UnlockOwner? || p.UnlockWant?
    ensures Inv(FlagStep(m, t))
  {
    hide Inv, FlagOk;
    Facts(m, t);
    if m.threads[t].pc.UnlockWant? {
      KeepsDropFlag(m, t);
    } else {
      KeepsHolder(m, FlagStep(m, t), t);
    }
  }

  lemma SharedKeepsInv(m: State, t: Tid)
    requires Inv(m) && t in m.threads && HasSlot(m, m.threads[t])
    requires var p := m.threads[t].pc; p.SharedAnnounce? || p.SharedCheck? || p.SharedBackOff? || p.SharedWait?
    ensures Inv(SlotStep(m, t))
  {
    hide Inv, FlagOk;
    var th := m.threads[t];
    Facts(m, t);
    match th.pc
    case SharedAnnounce => KeepsSetSlot(m, t, 2, th.(pc := SharedCheck));
    case SharedCheck => if m.want { KeepsGoto(m, t, th.(pc := SharedBackOff)); } else { KeepsEnter(m, t); }
    case SharedBackOff => KeepsSetSlot(m, t, 1, th.(pc := SharedWait));
    case SharedWait => if !m.want { KeepsGoto(m, t, th.(pc := SharedAnnounce)); }
  }

  lemma SlotKeepsInv(m: State, t: Tid)
    requires Inv(m) && t in m.threads && SlotPc(m.threads[t].pc)
    ensures Inv(SlotStep(m, t))
  {
    hide Inv, FlagOk;
    var th := m.threads[t];
    Facts(m, t);
    if HasSlot(m, th) {
      match th.pc
      case SharedRegister => KeepsGoto(m, t, th.(pc := SharedLoad));
      case SharedLoad =>
        var d := m.slots[th.slot.value];
        KeepsGoto(m, t, th.(pc := if d > 1 then SharedRecur(d) else SharedAnnounce));
      case SharedRecur(d) => KeepsSetSlot(m, t, d + 1, th.(pc := Client, s := th.s + 1));
      case UnlockSharedLoad => KeepsGoto(m, t, th.(pc := UnlockSharedStore(m.slots[th.slot.value])));
      case UnlockSharedStore(d) => KeepsSetSlot(m, t, d - 1, th.(pc := Client, s := th.s - 1));
      case SharedAnnounce => SharedKeepsInv(m, t);
      case SharedCheck => SharedKeepsInv(m, t);
      case SharedBackOff => SharedKeepsInv(m, t);
      case SharedWait => SharedKeepsInv(m, t);
    }
  }

  /** Every step of every thread keeps the invariant. */
  lemma ExecKeepsInv(m: State, l: Label)
    requires Inv(m)
    ensures Inv(Exec(m, l))
  {
    hide Inv, Begin, FlagStep, SlotStep;
    if l.tid in m.threads {
      match l.act
      case Go =>
        var p := m.threads[l.tid].pc;
        if SlotPc(p) { SlotKeepsInv(m, l.tid); }
        else if p.LockTest? || p.LockCas? || p.LockOwn? || p.LockScan? || p.LockCount? { LockKeepsInv(m, l.tid); }
        else if p.FallTest? || p.FallCas? || p.FallOwn? || p.FallCount? { FallKeepsInv(m, l.tid); }
        else if p.Client? { ClientStays(m, l.tid); }
        else { UnlockKeepsInv(m, l.tid); }
      case Spurious =>
      case _ => BeginKeepsInv(m, l.tid, l.act);
    }
  }

  lemma ClientStays(m: State, t: Tid)
    requires t in m.threads && m.threads[t].pc.Client?
    ensures FlagStep(m, t) == m
  {
  }

  // ---------------------------------------------------------------- theorems

  lemma InitHasInv(m: State)
    requires Init(m)
    ensures Inv(m)
  {
  }

  /** The state a schedule leads to. */
  ghost function Run(m: State, sched: seq<Label>): (r: State)
    requires Inv(m)
    ensures Inv(r)
    decreases |sched|
  {
    if sched == [] then m
    else
      ExecKeepsInv(m, sched[0]);
      Run(Exec(m, sched[0]), sched[1..])
  }

  predicate InExclusive(th: Thread) { th.x > 0 }

  predicate InShared(th: Thread) { th.s > 0 || th.f > 0 }

  /** In every interleaving, a thread inside the exclusive section is inside alone. */
  lemma Exclusion(m0: State, sched: seq<Label>, t: Tid, u: Tid)
    requires Init(m0)
    requires t in Run(m0, sched).threads && u in Run(m0, sched).threads && t != u
    requires InExclusive(Run(m0, sched).threads[t])
    ensures !InExclusive(Run(m0, sched).threads[u]) && !InShared(Run(m0, sched).threads[u])
  {
    hide Run, Exec;
    HolderIsAlone(Run(m0, sched), t, u);
  }

  lemma HolderIsAlone(m: State, t: Tid, u: Tid)
    requires Inv(m) && t in m.threads && u in m.threads && t != u && InExclusive(m.threads[t])
    ensures !InExclusive(m.threads[u]) && !InShared(m.threads[u])
  {
    OnlyHolder(m, t);
    assert Shut(m, m.threads[t]);
  }

  /** A thread with a slot that holds the flag, for either lock, and asks for the shared one. */
  predicate WaitsForItself(m: State, t: Tid) {
    && t in m.threads && m.threads[t].slot.Some? && m.threads[t].x + m.threads[t].f > 0
    && (Caught(m.threads[t]) || m.threads[t].pc.SharedRegister?)
  }

  lemma WaitsOn(m: State, l: Label, t: Tid)
    requires Inv(m) && WaitsForItself(m, t)
    ensures WaitsForItself(Exec(m, l), t)
  {
    Facts(m, t);
    hide Inv, FlagOk, Shut;
    if l.tid != t { OnlyOwnThreadMoves(m, l, t); }
  }

  lemma OnlyOwnThreadMoves(m: State, l: Label, t: Tid)
    requires t in m.threads && l.tid != t
    ensures t in Exec(m, l).threads && Exec(m, l).threads[t] == m.threads[t]
  {
  }

  /**
    The original calls the lock recursive from exclusive to shared, and from shared to shared. For a thread
    that holds the flag and has a slot it is not: the thread waits for its own flag to go down, and no
    schedule ever lets it leave `lock_shared`.
   */
  lemma {:induction false} FlagHolderWithSlotNeverGetsShared(m: State, sched: seq<Label>, t: Tid)
    requires Inv(m) && WaitsForItself(m, t)
    ensures WaitsForItself(Run(m, sched), t) && !Run(m, sched).threads[t].pc.Client?
    decreases |sched|
  {
    hide Inv, Exec;
    if sched != [] {
      WaitsOn(m, sched[0], t);
      ExecKeepsInv(m, sched[0]);
      FlagHolderWithSlotNeverGetsShared(Exec(m, sched[0]), sched[1..], t);
    }
  }

  /** Without a slot, and if registration finds none, it is: two more steps of its own take the thread through. */
  lemma FlagHolderWithoutSlotNests(m: State, t: Tid)
    requires Inv(m) && t in m.threads && m.threads[t].pc.SharedRegister? && m.threads[t].slot == None
    requires m.threads[t].x + m.threads[t].f > 0
    ensures var m' := Exec(Exec(Exec(m, Label(t, RegisterFails)), Label(t, Go)), Label(t, Go));
      m' == Put(m.(rec := m.rec + 1), t, m.threads[t].(pc := Client, f := m.threads[t].f + 1))
  {
    assert m.owner == Some(t) by { Facts(m, t); }
    hide Inv;
    var th := m.threads[t];
    assert Exec(m, Label(t, RegisterFails)) == Put(m, t, th.(pc := FallTest));
    assert Exec(Put(m, t, th.(pc := FallTest)), Label(t, Go)) == Put(m, t, th.(pc := FallCount));
  }

  /** A thread that holds the flag and has begun to ask for the shared lock. */
  predicate AsksWhileHolding(m: State, t: Tid) {
    t in m.threads && m.threads[t].pc.SharedRegister? && m.threads[t].x + m.threads[t].f > 0
  }

  /** Some schedule lets the thread come back from its call. */
  ghost predicate CanReturn(m: State, t: Tid)
    requires Inv(m)
  {
    exists sched :: t in Run(m, sched).threads && Run(m, sched).threads[t].pc.Client?
  }

  /**
    Exactly when nesting the shared lock in a lock through the flag works: let `l` be the step by which the thread
    gets past registration. Some schedule then lets it return if and only if it had no slot and registration failed.
    A thread that had a slot, or has found one in this very call, never returns.
   */
  lemma NestsIff(m: State, t: Tid, l: Label)
    requires Inv(m) && AsksWhileHolding(m, t)
    requires l.tid == t && Exec(m, l) != m
    ensures Inv(Exec(m, l))
    ensures CanReturn(Exec(m, l), t) <==> m.threads[t].slot == None && l.act == RegisterFails
  {
    hide Inv, Run, FlagOk, Shut, ThreadOk;
    ExecKeepsInv(m, l);
    var m' := Exec(m, l);
    if m.threads[t].slot == None && l.act == RegisterFails {
      FlagHolderWithoutSlotNests(m, t);
      TwoSteps(m', Label(t, Go), Label(t, Go));
      assert Run(m', [Label(t, Go), Label(t, Go)]).threads[t].pc.Client?;
    } else {
      assert WaitsForItself(m', t) by { PastRegistration(m, t, l); }
      forall sched ensures !(t in Run(m', sched).threads && Run(m', sched).threads[t].pc.Client?) {
        FlagHolderWithSlotNeverGetsShared(m', sched, t);
      }
    }
  }

  lemma PastRegistration(m: State, t: Tid, l: Label)
    requires Inv(m) && AsksWhileHolding(m, t)
    requires l.tid == t && Exec(m, l) != m && !(m.threads[t].slot == None && l.act == RegisterFails)
    ensures WaitsForItself(Exec(m, l), t)
  {
    Facts(m, t);
    hide Inv, FlagOk, Shut;
  }

  lemma TwoSteps(m: State, a: Label, b: Label)
    requires Inv(m)
    ensures Run(m, [a, b]) == Exec(Exec(m, a), b)
  {
    hide Exec, Inv, Run;
    RunNext(m, a, [b]);
    RunNext(Exec(m, a), b, []);
    RunNothing(Exec(Exec(m, a), b));
    assert [a] + [b] == [a, b] && [b] + [] == [b];
  }

  lemma RunNext(m: State, l: Label, sched: seq<Label>)
    requires Inv(m)
    ensures Inv(Exec(m, l)) && Run(m, [l] + sched) == Run(Exec(m, l), sched)
  {
    hide Exec, Inv;
    ExecKeepsInv(m, l);
    assert ([l] + sched)[1..] == sched;
  }

  // A mutex with one slot and one thread, which calls `lock` and then `lock_shared`.

  function Alone(want: bool, owner: Option<Tid>, rec: int, slot: int, th: Thread): State {
    State(want, owner, rec, [slot], map[0 := th])
  }

  /** The states it goes through. */
  function Stage(k: nat): State {
    if k == 0 then Alone(false, None, 0, 0, Thread(Client, None, 0, 0, 0))
    else if k == 1 then Alone(false, None, 0, 0, Thread(LockTest, None, 0, 0, 0))
    else if k == 2 then Alone(false, None, 0, 0, Thread(LockCas, None, 0, 0, 0))
    else if k == 3 then Alone(true, None, 0, 0, Thread(LockOwn, None, 0, 0, 0))
    else if k == 4 then Alone(true, Some(0), 0, 0, Thread(LockScan(0), None, 0, 0, 0))
    else if k == 5 then Alone(true, Some(0), 0, 0, Thread(LockScan(1), None, 0, 0, 0))
    else if k == 6 then Alone(true, Some(0), 0, 0, Thread(LockCount, None, 0, 0, 0))
    else if k == 7 then Alone(true, Some(0), 1, 0, Thread(Client, None, 1, 0, 0))
    else if k == 8 then Alone(true, Some(0), 1, 0, Thread(SharedRegister, None, 1, 0, 0))
    else Alone(true, Some(0), 1, 1, Thread(SharedLoad, Some(0), 1, 0, 0))
  }

  /** Its call of `lock`, its call of `lock_shared`, and the registration inside it. */
  function LockThenShared(k: nat): seq<Label>
    requires k <= 9
    decreases 9 - k
  {
    if k == 9 then []
    else [Label(0, if k == 0 then CallLock else if k == 7 then CallLockShared else if k == 8 then Register(0) else Go)]
         + LockThenShared(k + 1)
  }

  lemma StageStep(k: nat)
    requires k < 9
    ensures Exec(Stage(k), LockThenShared(k)[0]) == Stage(k + 1)
  {
    hide Exec, Stage;
    if k == 0 || k == 7 || k == 8 {
      CallStage(k);
    } else if k <= 3 {
      TakeStage(k);
    } else {
      ScanStage(k);
    }
  }

  lemma CallStage(k: nat)
    requires k == 0 || k == 7 || k == 8
    ensures Exec(Stage(k), Label(0, if k == 0 then CallLock else if k == 7 then CallLockShared else Register(0))) == Stage(k + 1)
  {
    hide FlagStep, SlotStep;
  }

  lemma TakeStage(k: nat)
    requires 1 <= k <= 3
    ensures Exec(Stage(k), Label(0, Go)) == Stage(k + 1)
  {
    hide Begin, SlotStep;
  }

  lemma ScanStage(k: nat)
    requires 4 <= k <= 6
    ensures Exec(Stage(k), Label(0, Go)) == Stage(k + 1)
  {
    hide Begin, SlotStep;
  }

  lemma {:induction false} ReachesLastStage(k: nat)
    requires k <= 9 && Inv(Stage(k))
    ensures Run(Stage(k), LockThenShared(k)) == Stage(9)
    decreases 9 - k
  {
    hide Exec, Inv, Run, Stage;
    if k == 9 {
      RunNothing(Stage(9));
    } else {
      StageStep(k);
      RunNext(Stage(k), LockThenShared(k)[0], LockThenShared(k + 1));
      ReachesLastStage(k + 1);
    }
  }

  /** It starts without a slot, and the call that should nest finds it one: it waits for itself from then on. */
  lemma LockThenSharedIsCaught()
    ensures Init(Stage(0)) && Inv(Stage(0)) && WaitsForItself(Run(Stage(0), LockThenShared(0)), 0)
  {
    hide Run, Inv, Init, LockThenShared, Stage, WaitsForItself;
    FirstAndLastStage();
    InitHasInv(Stage(0));
    ReachesLastStage(0);
  }

  lemma FirstAndLastStage()
    ensures Init(Stage(0)) && WaitsForItself(Stage(9), 0)
  {
  }

  lemma RunNothing(m: State)
    requires Inv(m)
    ensures Run(m, []) == m
  {
  }
}
