/**
  The lock-free multi-producer multi-consumer unicast ring that carries every
  message between a scheduler and its executors.

  The model is a transition system. Every atomic load, store and compare-exchange
  is one step, and so is every byte that `push` writes into a slot or `pop` copies
  out of one, so that a torn copy is something the model could show. A schedule is
  any sequence of labels (thread, action); a label that is not enabled leaves the
  state unchanged, so the theorems range over all interleavings.

  Memory is sequentially consistent and the cursors are unbounded naturals.
 */
module Ring {
  import opened Options

  type Tid = nat
  type Payload = seq<nat>

  /** What the last operation of a thread returned. */
  datatype Outcome = Nothing | Pushed | Full | Popped(v: Payload) | Empty

  /** Program counter and local variables of one thread. */
  datatype Pc =
    | Idle(last: Outcome)
      // push
    | PushLoadCt(v: Payload)
    | PushLoadRd(v: Payload, cur: nat)
    | PushCasCt(v: Payload, cur: nat)
    | PushWrite(v: Payload, t: nat, i: nat)
    | HelpLoadFlag(cur: nat)
    | HelpLoadWt(cur: nat, cac: Option<nat>)
    | HelpCasFlag(cur: nat)
    | HelpStoreWt(cur: nat)
      // pop
    | PopLoadRd
    | PopLoadWt(r: nat)
    | PopLoadFlag(x: nat)
    | PopCasFlag(x: nat)
    | PopStoreWt(x: nat)
    | PopCopy(r: nat, buf: Payload)

  /**
    `rd`, `wt`, `ct` are the three cursors; `data` and `flag` are the slots, a flag
    being the ticket whose commit it announces or nothing. `pushed` and `popped` are
    history: the payloads in the order of the successful exchanges on `ct`, and the
    local buffers handed out in the order of the successful exchanges on `rd`.
   */
  datatype State = State(
    w: nat, rd: nat, wt: nat, ct: nat,
    data: seq<Payload>, flag: seq<Option<nat>>,
    pc: map<Tid, Pc>,
    pushed: seq<Payload>, popped: seq<Payload>)

  /** `Go` is the next step of the operation in progress, `Spurious` a weak exchange that fails for no reason. */
  datatype Action = StartPush(v: Payload) | StartPop | Go | Spurious

  /** A label of a schedule: which thread acts, and how. */
  datatype Label = Label(tid: Tid, act: Action)

  /** `t` modulo `n`, by repeated subtraction, which keeps the proofs free of division. */
  function Residue(t: nat, n: nat): (i: nat)
    requires n > 0
    ensures i < n
  {
    if t < n then t else Residue(t - n, n)
  }

  /** With 256 slots this is the conversion to an 8-bit unsigned integer that the ring uses as its index. */
  lemma {:induction false} ResidueIsLowByte(t: nat)
    ensures Residue(t, 256) == t % 256
  {
    if t >= 256 { ResidueIsLowByte(t - 256); }
  }

  /** The slot of a ticket. */
  function Slot(s: State, t: nat): (i: nat)
    requires |s.data| > 0
    ensures i < |s.data|
  {
    Residue(t, |s.data|)
  }

  /** The shape every state keeps: at least two slots, each with a flag and a payload of `w` bytes. */
  ghost predicate Shaped(s: State) {
    && |s.data| >= 2
    && |s.flag| == |s.data|
    && (forall i :: 0 <= i < |s.data| ==> |s.data[i]| == s.w)
    && (forall tid :: tid in s.pc ==> LocalShape(s, s.pc[tid]))
  }

  ghost predicate LocalShape(s: State, p: Pc) {
    match p
    case PushLoadCt(v) => |v| == s.w
    case PushLoadRd(v, _) => |v| == s.w
    case PushCasCt(v, _) => |v| == s.w
    case PushWrite(v, _, i) => |v| == s.w && i <= s.w
    case PopCopy(_, buf) => |buf| <= s.w
    case _ => true
  }

  function At(s: State, tid: Tid, p: Pc): State {
    s.(pc := s.pc[tid := p])
  }

  /** One step of `tid`. */
  function Exec(s: State, l: Label): (s': State)
    requires Shaped(s)
    ensures |s'.data| == |s.data| && |s'.flag| == |s.flag|
  {
    if l.tid !in s.pc then s
    else match l.act
      case StartPush(v) => if s.pc[l.tid].Idle? && |v| == s.w then At(s, l.tid, PushLoadCt(v)) else s
      case StartPop => if s.pc[l.tid].Idle? then At(s, l.tid, PopLoadRd) else s
      case Go => if s.pc[l.tid].Idle? then s else if PopPc(s.pc[l.tid]) then PopStep(s, l.tid) else PushStep(s, l.tid)
      case Spurious => SpuriousStep(s, l.tid)
  }

  predicate PopPc(p: Pc) {
    p.PopLoadRd? || p.PopLoadWt? || p.PopLoadFlag? || p.PopCasFlag? || p.PopStoreWt? || p.PopCopy?
  }

  function PushStep(s: State, tid: Tid): (s': State)
    requires Shaped(s) && tid in s.pc && !s.pc[tid].Idle? && !PopPc(s.pc[tid])
    ensures |s'.data| == |s.data| && |s'.flag| == |s.flag|
  {
    match s.pc[tid]
    case PushLoadCt(v) => At(s, tid, PushLoadRd(v, s.ct))
    case PushLoadRd(v, cur) =>
      if Slot(s, cur + 1) == Slot(s, s.rd) then At(s, tid, Idle(Full)) else At(s, tid, PushCasCt(v, cur))
    case PushCasCt(v, cur) =>
      if s.ct == cur
      then At(s.(ct := cur + 1, pushed := s.pushed + [v]), tid, PushWrite(v, cur, 0))
      else At(s, tid, PushLoadCt(v))
    case PushWrite(v, t, i) =>
      var k := Slot(s, t);
      if i < s.w
      then At(s.(data := s.data[k := s.data[k][i := v[i]]]), tid, PushWrite(v, t, i + 1))
      else At(s.(flag := s.flag[k := Some(t)]), tid, HelpLoadFlag(t))
    case HelpLoadFlag(cur) => At(s, tid, HelpLoadWt(cur, s.flag[Slot(s, cur)]))
    case HelpLoadWt(cur, cac) =>
      if cur != s.wt || cac != Some(cur) then At(s, tid, Idle(Pushed)) else At(s, tid, HelpCasFlag(cur))
    case HelpCasFlag(cur) =>
      if s.flag[Slot(s, cur)] == Some(cur)
      then At(s.(flag := s.flag[Slot(s, cur) := None]), tid, HelpStoreWt(cur))
      else At(s, tid, Idle(Pushed))
    case HelpStoreWt(cur) => At(s.(wt := cur + 1), tid, HelpLoadFlag(cur + 1))
  }

  function PopStep(s: State, tid: Tid): (s': State)
    requires Shaped(s) && tid in s.pc && PopPc(s.pc[tid])
    ensures |s'.data| == |s.data| && |s'.flag| == |s.flag|
  {
    match s.pc[tid]
    case PopLoadRd => At(s, tid, PopLoadWt(s.rd))
    case PopLoadWt(r) =>
      if Slot(s, r) == Slot(s, s.wt) then At(s, tid, PopLoadFlag(s.wt)) else At(s, tid, PopCopy(r, []))
    case PopLoadFlag(x) =>
      if s.flag[Slot(s, x)] != Some(x) then At(s, tid, Idle(Empty)) else At(s, tid, PopCasFlag(x))
    case PopCasFlag(x) =>
      if s.flag[Slot(s, x)] == Some(x)
      then At(s.(flag := s.flag[Slot(s, x) := None]), tid, PopStoreWt(x))
      else At(s, tid, PopLoadRd)
    case PopStoreWt(x) => At(s.(wt := x + 1), tid, PopLoadRd)
    case PopCopy(r, buf) =>
      if |buf| < s.w then At(s, tid, PopCopy(r, buf + [s.data[Slot(s, r)][|buf|]]))
      else if s.rd == r then At(s.(rd := r + 1, popped := s.popped + [buf]), tid, Idle(Popped(buf)))
      else At(s, tid, PopLoadRd)
  }

  /** The weak exchanges: on `ct` and `rd`, and on the flag in `pop`. */
  function SpuriousStep(s: State, tid: Tid): (s': State)
    requires tid in s.pc
    ensures |s'.data| == |s.data| && |s'.flag| == |s.flag|
  {
    match s.pc[tid]
    case PushCasCt(v, _) => At(s, tid, PushLoadCt(v))
    case PopCasFlag(_) => At(s, tid, PopLoadRd)
    case PopCopy(_, buf) => if |buf| == s.w then At(s, tid, PopLoadRd) else s
    case _ => s
  }

  /** An empty ring with all its threads idle. */
  ghost predicate Init(s: State) {
    && |s.data| >= 2
    && |s.flag| == |s.data|
    && (forall i :: 0 <= i < |s.data| ==> |s.data[i]| == s.w)
    && (forall i :: 0 <= i < |s.flag| ==> s.flag[i] == None)
    && s.rd == s.wt == s.ct == 0
    && s.pushed == s.popped == []
    && forall tid :: tid in s.pc ==> s.pc[tid] == Idle(Nothing)
  }

  // ---------------------------------------------------------------- invariant

  /** The ticket a thread is solely responsible for: the one it writes, or the one whose flag it has cleared. */
  function Owned(p: Pc): Option<nat> {
    match p
    case PushWrite(_, t, _) => Some(t)
    case HelpStoreWt(cur) => Some(cur)
    case PopStoreWt(x) => Some(x)
    case _ => None
  }

  ghost predicate Writing(s: State, t: nat) {
    exists tid :: tid in s.pc && s.pc[tid].PushWrite? && s.pc[tid].t == t
  }

  /** Some thread has cleared the flag of `t` and has yet to move `wt`. */
  ghost predicate Claimed(s: State, t: nat) {
    exists tid :: tid in s.pc && (s.pc[tid] == HelpStoreWt(t) || s.pc[tid] == PopStoreWt(t))
  }

  ghost predicate Cursors(s: State) {
    && s.rd <= s.wt <= s.ct <= s.rd + |s.data| - 1
    && |s.pushed| == s.ct
    && s.popped == s.pushed[..s.rd]
    && (forall t :: 0 <= t < s.ct ==> |s.pushed[t]| == s.w)
  }

  ghost predicate Flags(s: State)
    requires |s.flag| == |s.data| > 0
  {
    forall i :: 0 <= i < |s.flag| && s.flag[i].Some? ==>
      Slot(s, s.flag[i].value) == i && s.wt <= s.flag[i].value < s.ct
  }

  ghost predicate PcOk(s: State, p: Pc)
    requires Shaped(s) && Cursors(s)
  {
    match p
    case PushLoadRd(_, cur) => cur <= s.ct
    case PushCasCt(_, cur) => cur <= s.ct && (cur == s.ct ==> cur + 1 <= s.rd + |s.data| - 1)
    case PushWrite(v, t, i) =>
      && s.wt <= t < s.ct && |v| == s.w && i <= s.w && s.pushed[t] == v
      && s.data[Slot(s, t)][..i] == v[..i]
      && s.flag[Slot(s, t)] == None
    case HelpCasFlag(cur) => cur <= s.wt
    case HelpStoreWt(cur) => cur == s.wt < s.ct && s.flag[Slot(s, cur)] == None
    case PopLoadWt(r) => r <= s.rd
    case PopLoadFlag(x) => x <= s.wt
    case PopCasFlag(x) => x <= s.wt
    case PopStoreWt(x) => x == s.wt < s.ct && s.flag[Slot(s, x)] == None
    case PopCopy(r, buf) => r <= s.rd && |buf| <= s.w && (r == s.rd ==> r < s.wt && buf == s.pushed[r][..|buf|])
    case _ => true
  }

  ghost predicate Threads(s: State)
    requires Shaped(s) && Cursors(s)
  {
    && (forall tid :: tid in s.pc ==> PcOk(s, s.pc[tid]))
    && (forall a, b :: a in s.pc && b in s.pc && Owned(s.pc[a]).Some? && Owned(s.pc[a]) == Owned(s.pc[b]) ==> a == b)
  }

  /** Every ticket not yet passed by `wt` is being written, or announced by its flag, or claimed. */
  ghost predicate Covered(s: State)
    requires |s.flag| == |s.data| > 0
  {
    forall t :: s.wt <= t < s.ct ==> s.flag[Slot(s, t)] == Some(t) || Writing(s, t) || Claimed(s, t)
  }

  /** The slot of every unpopped ticket that nobody is writing holds exactly the payload pushed for it. */
  ghost predicate Stored(s: State)
    requires |s.data| > 0 && |s.pushed| == s.ct
  {
    forall t :: s.rd <= t < s.ct && !Writing(s, t) ==> s.data[Slot(s, t)] == s.pushed[t]
  }

  ghost predicate Inv(s: State) {
    Shaped(s) && Cursors(s) && Flags(s) && Threads(s) && Covered(s) && Stored(s)
  }

  // ------------------------------------------------------ preservation, by kind of step

  /** Two tickets less than a ring apart share a slot only if they are the same. */
  lemma {:induction false} SlotInjective(a: nat, b: nat, n: nat)
    requires n > 0 && a <= b < a + n && Residue(a, n) == Residue(b, n)
    ensures a == b
  {
    if a >= n { SlotInjective(a - n, b - n, n); }
  }

  /** Tickets between `rd` and `ct` occupy distinct slots. */
  lemma LiveSlotsDistinct(s: State, a: nat, b: nat)
    requires |s.data| > 0 && s.rd <= a <= s.rd + |s.data| - 1 && s.rd <= b <= s.rd + |s.data| - 1 && a != b
    ensures Slot(s, a) != Slot(s, b)
  {
    if Slot(s, a) == Slot(s, b) {
      if a < b { SlotInjective(a, b, |s.data|); } else { SlotInjective(b, a, |s.data|); }
    }
  }

  /** A step of `tid` leaves what the other threads write or have claimed as it was. */
  lemma OthersUnmoved(s: State, s': State, tid: Tid, u: nat)
    requires tid in s.pc && tid in s'.pc && s'.pc == s.pc[tid := s'.pc[tid]]
    requires Owned(s.pc[tid]) != Some(u) && Owned(s'.pc[tid]) != Some(u)
    ensures Writing(s, u) == Writing(s', u) && Claimed(s, u) == Claimed(s', u)
  {
    if Writing(s, u) {
      var w :| w in s.pc && s.pc[w].PushWrite? && s.pc[w].t == u;
      assert w != tid && s'.pc[w] == s.pc[w];
    }
    if Claimed(s, u) {
      var w :| w in s.pc && (s.pc[w] == HelpStoreWt(u) || s.pc[w] == PopStoreWt(u));
      assert w != tid && s'.pc[w] == s.pc[w];
    }
    if Writing(s', u) {
      var w :| w in s'.pc && s'.pc[w].PushWrite? && s'.pc[w].t == u;
      assert w != tid && s'.pc[w] == s.pc[w];
    }
    if Claimed(s', u) {
      var w :| w in s'.pc && (s'.pc[w] == HelpStoreWt(u) || s'.pc[w] == PopStoreWt(u));
      assert w != tid && s'.pc[w] == s.pc[w];
    }
  }

  lemma OtherTicketsUnmoved(s: State, s': State, tid: Tid, x: nat)
    requires tid in s.pc && tid in s'.pc && s'.pc == s.pc[tid := s'.pc[tid]]
    requires Owned(s.pc[tid]) in {None, Some(x)} && Owned(s'.pc[tid]) in {None, Some(x)}
    ensures forall u: nat :: u != x ==> Writing(s, u) == Writing(s', u) && Claimed(s, u) == Claimed(s', u)
  {
    forall u: nat | u != x ensures Writing(s, u) == Writing(s', u) && Claimed(s, u) == Claimed(s', u) {
      OthersUnmoved(s, s', tid, u);
    }
  }

  /** Cursors only move forward, and the history of pushes only grows. */
  ghost predicate Grows(s: State, s': State) {
    && s'.w == s.w && |s'.data| == |s.data|
    && s.rd <= s'.rd && s.wt <= s'.wt && s.ct <= s'.ct
    && s.pushed <= s'.pushed
  }

  /** The slot of an owned ticket is left alone and `wt` does not pass it. */
  ghost predicate OwnedKept(s: State, s': State, t: nat)
    requires Shaped(s) && Shaped(s') && |s'.data| == |s.data|
  {
    s'.wt <= t && s'.flag[Slot(s, t)] == s.flag[Slot(s, t)] && s'.data[Slot(s, t)] == s.data[Slot(s, t)]
  }

  /** What a thread relies on survives a step of another thread. */
  lemma PcStable(s: State, s': State, p: Pc)
    requires Shaped(s) && Cursors(s) && Shaped(s') && Cursors(s') && Grows(s, s') && PcOk(s, p)
    requires Owned(p).Some? ==> OwnedKept(s, s', Owned(p).value)
    ensures PcOk(s', p)
  {
    match p
    case PushWrite(v, t, i) => assert s'.pushed[t] == s.pushed[t];
    case PopCopy(r, buf) => if r == s'.rd { assert s'.pushed[r] == s.pushed[r]; }
    case _ =>
  }

  /** All threads stay consistent when `tid` is, and disturbs nobody else's ticket. */
  lemma ThreadsStable(s: State, s': State, tid: Tid)
    requires Inv(s) && Shaped(s') && Cursors(s') && Grows(s, s')
    requires tid in s.pc && tid in s'.pc && s'.pc == s.pc[tid := s'.pc[tid]]
    requires PcOk(s', s'.pc[tid])
    requires forall q :: q in s.pc && q != tid && Owned(s.pc[q]).Some? ==>
      OwnedKept(s, s', Owned(s.pc[q]).value) && Owned(s.pc[q]) != Owned(s'.pc[tid])
    ensures Threads(s')
  {
    forall q | q in s'.pc ensures PcOk(s', s'.pc[q]) {
      if q != tid { PcStable(s, s', s.pc[q]); }
    }
  }

  /** A thread that owns no ticket before or after, and touches nothing shared. */
  lemma KeepsLocal(s: State, tid: Tid, p: Pc)
    requires Inv(s) && tid in s.pc
    requires Owned(s.pc[tid]) == None && Owned(p) == None
    requires LocalShape(s, p) && PcOk(s, p)
    ensures Inv(At(s, tid, p))
  {
    hide Threads;
    var s' := At(s, tid, p);
    PcStable(s, s', p);
    OwnedInRange(s);
    ThreadsStable(s, s', tid);
    forall t: nat ensures Writing(s, t) == Writing(s', t) && Claimed(s, t) == Claimed(s', t) {
      OthersUnmoved(s, s', tid, t);
    }
  }

  lemma OwnedInRange(s: State)
    requires Inv(s)
    ensures forall q :: q in s.pc && Owned(s.pc[q]).Some? ==>
      s.wt <= Owned(s.pc[q]).value < s.ct && s.flag[Slot(s, Owned(s.pc[q]).value)] == None
  {
    forall q | q in s.pc && Owned(s.pc[q]).Some?
      ensures s.wt <= Owned(s.pc[q]).value < s.ct && s.flag[Slot(s, Owned(s.pc[q]).value)] == None
    {
      assert PcOk(s, s.pc[q]);
    }
  }

  /** The exchange on `ct` succeeds: a fresh ticket, whose slot is free. */
  lemma KeepsTakeTicket(s: State, tid: Tid)
    requires Inv(s) && tid in s.pc && s.pc[tid].PushCasCt? && s.pc[tid].cur == s.ct
    ensures Inv(PushStep(s, tid))
  {
    hide Threads, PcOk;
    var s' := PushStep(s, tid);
    var t := s.ct;
    TakeTicketThreads(s, tid);
    assert s'.pc[tid].PushWrite?;
    assert Writing(s', t);
    OtherTicketsUnmoved(s, s', tid, t);
  }

  lemma TakeTicketThreads(s: State, tid: Tid)
    requires Inv(s) && tid in s.pc && s.pc[tid].PushCasCt? && s.pc[tid].cur == s.ct
    ensures var s' := PushStep(s, tid); Shaped(s') && Cursors(s') && Threads(s') && s.flag[Slot(s, s.ct)] == None
  {
    hide Threads, Covered, Stored;
    Facts(s, tid);
    var s' := PushStep(s, tid);
    FlagFree(s, s.ct);
    OwnedInRange(s);
    assert s'.pushed[..s.rd] == s.pushed[..s.rd];
    ThreadsStable(s, s', tid);
  }

  /** No flag announces a ticket of the slot of `ct` while the ring has room for it. */
  lemma FlagFree(s: State, t: nat)
    requires Shaped(s) && Cursors(s) && Flags(s) && t == s.ct < s.rd + |s.data|
    ensures s.flag[Slot(s, t)] == None
  {
    if s.flag[Slot(s, t)].Some? {
      SlotInjective(s.flag[Slot(s, t)].value, t, |s.data|);
    }
  }

  /** One byte of the payload goes into the slot of the ticket being written. */
  lemma KeepsWriteByte(s: State, tid: Tid)
    requires Inv(s) && tid in s.pc && s.pc[tid].PushWrite? && s.pc[tid].i < s.w
    ensures Inv(PushStep(s, tid))
    ensures forall u: nat :: s.rd <= u < s.ct && u != s.pc[tid].t ==> PushStep(s, tid).data[Slot(s, u)] == s.data[Slot(s, u)]
  {
    hide Threads;
    Facts(s, tid);
    var s' := PushStep(s, tid);
    var PushWrite(v, t, i) := s.pc[tid];
    OwnedInRange(s);
    forall u: nat | s.rd <= u < s.ct && u != t ensures s'.data[Slot(s, u)] == s.data[Slot(s, u)] {
      LiveSlotsDistinct(s, t, u);
    }
    WrittenPrefixGrows(s, tid);
    ThreadsStable(s, s', tid);
    WriterStaysWriter(s, s', tid);
  }

  lemma WrittenPrefixGrows(s: State, tid: Tid)
    requires Inv(s) && tid in s.pc && s.pc[tid].PushWrite? && s.pc[tid].i < s.w
    ensures Shaped(PushStep(s, tid)) && Cursors(PushStep(s, tid)) && PcOk(PushStep(s, tid), PushStep(s, tid).pc[tid])
  {
    var s' := PushStep(s, tid);
    var PushWrite(v, t, i) := s.pc[tid];
    assert PcOk(s, s.pc[tid]);
    var k := Slot(s, t);
    assert s'.data[k][..i + 1] == s.data[k][..i] + [v[i]];
    assert v[..i + 1] == v[..i] + [v[i]];
  }

  lemma WriterStaysWriter(s: State, s': State, tid: Tid)
    requires tid in s.pc && tid in s'.pc && s'.pc == s.pc[tid := s'.pc[tid]]
    requires s.pc[tid].PushWrite? && s'.pc[tid].PushWrite? && s'.pc[tid].t == s.pc[tid].t
    ensures forall u: nat :: Writing(s, u) == Writing(s', u)
    ensures forall u: nat :: u != s.pc[tid].t ==> Claimed(s, u) == Claimed(s', u)
  {
    forall u: nat | u != s.pc[tid].t ensures Writing(s, u) == Writing(s', u) && Claimed(s, u) == Claimed(s', u) {
      OthersUnmoved(s, s', tid, u);
    }
  }

  /** The payload is complete: its flag announces the ticket. */
  lemma KeepsSetFlag(s: State, tid: Tid)
    requires Inv(s) && tid in s.pc && s.pc[tid].PushWrite? && s.pc[tid].i == s.w
    ensures Inv(PushStep(s, tid))
  {
    hide Threads;
    Facts(s, tid);
    var s' := PushStep(s, tid);
    var t := s.pc[tid].t;
    assert s.data[Slot(s, t)] == s.pushed[t];
    OwnedInRange(s);
    forall u: nat | s.rd <= u < s.ct && u != t ensures Slot(s, u) != Slot(s, t) {
      LiveSlotsDistinct(s, t, u);
    }
    ThreadsStable(s, s', tid);
    OtherTicketsUnmoved(s, s', tid, t);
  }

  /** What a thread at one of the two exchanges on a flag knows when the flag is still up. */
  lemma FlagUpMeansAtWt(s: State, tid: Tid, x: nat)
    requires Inv(s) && tid in s.pc && (s.pc[tid] == HelpCasFlag(x) || s.pc[tid] == PopCasFlag(x))
    requires s.flag[Slot(s, x)] == Some(x)
    ensures x == s.wt < s.ct && !Writing(s, x) && !Claimed(s, x)
  {
    assert PcOk(s, s.pc[tid]);
    OwnedInRange(s);
  }

  lemma ClearFlagThreads(s: State, s': State, tid: Tid)
    requires Inv(s) && tid in s.pc && Owned(s.pc[tid]) == None
    requires s.wt < s.ct && s.flag[Slot(s, s.wt)] == Some(s.wt)
    requires tid in s'.pc && (s'.pc[tid] == HelpStoreWt(s.wt) || s'.pc[tid] == PopStoreWt(s.wt))
    requires s' == At(s.(flag := s.flag[Slot(s, s.wt) := None]), tid, s'.pc[tid])
    ensures Shaped(s') && Cursors(s') && Threads(s')
  {
    OwnedInRange(s);
    ThreadsStable(s, s', tid);
  }

  /** The exchange on a flag succeeds: the ticket is the one `wt` stands at, and has a single claimant. */
  lemma KeepsClearFlag(s: State, tid: Tid, x: nat, p: Pc)
    requires Inv(s) && tid in s.pc
    requires s.pc[tid] == HelpCasFlag(x) || s.pc[tid] == PopCasFlag(x)
    requires p == HelpStoreWt(x) || p == PopStoreWt(x)
    requires s.flag[Slot(s, x)] == Some(x)
    ensures Inv(At(s.(flag := s.flag[Slot(s, x) := None]), tid, p))
  {
    hide Threads;
    var s' := At(s.(flag := s.flag[Slot(s, x) := None]), tid, p);
    FlagUpMeansAtWt(s, tid, x);
    ClearFlagThreads(s, s', tid);
    assert Claimed(s', x) by { assert tid in s'.pc && s'.pc[tid] == p; }
    OtherTicketsUnmoved(s, s', tid, x);
    forall u: nat | s.wt <= u < s.ct && u != x ensures s'.flag[Slot(s, u)] == s.flag[Slot(s, u)] {
      LiveSlotsDistinct(s, x, u);
    }
  }

  /** The claimant moves `wt` over its ticket. */
  lemma KeepsAdvanceWt(s: State, tid: Tid, p: Pc)
    requires Inv(s) && tid in s.pc && (s.pc[tid] == HelpStoreWt(s.wt) || s.pc[tid] == PopStoreWt(s.wt))
    requires p == HelpLoadFlag(s.wt + 1) || p == PopLoadRd
    ensures Inv(At(s.(wt := s.wt + 1), tid, p))
  {
    hide Threads;
    var s' := At(s.(wt := s.wt + 1), tid, p);
    ClaimIsAtWt(s, tid);
    AdvanceWtThreads(s, s', tid);
    OtherTicketsUnmoved(s, s', tid, s.wt);
  }

  /** A claimed ticket is the one `wt` stands at, and nobody is writing it. */
  lemma ClaimIsAtWt(s: State, tid: Tid)
    requires Inv(s) && tid in s.pc && (s.pc[tid].HelpStoreWt? || s.pc[tid].PopStoreWt?)
    ensures Owned(s.pc[tid]) == Some(s.wt) && s.wt < s.ct
    ensures s.flag[Slot(s, s.wt)] == None && !Writing(s, s.wt)
  {
    assert PcOk(s, s.pc[tid]);
  }

  lemma AdvanceWtThreads(s: State, s': State, tid: Tid)
    requires Inv(s) && tid in s.pc && (s.pc[tid] == HelpStoreWt(s.wt) || s.pc[tid] == PopStoreWt(s.wt))
    requires tid in s'.pc && (s'.pc[tid] == HelpLoadFlag(s.wt + 1) || s'.pc[tid] == PopLoadRd)
    requires s' == At(s.(wt := s.wt + 1), tid, s'.pc[tid])
    ensures Shaped(s') && Cursors(s') && Threads(s') && Flags(s')
  {
    hide Covered, Stored, Threads;
    ClaimIsAtWt(s, tid);
    OwnedInRange(s);
    AdvanceWtFlags(s, s');
    Facts(s, tid);
    ThreadsStable(s, s', tid);
  }

  /** No flag announces the ticket `wt` moves over. */
  lemma AdvanceWtFlags(s: State, s': State)
    requires |s.flag| == |s.data| > 0 && Flags(s) && s.flag[Slot(s, s.wt)] == None
    requires s'.flag == s.flag && s'.wt == s.wt + 1 && s'.ct == s.ct && |s'.data| == |s.data|
    ensures Flags(s')
  {
    forall i | 0 <= i < |s.flag| && s.flag[i].Some? ensures s.flag[i].value != s.wt {
      assert Slot(s, s.flag[i].value) == i;
    }
  }

  /** The exchange on `rd` succeeds: the buffer copied byte by byte is exactly the payload of the oldest ticket. */
  lemma KeepsAdvanceRd(s: State, tid: Tid)
    requires Inv(s) && tid in s.pc && s.pc[tid].PopCopy? && |s.pc[tid].buf| == s.w && s.pc[tid].r == s.rd
    ensures Inv(PopStep(s, tid))
    ensures s.rd < s.wt && s.pc[tid].buf == s.pushed[s.rd]
  {
    hide Threads;
    Facts(s, tid);
    var s' := PopStep(s, tid);
    assert s.pushed[s.rd][..s.w] == s.pushed[s.rd];
    assert s.pushed[..s.rd + 1] == s.pushed[..s.rd] + [s.pushed[s.rd]];
    OwnedInRange(s);
    ThreadsStable(s, s', tid);
    forall u: nat ensures Writing(s, u) == Writing(s', u) && Claimed(s, u) == Claimed(s', u) {
      OthersUnmoved(s, s', tid, u);
    }
  }

  /** One byte is copied out; while `rd` has not moved it belongs to the payload of that ticket. */
  lemma KeepsCopyByte(s: State, tid: Tid)
    requires Inv(s) && tid in s.pc && s.pc[tid].PopCopy? && |s.pc[tid].buf| < s.w
    ensures Inv(PopStep(s, tid))
  {
    var PopCopy(r, buf) := s.pc[tid];
    assert PcOk(s, s.pc[tid]);
    var buf' := buf + [s.data[Slot(s, r)][|buf|]];
    if r == s.rd {
      OwnedInRange(s);
      assert !Writing(s, r);
      assert buf' == s.pushed[r][..|buf'|];
    }
    KeepsLocal(s, tid, PopCopy(r, buf'));
  }

  // ---------------------------------------------------------------- all steps

  /** What the invariant says to one thread. */
  lemma Facts(s: State, tid: Tid)
    requires Inv(s) && tid in s.pc
    ensures Shaped(s) && Cursors(s) && PcOk(s, s.pc[tid]) && LocalShape(s, s.pc[tid])
    ensures |s.flag| == |s.data| >= 2
    ensures Owned(s.pc[tid]).Some? ==> forall q :: q in s.pc && q != tid ==> Owned(s.pc[q]) != Owned(s.pc[tid])
  {
  }

  lemma KeepsPushTake(s: State, tid: Tid)
    requires Inv(s) && tid in s.pc
    requires s.pc[tid].PushLoadCt? || s.pc[tid].PushLoadRd? || s.pc[tid].PushCasCt? || s.pc[tid].PushWrite?
    ensures Inv(PushStep(s, tid))
  {
    hide Inv, Shaped, Threads, Flags, Covered, Stored;
    Facts(s, tid);
    match s.pc[tid]
    case PushLoadCt(v) => KeepsLocal(s, tid, PushLoadRd(v, s.ct));
    case PushLoadRd(v, cur) => KeepsRoomTest(s, tid);
    case PushCasCt(v, cur) => if s.ct == cur { KeepsTakeTicket(s, tid); } else { KeepsLocal(s, tid, PushLoadCt(v)); }
    case PushWrite(v, t, i) => if i < s.w { KeepsWriteByte(s, tid); } else { KeepsSetFlag(s, tid); }
  }

  /** If `ct` has not moved since it was read, a test that passes shows that there is room for one more ticket. */
  lemma RoomWhenSlotsDiffer(rd: nat, next: nat, n: nat)
    requires n > 0 && rd < next <= rd + n && Residue(next, n) != Residue(rd, n)
    ensures next <= rd + n - 1
  {
  }

  lemma KeepsRoomTest(s: State, tid: Tid)
    requires Inv(s) && tid in s.pc && s.pc[tid].PushLoadRd?
    ensures Inv(PushStep(s, tid))
  {
    hide Inv, Shaped, Threads, Flags, Covered, Stored;
    Facts(s, tid);
    var PushLoadRd(v, cur) := s.pc[tid];
    if Slot(s, cur + 1) == Slot(s, s.rd) {
      KeepsLocal(s, tid, Idle(Full));
    } else {
      if cur == s.ct { RoomWhenSlotsDiffer(s.rd, cur + 1, |s.data|); }
      KeepsLocal(s, tid, PushCasCt(v, cur));
    }
  }

  lemma KeepsHelpLoads(s: State, tid: Tid)
    requires Inv(s) && tid in s.pc && (s.pc[tid].HelpLoadFlag? || s.pc[tid].HelpLoadWt?)
    ensures Inv(PushStep(s, tid))
  {
    hide Inv, Shaped, Threads, Flags, Covered, Stored;
    Facts(s, tid);
    match s.pc[tid]
    case HelpLoadFlag(cur) => KeepsLocal(s, tid, HelpLoadWt(cur, s.flag[Slot(s, cur)]));
    case HelpLoadWt(cur, cac) =>
      KeepsLocal(s, tid, if cur != s.wt || cac != Some(cur) then Idle(Pushed) else HelpCasFlag(cur));
  }

  lemma KeepsHelpCas(s: State, tid: Tid)
    requires Inv(s) && tid in s.pc && s.pc[tid].HelpCasFlag?
    ensures Inv(PushStep(s, tid))
  {
    hide Inv, Shaped, Threads, Flags, Covered, Stored;
    Facts(s, tid);
    var cur := s.pc[tid].cur;
    if s.flag[Slot(s, cur)] == Some(cur) {
      KeepsClearFlag(s, tid, cur, HelpStoreWt(cur));
    } else {
      KeepsLocal(s, tid, Idle(Pushed));
    }
  }

  lemma KeepsHelpStore(s: State, tid: Tid)
    requires Inv(s) && tid in s.pc && s.pc[tid].HelpStoreWt?
    ensures Inv(PushStep(s, tid))
  {
    hide Inv, Shaped, Threads, Flags, Covered, Stored;
    Facts(s, tid);
    ClaimIsAtWt(s, tid);
    assert PushStep(s, tid) == At(s.(wt := s.wt + 1), tid, HelpLoadFlag(s.wt + 1));
    KeepsAdvanceWt(s, tid, HelpLoadFlag(s.wt + 1));
  }

  lemma KeepsPopLoads(s: State, tid: Tid)
    requires Inv(s) && tid in s.pc && (s.pc[tid].PopLoadRd? || s.pc[tid].PopLoadWt? || s.pc[tid].PopLoadFlag?)
    ensures Inv(PopStep(s, tid))
  {
    hide Inv, Shaped, Threads, Flags, Covered, Stored;
    Facts(s, tid);
    match s.pc[tid]
    case PopLoadRd => KeepsLocal(s, tid, PopLoadWt(s.rd));
    case PopLoadWt(r) => KeepsLocal(s, tid, if Slot(s, r) == Slot(s, s.wt) then PopLoadFlag(s.wt) else PopCopy(r, []));
    case PopLoadFlag(x) => KeepsLocal(s, tid, if s.flag[Slot(s, x)] != Some(x) then Idle(Empty) else PopCasFlag(x));
  }

  lemma KeepsPopCas(s: State, tid: Tid)
    requires Inv(s) && tid in s.pc && s.pc[tid].PopCasFlag?
    ensures Inv(PopStep(s, tid))
  {
    hide Inv, Shaped, Threads, Flags, Covered, Stored;
    Facts(s, tid);
    var x := s.pc[tid].x;
    if s.flag[Slot(s, x)] == Some(x) {
      KeepsClearFlag(s, tid, x, PopStoreWt(x));
    } else {
      KeepsLocal(s, tid, PopLoadRd);
    }
  }

  lemma KeepsPopStore(s: State, tid: Tid)
    requires Inv(s) && tid in s.pc && s.pc[tid].PopStoreWt?
    ensures Inv(PopStep(s, tid))
  {
    hide Inv, Shaped, Threads, Flags, Covered, Stored;
    Facts(s, tid);
    ClaimIsAtWt(s, tid);
    assert PopStep(s, tid) == At(s.(wt := s.wt + 1), tid, PopLoadRd);
    KeepsAdvanceWt(s, tid, PopLoadRd);
  }

  lemma KeepsPopCopy(s: State, tid: Tid)
    requires Inv(s) && tid in s.pc && s.pc[tid].PopCopy?
    ensures Inv(PopStep(s, tid))
  {
    hide Inv, Shaped, Threads, Flags, Covered, Stored;
    Facts(s, tid);
    if |s.pc[tid].buf| < s.w {
      KeepsCopyByte(s, tid);
    } else if s.pc[tid].r == s.rd {
      KeepsAdvanceRd(s, tid);
    } else {
      KeepsLocal(s, tid, PopLoadRd);
    }
  }

  /** Every step of every thread keeps the invariant. */
  lemma ExecKeepsInv(s: State, l: Label)
    requires Inv(s)
    ensures Inv(Exec(s, l))
  {
    hide Inv, Shaped, Threads, Flags, Covered, Stored;
    if l.tid in s.pc {
      Facts(s, l.tid);
      match l.act
      case StartPush(v) => if s.pc[l.tid].Idle? && |v| == s.w { KeepsLocal(s, l.tid, PushLoadCt(v)); }
      case StartPop => if s.pc[l.tid].Idle? { KeepsLocal(s, l.tid, PopLoadRd); }
      case Go =>
        match s.pc[l.tid] {
          case Idle(_) =>
          case PushLoadCt(_) => KeepsPushTake(s, l.tid);
          case PushLoadRd(_, _) => KeepsPushTake(s, l.tid);
          case PushCasCt(_, _) => KeepsPushTake(s, l.tid);
          case PushWrite(_, _, _) => KeepsPushTake(s, l.tid);
          case PopLoadRd => KeepsPopLoads(s, l.tid);
          case PopLoadWt(_) => KeepsPopLoads(s, l.tid);
          case PopLoadFlag(_) => KeepsPopLoads(s, l.tid);
          case PopCasFlag(_) => KeepsPopCas(s, l.tid);
          case PopStoreWt(_) => KeepsPopStore(s, l.tid);
          case PopCopy(_, _) => KeepsPopCopy(s, l.tid);
          case HelpLoadFlag(_) => KeepsHelpLoads(s, l.tid);
          case HelpLoadWt(_, _) => KeepsHelpLoads(s, l.tid);
          case HelpCasFlag(_) => KeepsHelpCas(s, l.tid);
          case HelpStoreWt(_) => KeepsHelpStore(s, l.tid);
        }
      case Spurious =>
        match s.pc[l.tid]
        case PushCasCt(v, _) => KeepsLocal(s, l.tid, PushLoadCt(v));
        case PopCasFlag(_) => KeepsLocal(s, l.tid, PopLoadRd);
        case PopCopy(_, buf) => if |buf| == s.w { KeepsLocal(s, l.tid, PopLoadRd); }
        case _ =>
    }
  }
}
