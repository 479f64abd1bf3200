/**
  The spinning readers-writer lock: one 32-bit word, whose top bit is the writers'
  flag and whose other bits count the readers.

  Every access to the word is one step, and there is any number of threads.
 */
module RwLock {

  type Tid = nat

  const W_MASK: nat := 0x7fff_ffff
  const W_FLAG: nat := 0x8000_0000
  const WORD: nat := 0x1_0000_0000

  datatype Pc = Idle | WriterTry | WriterWait | Writing | ReaderLoad | ReaderTry(old_: nat) | Reading

  datatype State = State(lc: nat, pc: map<Tid, Pc>)

  datatype Action = CallLock | CallLockShared | Go | Spurious

  datatype Label = Label(tid: Tid, act: Action)

  function At(m: State, t: Tid, p: Pc): State {
    m.(pc := m.pc[t := p])
  }

  /** `Go` from `Writing` and `Reading` is the release. */
  function Step(m: State, t: Tid): State
    requires t in m.pc
  {
    match m.pc[t]
    case Idle => m
    case WriterTry =>
      At(m.(lc := if m.lc < W_FLAG then m.lc + W_FLAG else m.lc), t,
         if m.lc == 0 then Writing else if m.lc < W_FLAG then WriterWait else WriterTry)
    case WriterWait => if m.lc % W_FLAG == 0 then At(m, t, Writing) else m
    case Writing => At(m.(lc := 0), t, Idle)
    case ReaderLoad => At(m, t, ReaderTry(m.lc))
    case ReaderTry(old_) =>
      if old_ >= W_FLAG then At(m, t, ReaderLoad)
      else if m.lc == old_ then At(m.(lc := (old_ + 1) % WORD), t, Reading)
      else At(m, t, ReaderTry(m.lc))
    case Reading => At(m.(lc := (m.lc + WORD - 1) % WORD), t, Idle)
  }

  function Exec(m: State, l: Label): State {
    if l.tid !in m.pc then m
    else match l.act
      case CallLock => if m.pc[l.tid].Idle? then At(m, l.tid, WriterTry) else m
      case CallLockShared => if m.pc[l.tid].Idle? then At(m, l.tid, ReaderLoad) else m
      case Go => Step(m, l.tid)
      case Spurious =>
        if m.pc[l.tid].ReaderTry? && m.pc[l.tid].old_ < W_FLAG then At(m, l.tid, ReaderTry(m.lc)) else m
  }

  ghost predicate Init(m: State) {
    m.lc == 0 && forall t :: t in m.pc ==> m.pc[t] == Idle
  }

  // ---------------------------------------------------------------- invariant

  function Readers(m: State): set<Tid> {
    set t | t in m.pc && m.pc[t] == Reading
  }

  /** The threads that set the flag and have not released it; a writer waits for readers before it is inside. */
  function Writers(m: State): set<Tid> {
    set t | t in m.pc && (m.pc[t] == WriterWait || m.pc[t] == Writing)
  }

  ghost predicate Inv(m: State) {
    && (forall a, b :: a in Writers(m) && b in Writers(m) ==> a == b)
    && m.lc == |Readers(m)| + (if Writers(m) == {} then 0 else W_FLAG)
    && |Readers(m)| <= W_MASK
    && (forall t :: t in m.pc && m.pc[t] == Writing ==> Readers(m) == {})
  }

  /** How the two sets change when one thread moves. */
  lemma SetsAfter(m: State, m': State, t: Tid)
    requires t in m.pc && t in m'.pc && m'.pc == m.pc[t := m'.pc[t]]
    ensures Readers(m') == (if m'.pc[t] == Reading then Readers(m) + {t} else Readers(m) - {t})
    ensures Writers(m') == (if m'.pc[t] in {WriterWait, Writing} then Writers(m) + {t} else Writers(m) - {t})
  {
    assert m'.pc.Keys == m.pc.Keys;
  }

  lemma Membership(m: State, t: Tid)
    requires t in m.pc
    ensures t in Readers(m) <==> m.pc[t] == Reading
    ensures t in Writers(m) <==> m.pc[t] == WriterWait || m.pc[t] == Writing
  {
  }

  predicate Inside(p: Pc) { p == Reading || p == WriterWait || p == Writing }

  /** A thread that neither counts nor has claimed the lock moves about outside. */
  lemma OutsideKeepsInv(m: State, t: Tid, p: Pc)
    requires Inv(m) && t in m.pc && !Inside(m.pc[t]) && !Inside(p)
    ensures Inv(At(m, t, p))
  {
    var m' := At(m, t, p);
    assert Readers(m') == Readers(m) && Writers(m') == Writers(m);
    hide Readers, Writers;
  }

  lemma WordArithmetic(x: nat)
    requires x < WORD
    ensures x > 0 ==> (x + WORD - 1) % WORD == x - 1
    ensures x + 1 < WORD ==> (x + 1) % WORD == x + 1
  {
  }

  lemma ReaderEnters(m: State, t: Tid)
    requires Inv(m) && t in m.pc && m.pc[t] == ReaderTry(m.lc) && m.lc < W_FLAG
    requires |Readers(Step(m, t))| <= W_MASK
    ensures Inv(Step(m, t))
  {
    hide Readers, Writers;
    var m' := Step(m, t);
    SetsAfter(m, m', t);
    Membership(m, t);
    WordArithmetic(m.lc);
    assert Writers(m) == {} && Writers(m') == {};
    forall u | u in m'.pc ensures m'.pc[u] != Writing { Membership(m', u); }
  }

  lemma ReaderLeaves(m: State, t: Tid)
    requires Inv(m) && t in m.pc && m.pc[t] == Reading
    ensures Inv(Step(m, t))
  {
    hide Readers, Writers;
    var m' := Step(m, t);
    SetsAfter(m, m', t);
    Membership(m, t);
    WordArithmetic(m.lc);
    assert Writers(m') == Writers(m);
    assert |Readers(m)| == |Readers(m')| + 1;
    assert Readers(m) != {};
  }

  lemma ReaderKeepsInv(m: State, t: Tid)
    requires Inv(m) && t in m.pc && (m.pc[t].ReaderLoad? || m.pc[t].ReaderTry? || m.pc[t].Reading?)
    requires |Readers(Step(m, t))| <= W_MASK
    ensures Inv(Step(m, t))
  {
    hide Readers, Writers;
    if m.pc[t] == ReaderTry(m.lc) && m.lc < W_FLAG {
      ReaderEnters(m, t);
    } else if m.pc[t].Reading? {
      ReaderLeaves(m, t);
    } else {
      OutsideKeepsInv(m, t, Step(m, t).pc[t]);
    }
  }

  lemma WriterKeepsInv(m: State, t: Tid)
    requires Inv(m) && t in m.pc && (m.pc[t].WriterTry? || m.pc[t].WriterWait? || m.pc[t].Writing?)
    ensures Inv(Step(m, t))
  {
    hide Readers, Writers;
    var m' := Step(m, t);
    SetsAfter(m, m', t);
    Membership(m, t);
    assert Readers(m') == Readers(m);
    if m.pc[t].WriterTry? {
      assert m.lc < W_FLAG <==> Writers(m) == {};
    } else {
      assert Writers(m) == {t};
      assert m.lc % W_FLAG == |Readers(m)|;
    }
    forall u | u in m'.pc && m'.pc[u] == Writing ensures Readers(m') == {} { Membership(m, u); }
  }

  lemma StepKeepsInv(m: State, t: Tid)
    requires Inv(m) && t in m.pc && |Readers(Step(m, t))| <= W_MASK
    ensures Inv(Step(m, t))
  {
    if m.pc[t].Idle? {}
    else if m.pc[t].ReaderLoad? || m.pc[t].ReaderTry? || m.pc[t].Reading? { ReaderKeepsInv(m, t); }
    else { WriterKeepsInv(m, t); }
  }

  lemma CallKeepsInv(m: State, l: Label)
    requires Inv(m) && l.tid in m.pc && !l.act.Go?
    ensures Inv(Exec(m, l))
  {
    hide Inv, Step;
    var m' := Exec(m, l);
    if m' != m { OutsideKeepsInv(m, l.tid, m'.pc[l.tid]); }
  }

  /** Every step keeps the invariant, unless it makes more readers than the word can count. */
  lemma ExecKeepsInv(m: State, l: Label)
    requires Inv(m) && |Readers(Exec(m, l))| <= W_MASK
    ensures Inv(Exec(m, l))
  {
    hide Inv, Readers, Step;
    if l.tid in m.pc {
      if l.act.Go? { StepKeepsInv(m, l.tid); } else { CallKeepsInv(m, l); }
    }
  }

  lemma InitHasInv(m: State)
    requires Init(m)
    ensures Inv(m)
  {
    assert Readers(m) == {} && Writers(m) == {};
  }

  // ---------------------------------------------------------------- theorems

  /** The state a schedule leads to. */
  function Run(m: State, sched: seq<Label>): State {
    if sched == [] then m else Exec(Run(m, sched[..|sched| - 1]), sched[|sched| - 1])
  }

  /** At no time in the run are more readers inside than the word can count. */
  ghost predicate FewReaders(m0: State, sched: seq<Label>) {
    forall n :: 0 <= n <= |sched| ==> |Readers(Run(m0, sched[..n]))| <= W_MASK
  }

  lemma {:induction false} RunKeepsInv(m0: State, sched: seq<Label>)
    requires Init(m0) && FewReaders(m0, sched)
    ensures Inv(Run(m0, sched))
    decreases |sched|
  {
    hide Inv, Exec, Readers, Init;
    if sched == [] {
      InitHasInv(m0);
    } else {
      var init := sched[..|sched| - 1];
      forall n | 0 <= n <= |init| ensures |Readers(Run(m0, init[..n]))| <= W_MASK {
        assert init[..n] == sched[..n];
      }
      RunKeepsInv(m0, init);
      assert sched[..|sched|] == sched;
      ExecKeepsInv(Run(m0, init), sched[|sched| - 1]);
    }
  }

  /** In every interleaving with few readers a writer is inside alone. */
  lemma Exclusion(m0: State, sched: seq<Label>, t: Tid)
    requires Init(m0) && FewReaders(m0, sched) && t in Run(m0, sched).pc && Run(m0, sched).pc[t] == Writing
    ensures var m := Run(m0, sched);
      forall u :: u in m.pc && u != t ==> m.pc[u] != Writing && m.pc[u] != Reading
  {
    hide Run, FewReaders;
    RunKeepsInv(m0, sched);
    var m := Run(m0, sched);
    assert t in Writers(m);
    forall u | u in m.pc && u != t ensures m.pc[u] != Writing && m.pc[u] != Reading {
      Membership(m, u);
    }
  }

  /** The low bits count the readers inside, and the top bit says whether a writer has claimed the lock. */
  ghost predicate Counts(m: State) {
    m.lc % W_FLAG == |Readers(m)| && (m.lc >= W_FLAG <==> Writers(m) != {}) && m.lc < WORD
  }

  /** That holds all along a run if and only if the run has few readers. */
  lemma LowBitsCountReaders(m0: State, sched: seq<Label>)
    requires Init(m0)
    ensures (forall n :: 0 <= n <= |sched| ==> Counts(Run(m0, sched[..n]))) <==> FewReaders(m0, sched)
  {
    hide Exec, Run, Readers, Writers, Init;
    if FewReaders(m0, sched) {
      forall n | 0 <= n <= |sched| ensures Counts(Run(m0, sched[..n])) {
        forall k | 0 <= k <= n ensures |Readers(Run(m0, sched[..n][..k]))| <= W_MASK {
          assert sched[..n][..k] == sched[..k];
        }
        RunKeepsInv(m0, sched[..n]);
      }
    } else {
      var n :| 0 <= n <= |sched| && |Readers(Run(m0, sched[..n]))| > W_MASK;
      assert !Counts(Run(m0, sched[..n]));
    }
  }

  /** The bound is exact: one more reader is counted rightly if and only if the count still fits below the flag. */
  lemma CountHoldsIffItFits(m: State, t: Tid)
    requires t in m.pc && m.pc[t] == ReaderTry(m.lc) && Writers(m) == {} && m.lc == |Readers(m)| < W_FLAG
    ensures var m' := Step(m, t);
      m'.lc % W_FLAG == |Readers(m')| <==> |Readers(m)| < W_MASK
  {
    SetsAfter(m, Step(m, t), t);
    assert t !in Readers(m);
  }

  // ---------------------------------------------------------------- progress

  /** A waiting writer goes in at its next step exactly when no reader is inside. */
  lemma WriterEntersIffNoReaders(m: State, t: Tid)
    requires Inv(m) && t in m.pc && m.pc[t] == WriterWait
    ensures Step(m, t).pc[t] == Writing <==> Readers(m) == {}
  {
    hide Readers, Writers;
    Membership(m, t);
    assert m.lc % W_FLAG == |Readers(m)|;
  }

  /** A writer claims the lock at its next step exactly when no other has. */
  lemma WriterClaimsIffNoWriter(m: State, t: Tid)
    requires Inv(m) && t in m.pc && m.pc[t] == WriterTry
    ensures Step(m, t).pc[t] in {WriterWait, Writing} <==> Writers(m) == {}
  {
    hide Readers, Writers;
    assert m.lc < W_FLAG <==> Writers(m) == {};
  }

  /** While it waits no reader gets in: whoever moves, the readers inside only become fewer. */
  lemma WaitingWriterShutsReadersOut(m: State, l: Label, t: Tid)
    requires Inv(m) && t in m.pc && m.pc[t] == WriterWait
    ensures Readers(Exec(m, l)) <= Readers(m)
    ensures t in Exec(m, l).pc && Exec(m, l).pc[t] in {WriterWait, Writing}
  {
    hide Writers;
    Membership(m, t);
    assert m.lc >= W_FLAG;
    var m' := Exec(m, l);
    forall u | u in Readers(m') ensures u in Readers(m) {
      assert u != l.tid ==> m'.pc[u] == m.pc[u];
    }
  }

  lemma {:induction false} RunFirst(m: State, l: Label, rest: seq<Label>)
    ensures Run(m, [l] + rest) == Run(Exec(m, l), rest)
    decreases |rest|
  {
    hide Exec;
    var all := [l] + rest;
    if rest == [] {
      assert all[..0] == [] && all == [l];
    } else {
      var n := |rest| - 1;
      assert all[..|all| - 1] == [l] + rest[..n];
      RunFirst(m, l, rest[..n]);
    }
  }

  /** Once each reader inside has released, which takes one step of its own, the waiting writer is inside. */
  lemma {:induction false} WriterGetsIn(m: State, t: Tid) returns (sched: seq<Label>)
    requires Inv(m) && t in m.pc && m.pc[t] == WriterWait
    ensures |sched| == |Readers(m)| + 1
    ensures forall i :: 0 <= i < |sched| - 1 ==> sched[i].act == Go && sched[i].tid in Readers(m)
    ensures sched[|Readers(m)|] == Label(t, Go)
    ensures t in Run(m, sched).pc && Run(m, sched).pc[t] == Writing
    decreases |Readers(m)|
  {
    hide Writers, Readers, Run;
    if Readers(m) == {} {
      sched := [Label(t, Go)];
      WriterEntersIffNoReaders(m, t);
      RunFirst(m, Label(t, Go), []);
      RunNothing(Exec(m, Label(t, Go)));
      assert [Label(t, Go)] + [] == [Label(t, Go)];
    } else {
      var u :| u in Readers(m);
      ReaderLeft(m, u);
      var m' := Exec(m, Label(u, Go));
      assert m'.pc[t] == WriterWait;
      var rest := WriterGetsIn(m', t);
      sched := [Label(u, Go)] + rest;
      RunFirst(m, Label(u, Go), rest);
    }
  }

  lemma ReaderLeft(m: State, u: Tid)
    requires Inv(m) && u in Readers(m)
    ensures u in m.pc && m.pc[u] == Reading
    ensures var m' := Exec(m, Label(u, Go)); Inv(m') && Readers(m') == Readers(m) - {u} && m'.pc == m.pc[u := Idle]
  {
    ReaderLeaves(m, u);
    SetsAfter(m, Step(m, u), u);
  }

  lemma RunNothing(m: State)
    ensures Run(m, []) == m
  {
  }

  /** With no writer about, `lock_shared` comes back after two steps counted once more, and `unlock_shared` undoes it. */
  lemma SharedRoundTrip(m: State, t: Tid)
    requires Inv(m) && t in m.pc && m.pc[t] == Idle && Writers(m) == {} && |Readers(m)| < W_MASK
    ensures var inside := Exec(Exec(Exec(m, Label(t, CallLockShared)), Label(t, Go)), Label(t, Go));
      inside == At(m.(lc := m.lc + 1), t, Reading) && Exec(inside, Label(t, Go)) == m
  {
    hide Inv, Readers, Writers;
    assert m.lc < W_FLAG by { WordCounts(m); }
    WordArithmetic(m.lc);
    WordArithmetic(m.lc + 1);
    var asked, loaded := At(m, t, ReaderLoad), At(m, t, ReaderTry(m.lc));
    assert Exec(m, Label(t, CallLockShared)) == asked;
    assert Exec(asked, Label(t, Go)) == loaded;
    assert Exec(loaded, Label(t, Go)) == At(m.(lc := m.lc + 1), t, Reading);
    assert m.pc[t := Reading][t := Idle] == m.pc;
  }

  lemma WordCounts(m: State)
    requires Inv(m) && Writers(m) == {}
    ensures m.lc == |Readers(m)| < W_FLAG
  {
  }

  /** With nobody inside, `lock` comes back after one step, and `unlock` undoes it. */
  lemma ExclusiveRoundTrip(m: State, t: Tid)
    requires Inv(m) && t in m.pc && m.pc[t] == Idle && Writers(m) == {} && Readers(m) == {}
    ensures var inside := Exec(Exec(m, Label(t, CallLock)), Label(t, Go));
      inside == At(m.(lc := W_FLAG), t, Writing) && Exec(inside, Label(t, Go)) == m
  {
    hide Inv, Readers, Writers;
    assert m.lc == 0 by { WordCounts(m); }
    var asked := At(m, t, WriterTry);
    assert Exec(m, Label(t, CallLock)) == asked;
    assert Exec(asked, Label(t, Go)) == At(m.(lc := W_FLAG), t, Writing);
    assert m.pc[t := Writing][t := Idle] == m.pc;
  }

  /** A reader in the middle of its call, whatever it last loaded, is inside after at most three steps once no writer is about. */
  lemma ReaderGetsIn(m: State, t: Tid) returns (sched: seq<Label>)
    requires Inv(m) && t in m.pc && (m.pc[t].ReaderLoad? || m.pc[t].ReaderTry?) && Writers(m) == {} && |Readers(m)| < W_MASK
    ensures |sched| <= 3 && forall i :: 0 <= i < |sched| ==> sched[i] == Label(t, Go)
    ensures Run(m, sched) == At(m.(lc := m.lc + 1), t, Reading)
  {
    hide Inv, Readers, Writers, Run;
    assert m.lc < W_FLAG by { WordCounts(m); }
    if m.pc[t] == ReaderTry(m.lc) {
      sched := [Label(t, Go)];
      WordArithmetic(m.lc);
      RunFirst(m, Label(t, Go), []);
      RunNothing(Exec(m, Label(t, Go)));
      assert [Label(t, Go)] + [] == [Label(t, Go)];
    } else if m.pc[t].ReaderTry? && m.pc[t].old_ >= W_FLAG {
      var rest := LoadedReaderGetsIn(m, At(m, t, ReaderLoad), t);
      sched := [Label(t, Go)] + rest;
      RunFirst(m, Label(t, Go), rest);
    } else {
      sched := LoadedReaderGetsIn(m, m, t);
    }
  }

  /** The same from a load, or from a failed exchange, which loads. */
  lemma LoadedReaderGetsIn(m0: State, m: State, t: Tid) returns (sched: seq<Label>)
    requires t in m0.pc && t in m.pc && m == At(m0, t, m.pc[t]) && m.lc < W_FLAG
    requires m.pc[t].ReaderLoad? || (m.pc[t].ReaderTry? && m.pc[t].old_ < W_FLAG && m.pc[t].old_ != m.lc)
    ensures |sched| == 2 && forall i :: 0 <= i < |sched| ==> sched[i] == Label(t, Go)
    ensures Run(m, sched) == At(m0.(lc := m0.lc + 1), t, Reading)
  {
    hide Run;
    var l := Label(t, Go);
    sched := [l, l];
    var loaded := At(m0, t, ReaderTry(m.lc));
    WordArithmetic(m.lc);
    assert Exec(m, l) == loaded;
    assert Exec(loaded, l) == At(m0.(lc := m0.lc + 1), t, Reading);
    RunFirst(m, l, [l]);
    RunFirst(loaded, l, []);
    RunNothing(Exec(loaded, l));
    assert [l] + [l] == [l, l] && [l] + [] == [l];
  }
}
