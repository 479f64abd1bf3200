/**
  The two-level by-set trigger seen from its schedule: what was produced is what the
  schedule says, and every run can be brought to rest by deliveries alone, after which
  each session whose keys were all produced has activated exactly once and is forgotten.
 */
module TwoLevelBySetRuns {
  import opened Options
  import opened Triggers
  import opened TwoLevelBySet

  // ---------------------------------------------------------------- what a schedule produces

  /** The worker at which a schedule first produces the object. */
  function Producer(workers: set<WorkerId>, sched: seq<Label>, session: Session, key: Key): Option<WorkerId> {
    if sched == [] then None
    else
      var earlier, l := Producer(workers, sched[..|sched| - 1], session, key), sched[|sched| - 1];
      if earlier.Some? then earlier
      else if l.Produce? && l.session == session && l.key == key && l.w in workers then Some(l.w) else None
  }

  lemma {:induction false} RunAppend(s: State, a: seq<Label>, b: seq<Label>)
    requires Inv(s)
    ensures Run(s, a + b) == Run(Run(s, a), b)
    decreases |a|
  {
    hide Pending, LinkOk, Replicas, ActivationsOk, Exec;
    if a == [] {
      assert a + b == b;
    } else {
      ExecKeepsInv(s, a[0]);
      RunAppend(Exec(s, a[0]), a[1..], b);
      assert (a + b)[1..] == a[1..] + b;
    }
  }

  lemma RunOne(s: State, l: Label)
    requires Inv(s)
    ensures Inv(Exec(s, l)) && Run(s, [l]) == Exec(s, l)
  {
    hide Inv, Exec;
    ExecKeepsInv(s, l);
    assert [l][1..] == [];
  }

  /** An object of the key set counts as produced exactly if the schedule produces it, and where it first does. */
  lemma {:induction false} ProducedIsScheduled(s0: State, sched: seq<Label>, session: Session, key: Key)
    requires Init(s0) && key in s0.keys
    ensures var s := RunFromStart(s0, sched);
      && s.keys == s0.keys && s.worker.Keys == s0.worker.Keys
      && Producer(s0.worker.Keys, sched, session, key) ==
           if (session, key) in s.produced then Some(s.produced[(session, key)]) else None
    decreases |sched|
  {
    hide Pending, LinkOk, Replicas, ActivationsOk, Run;
    InitHasInv(s0);
    if sched == [] {
      RunEmpty(s0);
    } else {
      var init, l := sched[..|sched| - 1], sched[|sched| - 1];
      ProducedIsScheduled(s0, init, session, key);
      RunAppend(s0, init, [l]);
      RunOne(Run(s0, init), l);
      hide Exec;
      assert init + [l] == sched;
      OneLabel(Run(s0, init), l, session, key);
    }
  }

  lemma RunEmpty(s: State)
    requires Inv(s)
    ensures Run(s, []) == s
  {
  }

  lemma OneLabel(s: State, l: Label, session: Session, key: Key)
    requires Domains(s) && key in s.keys
    ensures var s' := Exec(s, l);
      && s'.keys == s.keys && s'.worker.Keys == s.worker.Keys
      && ((session, key) in s.produced ==> (session, key) in s'.produced && s'.produced[(session, key)] == s.produced[(session, key)])
      && ((session, key) !in s.produced ==>
           if l.Produce? && l.session == session && l.key == key && l.w in s.worker.Keys
           then (session, key) in s'.produced && s'.produced[(session, key)] == l.w
           else (session, key) !in s'.produced)
  {
    hide BySetNext;
    if l.Deliver? || l.ClearArrives? { NoObjects(s, l); }
  }

  lemma NoObjects(s: State, l: Label)
    requires Domains(s) && !l.Produce?
    ensures SameObjects(s, Exec(s, l)) && Exec(s, l).worker.Keys == s.worker.Keys
  {
    hide BySetNext;
  }

  // ---------------------------------------------------------------- coming to rest

  predicate OnlyArrivals(sched: seq<Label>) {
    forall i :: 0 <= i < |sched| ==> !sched[i].Produce?
  }

  lemma NoLabels()
    ensures OnlyArrivals([])
  {
  }

  lemma OneArrival(l: Label, rest: seq<Label>)
    requires OnlyArrivals(rest) && !l.Produce?
    ensures OnlyArrivals([l] + rest)
  {
  }

  lemma ArrivalsJoin(a: seq<Label>, b: seq<Label>)
    requires OnlyArrivals(a) && OnlyArrivals(b)
    ensures OnlyArrivals(a + b)
  {
  }

  lemma DeliverTakesOldest(s: State, w: WorkerId)
    requires Inv(s) && w in s.link && s.link[w] != []
    ensures var s' := Exec(s, Deliver(w));
      s'.link == s.link[w := s.link[w][1..]] && SameObjects(s, s') && s'.worker == s.worker
  {
    hide Pending, LinkOk, Replicas, ActivationsOk, BySetNext;
  }

  lemma ClearTakesOne(s: State, w: WorkerId, session: Session)
    requires Inv(s) && w in s.clears && session in s.clears[w]
    ensures var s' := Exec(s, ClearArrives(w, session));
      && s'.link == s.link && SameObjects(s, s')
      && w in s'.worker && session !in s'.worker[w] && s'.clears == s.clears[w := s.clears[w] - multiset{session}]
  {
    hide Pending, LinkOk, Replicas, ActivationsOk;
  }

  /** What the arrivals of a schedule leave alone. */
  ghost predicate SameObjects(s: State, r: State) {
    r.keys == s.keys && r.produced == s.produced
  }

  /** Delivering all that waits on one link. */
  lemma {:induction false} DrainLink(s: State, w: WorkerId) returns (sched: seq<Label>)
    requires Inv(s) && w in s.link
    ensures OnlyArrivals(sched) && |sched| == |s.link[w]|
    ensures SameObjects(s, Run(s, sched)) && Run(s, sched).link == s.link[w := []]
    decreases |s.link[w]|
  {
    hide Pending, LinkOk, Replicas, ActivationsOk, Exec, Run, SameObjects, OnlyArrivals;
    if s.link[w] == [] {
      sched := [];
      RunEmpty(s);
      SameItself(s);
      NoLabels();
      assert s.link == s.link[w := []];
    } else {
      DeliverTakesOldest(s, w);
      var s' := Exec(s, Deliver(w));
      assert s'.link[w := []] == s.link[w := []];
      RunOne(s, Deliver(w));
      var rest := DrainLink(s', w);
      sched := [Deliver(w)] + rest;
      OneArrival(Deliver(w), rest);
      RunAppend(s, [Deliver(w)], rest);
      SameThrough(s, s', Run(s', rest));
    }
  }

  ghost predicate Empty(s: State, ws: set<WorkerId>) {
    forall w :: w in ws ==> w in s.link && s.link[w] == []
  }

  lemma OneMoreEmpty(s: State, s': State, done: set<WorkerId>, w: WorkerId)
    requires Empty(s, done) && w in s.link && s'.link == s.link[w := []]
    ensures Empty(s', done + {w}) && s'.link.Keys == s.link.Keys
  {
  }

  lemma {:induction false} DrainLinks(s: State, done: set<WorkerId>, todo: set<WorkerId>) returns (sched: seq<Label>)
    requires Inv(s) && Empty(s, done) && done + todo == s.link.Keys
    ensures OnlyArrivals(sched) && SameObjects(s, Run(s, sched))
    ensures Run(s, sched).link.Keys == s.link.Keys && Empty(Run(s, sched), s.link.Keys)
    decreases |todo|
  {
    hide Inv, Exec, Run, Obeyed, Empty, SameObjects, OnlyArrivals;
    NoLabels();
    if todo == {} {
      sched := [];
      RunEmpty(s);
      SameItself(s);
      assert done == done + todo;
    } else {
      var w :| w in todo;
      var first := DrainLink(s, w);
      var s' := Run(s, first);
      OneMoreEmpty(s, s', done, w);
      var rest := DrainLinks(s', done + {w}, todo - {w});
      sched := first + rest;
      ArrivalsJoin(first, rest);
      RunAppend(s, first, rest);
      SameThrough(s, s', Run(s', rest));
    }
  }

  lemma OneClearLess(s: State, s': State, w: WorkerId, session: Session)
    requires w in s.clears && session in s.clears[w] && s'.clears == s.clears[w := s.clears[w] - multiset{session}]
    ensures w in s'.clears && |s'.clears[w]| < |s.clears[w]| && s'.clears[w := multiset{}] == s.clears[w := multiset{}]
  {
  }

  /** Obeying all orders to forget that are on their way to one worker. */
  lemma {:induction false} DrainClears(s: State, w: WorkerId) returns (sched: seq<Label>)
    requires Inv(s) && w in s.clears
    ensures OnlyArrivals(sched) && SameObjects(s, Run(s, sched))
    ensures Run(s, sched).link == s.link && Run(s, sched).clears == s.clears[w := multiset{}]
    decreases |s.clears[w]|
  {
    hide Pending, LinkOk, Replicas, ActivationsOk, Exec, Run, SameObjects, OnlyArrivals;
    if s.clears[w] == multiset{} {
      sched := [];
      RunEmpty(s);
      SameItself(s);
      NoLabels();
      assert s.clears == s.clears[w := multiset{}];
    } else {
      var session :| session in s.clears[w];
      var l := ClearArrives(w, session);
      ClearTakesOne(s, w, session);
      var s' := Exec(s, l);
      OneClearLess(s, s', w, session);
      RunOne(s, l);
      var rest := DrainClears(s', w);
      sched := [l] + rest;
      OneArrival(l, rest);
      RunAppend(s, [l], rest);
      SameThrough(s, s', Run(s', rest));
    }
  }

  ghost predicate Obeyed(s: State, ws: set<WorkerId>) {
    forall w :: w in ws ==> w in s.clears && s.clears[w] == multiset{}
  }

  lemma OneMoreObeyed(s: State, s': State, done: set<WorkerId>, w: WorkerId)
    requires Obeyed(s, done) && w in s.clears && s'.clears == s.clears[w := multiset{}]
    ensures Obeyed(s', done + {w}) && s'.clears.Keys == s.clears.Keys
  {
  }

  lemma SameItself(s: State)
    ensures SameObjects(s, s)
  {
  }

  /** Nothing else of interest changes between the two, and then between the second and the third. */
  lemma SameThrough(s: State, m: State, r: State)
    requires SameObjects(s, m) && SameObjects(m, r)
    ensures SameObjects(s, r)
  {
  }

  lemma {:induction false} DrainAllClears(s: State, done: set<WorkerId>, todo: set<WorkerId>) returns (sched: seq<Label>)
    requires Inv(s) && Obeyed(s, done) && done + todo == s.clears.Keys
    ensures OnlyArrivals(sched) && SameObjects(s, Run(s, sched))
    ensures Run(s, sched).link == s.link && Run(s, sched).clears.Keys == s.clears.Keys && Obeyed(Run(s, sched), s.clears.Keys)
    decreases |todo|
  {
    hide Inv, Exec, Run, Obeyed, Empty, SameObjects, OnlyArrivals;
    NoLabels();
    if todo == {} {
      sched := [];
      RunEmpty(s);
      SameItself(s);
      assert done == done + todo;
    } else {
      var w :| w in todo;
      var first := DrainClears(s, w);
      var s' := Run(s, first);
      OneMoreObeyed(s, s', done, w);
      var rest := DrainAllClears(s', done + {w}, todo - {w});
      sched := first + rest;
      ArrivalsJoin(first, rest);
      RunAppend(s, first, rest);
      SameThrough(s, s', Run(s', rest));
    }
  }

  /** From any reachable state, deliveries alone lead to one with nothing under way. */
  lemma Settles(s: State) returns (sched: seq<Label>)
    requires Inv(s)
    ensures OnlyArrivals(sched) && SameObjects(s, Run(s, sched))
    ensures AllDelivered(Run(s, sched)) && forall w :: w in Run(s, sched).clears ==> Run(s, sched).clears[w] == multiset{}
  {
    hide Inv, Exec, Run;
    var first := DrainLinks(s, {}, s.link.Keys);
    var s' := Run(s, first);
    var rest := DrainAllClears(s', {}, s'.clears.Keys);
    sched := first + rest;
    RunAppend(s, first, rest);
  }

  /**
    Whatever has happened, if the schedule produces every key of a session somewhere then deliveries alone lead to a
    state in which the session has activated, once among all replicas, and no replica remembers it.
   */
  lemma EverySessionActivates(s0: State, sched: seq<Label>, session: Session) returns (more: seq<Label>)
    requires Init(s0)
    requires forall k :: k in s0.keys ==> Producer(s0.worker.Keys, sched, session, k).Some?
    ensures OnlyArrivals(more)
    ensures var s := RunFromStart(s0, sched + more);
      && Activated(s, session)
      && (forall i, j :: 0 <= i < j < |s.activations| ==> s.activations[i].session != s.activations[j].session)
      && session !in s.coord && forall w :: w in s.worker ==> session !in s.worker[w]
  {
    hide Inv, Exec, Run, Producer;
    InitHasInv(s0);
    var then_ := RunFromStart(s0, sched);
    more := Settles(then_);
    RunAppend(s0, sched, more);
    var s := RunFromStart(s0, sched + more);
    forall k | k in s.keys ensures (session, k) in s.produced {
      SameKeys(s0, sched);
      ProducedIsScheduled(s0, sched, session, k);
    }
    ExactlyOneActivation(s0, sched + more, session);
    forall w | w in s.worker ensures session !in s.worker[w] {
      KnownWorkers(s);
      assert session !in s.clears[w];
    }
  }

  lemma KnownWorkers(s: State)
    requires Inv(s)
    ensures s.clears.Keys == s.worker.Keys
  {
  }

  lemma {:induction false} SameKeys(s0: State, sched: seq<Label>)
    requires Init(s0)
    ensures RunFromStart(s0, sched).keys == s0.keys
  {
    InitHasInv(s0);
    hide Inv;
    KeysStay(s0, sched);
  }

  lemma {:induction false} KeysStay(s: State, sched: seq<Label>)
    requires Inv(s)
    ensures Run(s, sched).keys == s.keys
    decreases |sched|
  {
    hide Pending, LinkOk, Replicas, ActivationsOk, BySetNext;
    if sched != [] {
      ExecKeepsInv(s, sched[0]);
      KeysStay(Exec(s, sched[0]), sched[1..]);
    }
  }
}
