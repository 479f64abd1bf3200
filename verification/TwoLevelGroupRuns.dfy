/**
  The two-level dynamic group seen from its schedule: which data and which control keys
  count is what the schedule says, and every run can be brought to rest by deliveries
  alone, after which a round that all mappers finished has handed out its data once.
 */
module TwoLevelGroupRuns {
  import opened Triggers
  import opened TwoLevelGroup

  // ---------------------------------------------------------------- what a schedule sends

  /** The mappers that a schedule finishes. */
  function FinishedBy(ctrl: set<Key>, sched: seq<Label>): set<Key> {
    if sched == [] then {}
    else
      var l := sched[|sched| - 1];
      FinishedBy(ctrl, sched[..|sched| - 1]) + if l.Finish? && l.mapper in ctrl then {l.mapper} else {}
  }

  /** The data keys that a schedule sends, each with the worker of its mapper; a finished mapper sends no more. */
  function SentBy(ctrl: set<Key>, loc: map<Key, WorkerId>, sched: seq<Label>): set<(WorkerId, Key)>
    requires loc.Keys == ctrl
  {
    if sched == [] then {}
    else
      var init, l := sched[..|sched| - 1], sched[|sched| - 1];
      SentBy(ctrl, loc, init) +
      if l.Send? && l.mapper in ctrl && l.mapper !in FinishedBy(ctrl, init) && Group(l.key) != CONTROL_PREFIX
      then {(loc[l.mapper], l.key)} else {}
  }

  lemma {:induction false} RunAppend(s: State, a: seq<Label>, b: seq<Label>)
    requires Inv(s)
    ensures Run(s, a + b) == Run(Run(s, a), b)
    decreases |a|
  {
    hide Inv, Exec;
    if a == [] {
      assert a + b == b;
    } else {
      ExecKeepsInv(s, a[0]);
      InvHasDomains(s);
      RunAppend(Exec(s, a[0]), a[1..], b);
      assert (a + b)[1..] == a[1..] + b;
    }
  }

  lemma InvHasDomains(s: State)
    requires Inv(s)
    ensures Domains(s)
  {
  }

  lemma RunOne(s: State, l: Label)
    requires Inv(s)
    ensures Domains(s) && Inv(Exec(s, l)) && Run(s, [l]) == Exec(s, l)
  {
    hide Inv, Exec;
    InvHasDomains(s);
    ExecKeepsInv(s, l);
    RunNext(s, l, []);
    RunNothing(Exec(s, l));
    assert [l] + [] == [l];
  }

  /** The history is the schedule's: the mappers it finishes, and the data keys it sends before that. */
  lemma {:induction false} HistoryIsScheduled(s0: State, sched: seq<Label>)
    requires Init(s0)
    ensures var s := RunFromStart(s0, sched);
      && s.ctrl == s0.ctrl && s.loc == s0.loc && s0.loc.Keys == s0.ctrl
      && s.finished == FinishedBy(s0.ctrl, sched) && s.sent == SentBy(s0.ctrl, s0.loc, sched)
    decreases |sched|
  {
    hide Inv, Run, Exec;
    InitHasInv(s0);
    if sched == [] {
      RunNothing(s0);
    } else {
      var init, l := sched[..|sched| - 1], sched[|sched| - 1];
      HistoryIsScheduled(s0, init);
      RunAppend(s0, init, [l]);
      RunOne(Run(s0, init), l);
      assert init + [l] == sched;
      OneLabel(Run(s0, init), l);
    }
  }

  lemma OneLabel(s: State, l: Label)
    requires Domains(s)
    ensures var s' := Exec(s, l);
      && s'.ctrl == s.ctrl && s'.loc == s.loc
      && s'.finished == s.finished + (if l.Finish? && l.mapper in s.ctrl then {l.mapper} else {})
      && s'.sent == s.sent +
           if l.Send? && l.mapper in s.ctrl && l.mapper !in s.finished && Group(l.key) != CONTROL_PREFIX
           then {(s.loc[l.mapper], l.key)} else {}
  {
    hide GroupNext, Group;
  }

  // ---------------------------------------------------------------- coming to rest

  predicate OnlyArrivals(sched: seq<Label>) {
    forall i :: 0 <= i < |sched| ==> sched[i].Deliver? || sched[i].ClearArrives?
  }

  /** What arrivals leave alone. */
  ghost predicate SameObjects(s: State, r: State) {
    r.ctrl == s.ctrl && r.loc == s.loc && r.finished == s.finished && r.sent == s.sent
  }

  lemma SameItself(s: State)
    ensures SameObjects(s, s)
  {
  }

  lemma SameThrough(s: State, m: State, r: State)
    requires SameObjects(s, m) && SameObjects(m, r)
    ensures SameObjects(s, r)
  {
  }

  lemma ArrivalsJoin(a: seq<Label>, b: seq<Label>)
    requires OnlyArrivals(a) && OnlyArrivals(b)
    ensures OnlyArrivals(a + b)
  {
  }

  lemma DeliverTakesOldest(s: State, w: WorkerId)
    requires Domains(s) && w in s.link && s.link[w] != []
    ensures var s' := Exec(s, Deliver(w)); SameObjects(s, s') && s'.link == s.link[w := s.link[w][1..]]
  {
    hide GroupNext;
  }

  lemma ClearTakesOne(s: State, w: WorkerId)
    requires Domains(s) && w in s.clears && s.clears[w] > 0
    ensures var s' := Exec(s, ClearArrives(w));
      SameObjects(s, s') && s'.link == s.link && s'.clears == s.clears[w := s.clears[w] - 1]
      && w in s'.worker && s'.worker[w] == NO_GROUPS
  {
  }

  /** Delivering all that waits on one link. */
  lemma {:induction false} DrainLink(s: State, w: WorkerId) returns (sched: seq<Label>)
    requires Inv(s) && w in s.link
    ensures OnlyArrivals(sched) && |sched| == |s.link[w]|
    ensures SameObjects(s, Run(s, sched)) && Run(s, sched).link == s.link[w := []]
    decreases |s.link[w]|
  {
    hide Inv, Exec, Run, SameObjects;
    if s.link[w] == [] {
      sched := [];
      RunNothing(s);
      SameItself(s);
      assert s.link == s.link[w := []];
    } else {
      RunOne(s, Deliver(w));
      DeliverTakesOldest(s, w);
      var s' := Exec(s, Deliver(w));
      assert s'.link[w := []] == s.link[w := []];
      var rest := DrainLink(s', w);
      sched := [Deliver(w)] + rest;
      RunAppend(s, [Deliver(w)], rest);
      SameThrough(s, s', Run(s', rest));
    }
  }

  ghost predicate Empty(s: State, ws: set<WorkerId>) {
    forall w :: w in ws ==> w in s.link && s.link[w] == []
  }

  lemma OneMoreEmpty(s: State, s': State, done: set<WorkerId>, w: WorkerId)
    requires Empty(s, done) && w in s.link && s'.link == s.link[w := []]
    ensures Empty(s', done + {w}) && s'.link.Keys == s.link.Keys
  {
  }

  lemma {:induction false} DrainLinks(s: State, done: set<WorkerId>, todo: set<WorkerId>) returns (sched: seq<Label>)
    requires Inv(s) && Empty(s, done) && done + todo == s.link.Keys
    ensures OnlyArrivals(sched) && SameObjects(s, Run(s, sched))
    ensures Run(s, sched).link.Keys == s.link.Keys && Empty(Run(s, sched), s.link.Keys)
    decreases |todo|
  {
    hide Inv, Exec, Run, Empty, SameObjects, OnlyArrivals;
    ArrivalsNone();
    if todo == {} {
      sched := [];
      RunNothing(s);
      SameItself(s);
      assert done == done + todo;
    } else {
      var w :| w in todo;
      var first := DrainLink(s, w);
      var s' := Run(s, first);
      OneMoreEmpty(s, s', done, w);
      var rest := DrainLinks(s', done + {w}, todo - {w});
      sched := first + rest;
      ArrivalsJoin(first, rest);
      RunAppend(s, first, rest);
      SameThrough(s, s', Run(s', rest));
    }
  }

  lemma ArrivalsNone()
    ensures OnlyArrivals([])
  {
  }

  /** Obeying all orders to forget that are on their way to one worker. */
  lemma {:induction false} DrainClears(s: State, w: WorkerId) returns (sched: seq<Label>)
    requires Inv(s) && w in s.clears
    ensures OnlyArrivals(sched) && SameObjects(s, Run(s, sched))
    ensures Run(s, sched).link == s.link && Run(s, sched).clears == s.clears[w := 0]
    decreases s.clears[w]
  {
    hide Inv, Exec, Run, SameObjects;
    if s.clears[w] == 0 {
      sched := [];
      RunNothing(s);
      SameItself(s);
      assert s.clears == s.clears[w := 0];
    } else {
      var l := ClearArrives(w);
      RunOne(s, l);
      ClearTakesOne(s, w);
      var s' := Exec(s, l);
      assert s'.clears[w := 0] == s.clears[w := 0];
      var rest := DrainClears(s', w);
      sched := [l] + rest;
      RunAppend(s, [l], rest);
      SameThrough(s, s', Run(s', rest));
    }
  }

  ghost predicate Obeyed(s: State, ws: set<WorkerId>) {
    forall w :: w in ws ==> w in s.clears && s.clears[w] == 0
  }

  lemma OneMoreObeyed(s: State, s': State, done: set<WorkerId>, w: WorkerId)
    requires Obeyed(s, done) && w in s.clears && s'.clears == s.clears[w := 0]
    ensures Obeyed(s', done + {w}) && s'.clears.Keys == s.clears.Keys
  {
  }

  lemma {:induction false} DrainAllClears(s: State, done: set<WorkerId>, todo: set<WorkerId>) returns (sched: seq<Label>)
    requires Inv(s) && Obeyed(s, done) && done + todo == s.clears.Keys
    ensures OnlyArrivals(sched) && SameObjects(s, Run(s, sched))
    ensures Run(s, sched).link == s.link && Run(s, sched).clears.Keys == s.clears.Keys && Obeyed(Run(s, sched), s.clears.Keys)
    decreases |todo|
  {
    hide Inv, Exec, Run, Obeyed, SameObjects, OnlyArrivals;
    ArrivalsNone();
    if todo == {} {
      sched := [];
      RunNothing(s);
      SameItself(s);
      assert done == done + todo;
    } else {
      var w :| w in todo;
      var first := DrainClears(s, w);
      var s' := Run(s, first);
      OneMoreObeyed(s, s', done, w);
      var rest := DrainAllClears(s', done + {w}, todo - {w});
      sched := first + rest;
      ArrivalsJoin(first, rest);
      RunAppend(s, first, rest);
      SameThrough(s, s', Run(s', rest));
    }
  }

  /** From any reachable state, deliveries alone lead to one with nothing under way. */
  lemma Settles(s: State) returns (sched: seq<Label>)
    requires Inv(s)
    ensures OnlyArrivals(sched) && SameObjects(s, Run(s, sched))
    ensures var r := Run(s, sched);
      (forall w :: w in r.link ==> r.link[w] == []) && forall w :: w in r.clears ==> r.clears[w] == 0
  {
    hide Inv, Exec, Run, SameObjects, OnlyArrivals;
    var first := DrainLinks(s, {}, s.link.Keys);
    var s' := Run(s, first);
    var rest := DrainAllClears(s', {}, s'.clears.Keys);
    sched := first + rest;
    ArrivalsJoin(first, rest);
    RunAppend(s, first, rest);
    SameThrough(s, s', Run(s', rest));
  }

  /**
    Whatever has happened, if the schedule finishes every mapper then deliveries alone lead to a state in which exactly
    one replica has handed out exactly the data keys the schedule sent, group by group, or none has if it sent none;
    and the replicas are as new, unless there was no data and the mappers were on several workers.
   */
  lemma EveryRoundFires(s0: State, sched: seq<Label>) returns (more: seq<Label>)
    requires Init(s0) && FinishedBy(s0.ctrl, sched) == s0.ctrl
    ensures s0.loc.Keys == s0.ctrl && OnlyArrivals(more)
    ensures var s, data := RunFromStart(s0, sched + more), SentBy(s0.ctrl, s0.loc, sched);
      && (data != {} ==> |s.firings| == 1 && s.firings[0].groups == GroupBy(Keys(data)))
      && (data == {} ==> s.firings == [])
      && s.coord == NO_GROUPS
      && ((forall w :: w in s.worker ==> s.worker[w] == NO_GROUPS) <==> data != {} || exists w :: w in s.worker && OneHost(s, w))
  {
    hide Inv, Exec, Run, FinishedBy, SentBy, OnlyArrivals, Keys, GroupBy, OneHost;
    InitHasInv(s0);
    HistoryIsScheduled(s0, sched);
    more := Settles(RunFromStart(s0, sched));
    RunAppend(s0, sched, more);
    BarrierFiresOnce(s0, sched + more);
    RoundLeavesReplicasClean(s0, sched + more);
  }
}
