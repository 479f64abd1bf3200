/**
  A dynamic-group trigger that lives on every worker and on the coordinator, for one
  round of mappers. A mapper sends data keys from one worker, then its own control
  key; the control keys of all mappers form the control group. The replica that sees
  the last of them hands out the data keys group by group.

  Links to the coordinator are first in first out; orders to forget may be delayed at
  will. A mapper is named by its control key.
 */
module TwoLevelGroup {
  import opened Triggers

  type WorkerId = nat

  /** `from` is history: the mapper that sent the object. */
  datatype Notif = Notif(key: Key, active: bool, from: Key)
  datatype Site = AtWorker(id: WorkerId) | AtCoordinator
  datatype Firing = Firing(site: Site, groups: Groups)

  /**
    History: `finished` the mappers that sent their control key, `acked` those whose control key was
    delivered, `sent` and `got` the data keys sent from each worker and delivered.
   */
  datatype State = State(
    ctrl: set<Key>,
    loc: map<Key, WorkerId>,
    worker: map<WorkerId, GroupState>,
    coord: GroupState,
    link: map<WorkerId, seq<Notif>>,
    nodes: set<WorkerId>,
    clears: map<WorkerId, nat>,
    finished: set<Key>,
    acked: set<Key>,
    sent: set<(WorkerId, Key)>,
    got: set<(WorkerId, Key)>,
    firings: seq<Firing>)

  datatype Label = Send(mapper: Key, key: Key) | Finish(mapper: Key) | Deliver(w: WorkerId) | ClearArrives(w: WorkerId)

  ghost predicate Domains(s: State) {
    && s.ctrl != {} && s.loc.Keys == s.ctrl
    && (forall c :: c in s.ctrl ==> Group(c) == CONTROL_PREFIX && s.loc[c] in s.worker)
    && s.link.Keys == s.worker.Keys && s.clears.Keys == s.worker.Keys
  }

  ghost predicate Init(s: State) {
    && Domains(s)
    && s.coord == NO_GROUPS && s.nodes == {} && s.finished == {} && s.acked == {} && s.sent == {} && s.got == {}
    && s.firings == []
    && forall w :: w in s.worker ==> s.worker[w] == NO_GROUPS && s.link[w] == [] && s.clears[w] == 0
  }

  /** The worker of mapper `c` offers the object to its replica and notifies the coordinator. */
  function Offer(s: State, c: Key, key: Key): State
    requires Domains(s) && c in s.ctrl
  {
    var w := s.loc[c];
    var (g, out) := GroupNext(s.ctrl, s.worker[w], key);
    s.(worker := s.worker[w := g],
       link := s.link[w := s.link[w] + [Notif(key, out != map[], c)]],
       firings := if out != map[] then s.firings + [Firing(AtWorker(w), out)] else s.firings)
  }

  function DoSend(s: State, c: Key, key: Key): State
    requires Domains(s) && c in s.ctrl
  {
    Offer(s, c, key).(sent := s.sent + {(s.loc[c], key)})
  }

  function DoFinish(s: State, c: Key): State
    requires Domains(s) && c in s.ctrl
  {
    Offer(s, c, c).(finished := s.finished + {c})
  }

  function DoDeliver(s: State, w: WorkerId): State
    requires w in s.link && s.link[w] != []
  {
    var n := s.link[w][0];
    var (g, out) := GroupNext(s.ctrl, s.coord, n.key);
    var nodes := s.nodes + {w};
    var s1 := s.(coord := g, nodes := nodes, link := s.link[w := s.link[w][1..]],
                 acked := if n.key == n.from then s.acked + {n.key} else s.acked,
                 got := if n.key == n.from then s.got else s.got + {(w, n.key)});
    if out != map[] && !n.active
    then s1.(firings := s.firings + [Firing(AtCoordinator, out)],
             clears := map v | v in s.clears :: if v in nodes then s.clears[v] + 1 else s.clears[v])
    else s1
  }

  function DoClear(s: State, w: WorkerId): State
    requires w in s.clears && s.clears[w] > 0
  {
    s.(worker := s.worker[w := NO_GROUPS], clears := s.clears[w := s.clears[w] - 1])
  }

  function Exec(s: State, l: Label): State
    requires Domains(s)
  {
    match l
    case Send(c, key) => if c in s.ctrl - s.finished && Group(key) != CONTROL_PREFIX then DoSend(s, c, key) else s
    case Finish(c) => if c in s.ctrl - s.finished then DoFinish(s, c) else s
    case Deliver(w) => if w in s.link && s.link[w] != [] then DoDeliver(s, w) else s
    case ClearArrives(w) => if w in s.clears && s.clears[w] > 0 then DoClear(s, w) else s
  }

  // ---------------------------------------------------------------- invariant

  /** The mappers of a worker that have sent their control key. */
  function Fin(s: State, w: WorkerId): set<Key> {
    set c | c in s.finished && c in s.loc && s.loc[c] == w
  }

  function DataAt(s: State, w: WorkerId): set<Key> {
    set x | x in s.sent && x.0 == w :: x.1
  }

  function Keys(xs: set<(WorkerId, Key)>): set<Key> {
    set x | x in xs :: x.1
  }

  ghost predicate History(s: State) {
    && s.acked <= s.finished <= s.ctrl && s.got <= s.sent
    && (forall x :: x in s.sent ==> Group(x.1) != CONTROL_PREFIX && Hosts(s, x.0))
    && (forall x :: x in s.got ==> x.0 in s.nodes)
    && (forall c :: c in s.acked ==> c in s.loc && s.loc[c] in s.nodes)
  }

  ghost predicate Hosts(s: State, w: WorkerId) {
    exists c :: c in s.ctrl && c in s.loc && s.loc[c] == w
  }

  ghost predicate NotifOk(s: State, w: WorkerId, i: nat)
    requires w in s.link && i < |s.link[w]|
  {
    var q := s.link[w];
    && q[i].from in s.ctrl && q[i].from in s.loc && s.loc[q[i].from] == w && q[i].from !in s.acked
    && (if q[i].key == q[i].from then q[i].from in s.finished else Group(q[i].key) != CONTROL_PREFIX && (w, q[i].key) in s.sent)
    && (q[i].active <==> Fin(s, w) == s.ctrl && i == |q| - 1 && DataAt(s, w) != {})
  }

  /** The control key is the last a mapper sends. */
  ghost predicate ControlLast(q: seq<Notif>) {
    forall i, j :: 0 <= i < j < |q| && q[i].key == q[i].from ==> q[j].from != q[i].from
  }

  ghost predicate LinkOk(s: State, w: WorkerId)
    requires w in s.link
  {
    var q := s.link[w];
    && ControlLast(q)
    && (forall i :: 0 <= i < |q| ==> NotifOk(s, w, i))
    && (Fin(s, w) == s.ctrl && q != [] ==> q[|q| - 1].key == q[|q| - 1].from)
  }

  ghost predicate Queued(q: seq<Notif>, key: Key) {
    exists i :: 0 <= i < |q| && q[i].key == key
  }

  ghost predicate Pending(s: State) {
    && (forall x :: x in s.sent && x !in s.got ==> x.0 in s.link && Queued(s.link[x.0], x.1))
    && (forall c :: c in s.finished && c !in s.acked ==> c in s.loc && s.loc[c] in s.link && Queued(s.link[s.loc[c]], c))
  }

  ghost predicate WorkerOk(s: State, w: WorkerId)
    requires w in s.worker && w in s.clears
  {
    if s.acked == s.ctrl && s.sent != {} then s.worker[w] == NO_GROUPS || s.clears[w] > 0
    else
      && s.clears[w] == 0
      && s.worker[w] == if Fin(s, w) == s.ctrl then NO_GROUPS else GroupState(GroupBy(DataAt(s, w)), Fin(s, w))
  }

  ghost predicate CoordOk(s: State) {
    s.coord == if s.acked == s.ctrl then NO_GROUPS else GroupState(GroupBy(Keys(s.got)), s.acked)
  }

  /** Some replica has seen every control key. */
  ghost predicate BarrierPassed(s: State) {
    s.acked == s.ctrl || exists w :: w in s.worker && Fin(s, w) == s.ctrl
  }

  ghost predicate FiringsOk(s: State) {
    s.firings == [] ||
    (|s.firings| == 1 && s.sent != {} && BarrierPassed(s) && s.firings[0].groups == GroupBy(Keys(s.sent)))
  }

  ghost predicate FiredWhenDue(s: State) {
    s.sent != {} && BarrierPassed(s) ==> s.firings != []
  }

  ghost predicate Inv(s: State) {
    && Domains(s) && History(s) && Pending(s) && CoordOk(s) && FiringsOk(s) && FiredWhenDue(s)
    && (forall w :: w in s.link ==> LinkOk(s, w))
    && (forall w :: w in s.worker ==> w in s.clears && WorkerOk(s, w))
  }

  // ---------------------------------------------------------------- a mapper sends

  /** While a mapper has not finished, no replica can have seen all control keys. */
  lemma Unfinished(s: State, c: Key)
    requires Inv(s) && c in s.ctrl - s.finished
    ensures s.acked != s.ctrl && !BarrierPassed(s) && s.firings == [] && c !in s.acked
    ensures forall w :: Fin(s, w) != s.ctrl && c !in Fin(s, w)
    ensures s.loc[c] in s.worker && s.loc[c] in s.link
    ensures s.worker[s.loc[c]] == GroupState(GroupBy(DataAt(s, s.loc[c])), Fin(s, s.loc[c]))
    ensures forall w :: w in s.clears ==> s.clears[w] == 0
  {
    forall w ensures c !in Fin(s, w) {}
    assert WorkerOk(s, s.loc[c]);
    forall w | w in s.clears ensures s.clears[w] == 0 { assert WorkerOk(s, w); }
  }

  lemma SendSets(s: State, c: Key, key: Key, v: WorkerId)
    requires Domains(s) && c in s.ctrl
    ensures var s' := DoSend(s, c, key);
      && Fin(s', v) == Fin(s, v)
      && DataAt(s', v) == (if v == s.loc[c] then DataAt(s, v) + {key} else DataAt(s, v))
  {
    var s' := DoSend(s, c, key);
    var d := if v == s.loc[c] then DataAt(s, v) + {key} else DataAt(s, v);
    forall k ensures k in DataAt(s', v) <==> k in d {
      if k in DataAt(s, v) { var x :| x in s.sent && x.0 == v && x.1 == k; assert x in s'.sent; }
      if v == s.loc[c] && k == key { assert (v, key) in s'.sent; }
      if k in DataAt(s', v) { var x :| x in s'.sent && x.0 == v && x.1 == k; }
    }
    assert Fin(s', v) == Fin(s, v);
  }

  ghost predicate CanSend(s: State, c: Key, key: Key) {
    Inv(s) && c in s.ctrl - s.finished && Group(key) != CONTROL_PREFIX
  }

  lemma SendLink(s: State, c: Key, key: Key, v: WorkerId)
    requires CanSend(s, c, key) && v in s.link
    ensures v in DoSend(s, c, key).link && LinkOk(DoSend(s, c, key), v)
  {
    hide History, Pending, CoordOk, FiringsOk, FiredWhenDue, WorkerOk, Fin, DataAt;
    var s' := DoSend(s, c, key);
    var q, q' := s.link[v], s'.link[v];
    Unfinished(s, c);
    SendSets(s, c, key, v);
    assert LinkOk(s, v);
    forall i | 0 <= i < |q'| ensures NotifOk(s', v, i) {
      if i < |q| { assert NotifOk(s, v, i) && q'[i] == q[i]; }
    }
    forall i, j | 0 <= i < j < |q'| && q'[i].key == q'[i].from ensures q'[j].from != q'[i].from {
      assert NotifOk(s, v, i) && q'[i] == q[i];
    }
  }

  /** Appending to a link keeps what is queued and adds the new key. */
  lemma QueuedAfterAppend(q: seq<Notif>, n: Notif, key: Key)
    ensures Queued(q, key) ==> Queued(q + [n], key)
    ensures Queued(q + [n], n.key)
  {
    assert (q + [n])[|q|] == n;
    if Queued(q, key) {
      var i :| 0 <= i < |q| && q[i].key == key;
      assert (q + [n])[i] == q[i];
    }
  }

  lemma OfferPending(s: State, s': State, c: Key, key: Key)
    requires Domains(s) && Pending(s) && c in s.ctrl && s.loc[c] in s.link
    requires s'.loc == s.loc && s'.acked == s.acked && s'.got == s.got && s'.link == Offer(s, c, key).link
    requires s'.sent <= s.sent + {(s.loc[c], key)} && s'.finished <= s.finished + {key}
    requires key in s'.finished ==> key == c || key in s.finished
    ensures Pending(s')
  {
    var w := s.loc[c];
    var n := s'.link[w][|s.link[w]|];
    assert s'.link[w] == s.link[w] + [n];
    forall x | x in s'.sent && x !in s'.got ensures x.0 in s'.link && Queued(s'.link[x.0], x.1) {
      QueuedAfterAppend(s.link[w], n, x.1);
    }
    forall d | d in s'.finished && d !in s'.acked ensures d in s'.loc && s'.loc[d] in s'.link && Queued(s'.link[s'.loc[d]], d) {
      QueuedAfterAppend(s.link[w], n, d);
    }
  }

  lemma SendRest(s: State, c: Key, key: Key)
    requires CanSend(s, c, key)
    ensures var s' := DoSend(s, c, key);
      Domains(s') && History(s') && CoordOk(s') && FiringsOk(s') && FiredWhenDue(s') && s'.firings == []
  {
    hide Pending, WorkerOk, LinkOk, DataAt, Fin, GroupBy, AddToGroup;
    var s' := DoSend(s, c, key);
    Unfinished(s, c);
    assert s'.firings == [] by { assert GroupNext(s.ctrl, s.worker[s.loc[c]], key).1 == map[]; }
    hide GroupNext;
    forall v ensures Fin(s', v) == Fin(s, v) { SendSets(s, c, key, v); }
    assert Hosts(s', s.loc[c]);
    forall x | x in s.sent ensures Hosts(s', x.0) { assert Hosts(s, x.0); }
  }

  lemma SendWorker(s: State, c: Key, key: Key, v: WorkerId)
    requires CanSend(s, c, key) && v in s.worker && v in s.clears
    ensures v in DoSend(s, c, key).worker && WorkerOk(DoSend(s, c, key), v)
  {
    hide History, Pending, CoordOk, FiringsOk, FiredWhenDue, LinkOk, Fin, DataAt;
    Unfinished(s, c);
    SendSets(s, c, key, v);
    assert WorkerOk(s, v);
    GroupByGrows(DataAt(s, v), key);
  }

  lemma SendKeepsInv(s: State, c: Key, key: Key)
    requires CanSend(s, c, key)
    ensures Inv(DoSend(s, c, key))
  {
    hide History, Pending, CoordOk, FiringsOk, FiredWhenDue, LinkOk, WorkerOk;
    var s' := DoSend(s, c, key);
    Unfinished(s, c);
    SendRest(s, c, key);
    OfferPending(s, s', c, key) by { ControlOnlyByItself(s, key); }
    forall v | v in s'.link ensures LinkOk(s', v) { SendLink(s, c, key, v); }
    forall v | v in s'.worker ensures v in s'.clears && WorkerOk(s', v) { SendWorker(s, c, key, v); }
  }

  lemma ControlOnlyByItself(s: State, key: Key)
    requires Inv(s) && Group(key) != CONTROL_PREFIX
    ensures key !in s.finished
  {
  }

  // ---------------------------------------------------------------- a mapper finishes

  ghost predicate CanFinish(s: State, c: Key) {
    Inv(s) && c in s.ctrl - s.finished
  }

  lemma FinishSets(s: State, c: Key, v: WorkerId)
    requires Domains(s) && c in s.ctrl
    ensures var s' := DoFinish(s, c);
      && Fin(s', v) == (if v == s.loc[c] then Fin(s, v) + {c} else Fin(s, v))
      && DataAt(s', v) == DataAt(s, v)
  {
    var s' := DoFinish(s, c);
    var f := if v == s.loc[c] then Fin(s, v) + {c} else Fin(s, v);
    forall d ensures d in Fin(s', v) <==> d in f {}
    assert DataAt(s', v) == DataAt(s, v);
  }

  /** The worker's replica fires exactly when all mappers were its own, and then it holds all data keys. */
  lemma FinishOutcome(s: State, c: Key)
    requires CanFinish(s, c)
    ensures var w := s.loc[c]; var r := GroupNext(s.ctrl, s.worker[w], c);
      if Fin(s, w) + {c} == s.ctrl
      then r == (NO_GROUPS, GroupBy(Keys(s.sent))) && DataAt(s, w) == Keys(s.sent)
      else r == (GroupState(GroupBy(DataAt(s, w)), Fin(s, w) + {c}), map[])
  {
    hide History, Pending, CoordOk, FiringsOk, FiredWhenDue, WorkerOk, LinkOk, Fin, DataAt, GroupBy;
    var w := s.loc[c];
    Unfinished(s, c);
    FinWithin(s, w);
    if |Fin(s, w) + {c}| == |s.ctrl| { SubsetOfSameSize(Fin(s, w) + {c}, s.ctrl); }
    if Fin(s, w) + {c} == s.ctrl { AllAtOneWorker(s, w, c); }
  }

  lemma FinWithin(s: State, w: WorkerId)
    requires Inv(s)
    ensures Fin(s, w) <= s.ctrl
  {
  }

  lemma AllAtOneWorker(s: State, w: WorkerId, c: Key)
    requires Inv(s) && s.ctrl <= Fin(s, w) + {c} && c in s.ctrl && s.loc[c] == w
    ensures DataAt(s, w) == Keys(s.sent)
    ensures forall v :: v != w ==> Fin(s, v) == {} && DataAt(s, v) == {}
    ensures forall d :: d in s.ctrl ==> s.loc[d] == w
  {
    forall d | d in s.ctrl ensures s.loc[d] == w { assert d in Fin(s, w) + {c}; }
    forall x | x in s.sent ensures x.0 == w { assert Hosts(s, x.0); }
    forall k ensures k in DataAt(s, w) <==> k in Keys(s.sent) {
      if k in Keys(s.sent) { var x :| x in s.sent && x.1 == k; assert x.0 == w; }
    }
  }

  lemma EmptyGroups(data: set<Key>)
    ensures GroupBy(data) == map[] <==> data == {}
  {
    if data != {} {
      var k :| k in data;
      assert Group(k) in GroupBy(data);
    }
  }

  lemma NoData(s: State)
    ensures Keys(s.sent) == {} <==> s.sent == {}
  {
    if s.sent != {} {
      var x :| x in s.sent;
      assert x.1 in Keys(s.sent);
    }
  }

  lemma FinishLink(s: State, c: Key, v: WorkerId)
    requires CanFinish(s, c) && v in s.link
    ensures v in DoFinish(s, c).link && LinkOk(DoFinish(s, c), v)
  {
    hide History, Pending, CoordOk, FiringsOk, FiredWhenDue, WorkerOk, Fin, DataAt, GroupBy, GroupNext;
    var s' := DoFinish(s, c);
    var q, q' := s.link[v], s'.link[v];
    Unfinished(s, c);
    FinishSets(s, c, v);
    FinishOutcome(s, c);
    EmptyGroups(Keys(s.sent));
    assert LinkOk(s, v);
    forall i | 0 <= i < |q'| ensures NotifOk(s', v, i) {
      if i < |q| { assert NotifOk(s, v, i) && q'[i] == q[i]; }
    }
    forall i, j | 0 <= i < j < |q'| && q'[i].key == q'[i].from ensures q'[j].from != q'[i].from {
      assert NotifOk(s, v, i) && q'[i] == q[i];
    }
  }

  lemma FinishRest(s: State, c: Key)
    requires CanFinish(s, c)
    ensures var s' := DoFinish(s, c);
      Domains(s') && History(s') && CoordOk(s') && FiringsOk(s') && FiredWhenDue(s')
  {
    hide Pending, WorkerOk, LinkOk, DataAt, Fin, GroupBy, GroupNext, Keys, Group;
    var s', w := DoFinish(s, c), s.loc[c];
    Unfinished(s, c);
    FinishOutcome(s, c);
    EmptyGroups(Keys(s.sent));
    NoData(s);
    forall v ensures Fin(s', v) == s.ctrl <==> v == w && Fin(s, w) + {c} == s.ctrl { FinishSets(s, c, v); }
    forall x | x in s.sent ensures Hosts(s', x.0) { assert Hosts(s, x.0); }
    assert BarrierPassed(s') <==> Fin(s, w) + {c} == s.ctrl by { assert w in s'.worker; }
  }

  lemma FinishWorker(s: State, c: Key, v: WorkerId)
    requires CanFinish(s, c) && v in s.worker && v in s.clears
    ensures v in DoFinish(s, c).worker && WorkerOk(DoFinish(s, c), v)
  {
    hide History, Pending, CoordOk, FiringsOk, FiredWhenDue, LinkOk, Fin, DataAt, GroupBy, GroupNext;
    Unfinished(s, c);
    FinishSets(s, c, v);
    FinishOutcome(s, c);
    assert WorkerOk(s, v);
  }

  lemma FinishKeepsInv(s: State, c: Key)
    requires CanFinish(s, c)
    ensures Inv(DoFinish(s, c))
  {
    hide History, Pending, CoordOk, FiringsOk, FiredWhenDue, LinkOk, WorkerOk;
    var s' := DoFinish(s, c);
    Unfinished(s, c);
    FinishRest(s, c);
    OfferPending(s, s', c, c);
    forall v | v in s'.link ensures LinkOk(s', v) { FinishLink(s, c, v); }
    forall v | v in s'.worker ensures v in s'.clears && WorkerOk(s', v) { FinishWorker(s, c, v); }
  }

  // ---------------------------------------------------------------- delivering a notification

  ghost predicate CanDeliver(s: State, w: WorkerId) {
    Inv(s) && w in s.link && s.link[w] != []
  }

  lemma HeadFacts(s: State, w: WorkerId)
    requires CanDeliver(s, w)
    ensures var n := s.link[w][0];
      && n.from in s.ctrl && s.loc[n.from] == w && n.from !in s.acked && s.acked != s.ctrl
      && (n.key == n.from <==> Group(n.key) == CONTROL_PREFIX)
      && (if n.key == n.from then n.from in s.finished else (w, n.key) in s.sent)
      && s.coord == GroupState(GroupBy(Keys(s.got)), s.acked)
      && s.acked <= s.ctrl
  {
    assert LinkOk(s, w);
    assert NotifOk(s, w, 0);
  }

  /** The outcome at the coordinator's replica. */
  lemma DeliverOutcome(s: State, w: WorkerId)
    requires CanDeliver(s, w)
    ensures var n := s.link[w][0]; var r := GroupNext(s.ctrl, s.coord, n.key);
      if n.key != n.from then r == (GroupState(GroupBy(Keys(s.got) + {n.key}), s.acked), map[])
      else if s.acked + {n.key} == s.ctrl then r == (NO_GROUPS, GroupBy(Keys(s.got)))
      else r == (GroupState(GroupBy(Keys(s.got)), s.acked + {n.key}), map[])
  {
    hide Inv, GroupBy, AddToGroup;
    var n := s.link[w][0];
    HeadFacts(s, w);
    if n.key != n.from { GroupByGrows(Keys(s.got), n.key); }
    else if |s.acked + {n.key}| == |s.ctrl| { SubsetOfSameSize(s.acked + {n.key}, s.ctrl); }
  }

  lemma DeliverSets(s: State, w: WorkerId, v: WorkerId)
    requires w in s.link && s.link[w] != []
    ensures var s' := DoDeliver(s, w); var n := s.link[w][0];
      && Fin(s', v) == Fin(s, v) && DataAt(s', v) == DataAt(s, v)
      && Keys(s'.got) == (if n.key == n.from then Keys(s.got) else Keys(s.got) + {n.key})
  {
    var s', n := DoDeliver(s, w), s.link[w][0];
    assert Fin(s', v) == Fin(s, v) && DataAt(s', v) == DataAt(s, v);
    if n.key != n.from {
      forall k ensures k in Keys(s'.got) <==> k in Keys(s.got) + {n.key} {
        if k == n.key { assert (w, n.key) in s'.got; }
        if k in Keys(s.got) { var x :| x in s.got && x.1 == k; assert x in s'.got; }
      }
    }
  }

  lemma DeliverShape(s: State, w: WorkerId)
    requires CanDeliver(s, w)
    ensures var s' := DoDeliver(s, w); var n := s.link[w][0];
      && s'.link == s.link[w := s.link[w][1..]] && s'.ctrl == s.ctrl && s'.loc == s.loc
      && s'.finished == s.finished && s'.sent == s.sent && s'.worker == s.worker && s'.nodes == s.nodes + {w}
      && s'.acked == (if n.key == n.from then s.acked + {n.key} else s.acked)
      && s'.got == (if n.key == n.from then s.got else s.got + {(w, n.key)})
      && s'.clears.Keys == s.clears.Keys
  {
    hide Inv, GroupNext;
  }

  lemma DeliverNotif(s: State, w: WorkerId, v: WorkerId, i: nat)
    requires CanDeliver(s, w) && v in s.link && i < |DoDeliver(s, w).link[v]|
    ensures NotifOk(DoDeliver(s, w), v, i)
  {
    hide History, Pending, CoordOk, FiringsOk, FiredWhenDue, WorkerOk, Fin, DataAt, GroupNext, DoDeliver, Keys, GroupBy;
    DeliverShape(s, w);
    HeadFacts(s, w);
    DeliverSets(s, w, v);
    assert LinkOk(s, v);
    var q, d := s.link[v], if v == w then 1 else 0;
    assert NotifOk(s, v, i + d) && DoDeliver(s, w).link[v][i] == q[i + d];
    assert q[i + d].from !in DoDeliver(s, w).acked by {
      if v == w { assert q[0].key == q[0].from ==> q[i + 1].from != q[0].from; }
    }
  }

  lemma DeliverLink(s: State, w: WorkerId, v: WorkerId)
    requires CanDeliver(s, w) && v in s.link
    ensures v in DoDeliver(s, w).link && LinkOk(DoDeliver(s, w), v)
  {
    hide History, Pending, CoordOk, FiringsOk, FiredWhenDue, WorkerOk, Fin, DataAt, GroupNext, NotifOk, DoDeliver, Keys, GroupBy;
    DeliverShape(s, w);
    var s' := DoDeliver(s, w);
    var q, q' := s.link[v], s'.link[v];
    var d := if v == w then 1 else 0;
    DeliverSets(s, w, v);
    assert LinkOk(s, v);
    forall i | 0 <= i < |q'| ensures NotifOk(s', v, i) { DeliverNotif(s, w, v, i); }
    forall i, j | 0 <= i < j < |q'| && q'[i].key == q'[i].from ensures q'[j].from != q'[i].from {
      assert q'[i] == q[i + d] && q'[j] == q[j + d];
    }
  }

  lemma DeliverPending(s: State, w: WorkerId)
    requires CanDeliver(s, w)
    ensures Pending(DoDeliver(s, w))
  {
    hide CoordOk, FiringsOk, FiredWhenDue, WorkerOk, LinkOk, GroupNext, DoDeliver;
    DeliverShape(s, w);
    var s', n := DoDeliver(s, w), s.link[w][0];
    HeadFacts(s, w);
    forall x | x in s'.sent && x !in s'.got ensures x.0 in s'.link && Queued(s'.link[x.0], x.1) {
      if x.0 == w { QueuedAfterDrop(s.link[w], x.1); }
    }
    forall c | c in s'.finished && c !in s'.acked ensures c in s'.loc && s'.loc[c] in s'.link && Queued(s'.link[s'.loc[c]], c) {
      if s.loc[c] == w { QueuedAfterDrop(s.link[w], c); }
    }
  }

  lemma QueuedAfterDrop(q: seq<Notif>, key: Key)
    requires q != [] && Queued(q, key) && q[0].key != key
    ensures Queued(q[1..], key)
  {
    var i :| 0 <= i < |q| && q[i].key == key;
    assert q[1..][i - 1] == q[i];
  }

  lemma QueuedMeansUnacked(s: State, w: WorkerId)
    requires w in s.link && s.link[w] != [] && LinkOk(s, w)
    ensures s.acked != s.ctrl
  {
    assert NotifOk(s, w, 0);
  }

  /** When the coordinator has every control key, nothing is left on any link and all data keys have arrived. */
  lemma AllArrived(s: State)
    requires Domains(s) && History(s) && Pending(s) && s.acked == s.ctrl
    requires forall w :: w in s.link ==> LinkOk(s, w)
    ensures forall w :: w in s.link ==> s.link[w] == []
    ensures s.got == s.sent && s.finished == s.ctrl
  {
    hide LinkOk;
    forall w | w in s.link ensures s.link[w] == [] {
      if s.link[w] != [] { QueuedMeansUnacked(s, w); }
    }
  }

  /** At the last control key the coordinator defers to the worker exactly if that worker handed out the data. */
  lemma LastControl(s: State, w: WorkerId)
    requires CanDeliver(s, w)
    requires var n := s.link[w][0]; n.key == n.from && s.acked + {n.key} == s.ctrl
    ensures s.link[w][0].active <==> Fin(s, w) == s.ctrl && s.sent != {}
    ensures s.got == s.sent
    ensures forall v :: v in s.worker && Fin(s, v) == s.ctrl ==> v == w
    ensures forall v :: v in s.worker && s.worker[v] != NO_GROUPS ==> v in s.nodes + {w} && Fin(s, w) != s.ctrl
  {
    hide FiringsOk, FiredWhenDue, CoordOk, GroupNext, GroupBy;
    var s', n := DoDeliver(s, w), s.link[w][0];
    HeadFacts(s, w);
    DeliverPending(s, w);
    DeliverHistory(s, w);
    forall v | v in s'.link ensures LinkOk(s', v) { DeliverLink(s, w, v); }
    AllArrived(s');
    assert NotifOk(s, w, 0) && |s.link[w]| == 1;
    if Fin(s, w) == s.ctrl { LastControlData(s, w); }
    forall v | v in s.worker && Fin(s, v) == s.ctrl ensures v == w { assert n.key in Fin(s, v); }
    forall v | v in s.worker && s.worker[v] != NO_GROUPS ensures v in s.nodes + {w} && Fin(s, w) != s.ctrl {
      HoldsMeansNotified(s, w, v);
    }
  }

  lemma LastControlData(s: State, w: WorkerId)
    requires Inv(s) && w in s.worker && Fin(s, w) == s.ctrl
    ensures DataAt(s, w) != {} <==> s.sent != {}
  {
    var c :| c in s.ctrl;
    assert c in Fin(s, w);
    AllAtOneWorker(s, w, c);
    NoData(s);
  }

  lemma DeliverHistory(s: State, w: WorkerId)
    requires CanDeliver(s, w)
    ensures Domains(DoDeliver(s, w)) && History(DoDeliver(s, w))
  {
    hide Pending, CoordOk, FiringsOk, FiredWhenDue, WorkerOk, LinkOk, GroupNext, DoDeliver;
    DeliverShape(s, w);
    var s' := DoDeliver(s, w);
    HeadFacts(s, w);
    forall x | x in s.sent ensures Hosts(s', x.0) { assert Hosts(s, x.0); }
  }

  /** A worker whose replica is not empty is known to the coordinator by the time the barrier is passed there. */
  lemma HoldsMeansNotified(s: State, w: WorkerId, v: WorkerId)
    requires CanDeliver(s, w) && s.link[w][0].key == s.link[w][0].from && s.acked + {s.link[w][0].key} == s.ctrl
    requires s.got == s.sent && v in s.worker && s.worker[v] != NO_GROUPS
    ensures v in s.nodes + {w} && Fin(s, w) != s.ctrl
  {
    hide Pending, CoordOk, FiringsOk, FiredWhenDue, LinkOk, GroupNext, GroupBy;
    HeadFacts(s, w);
    var c0 := s.link[w][0].key;
    if Fin(s, w) == s.ctrl { AllAtOneWorker(s, w, c0); }
    assert WorkerOk(s, v);
    EmptyGroups({});
    if Fin(s, v) != {} {
      var c :| c in Fin(s, v);
      FinWithin(s, v);
    } else {
      assert DataAt(s, v) != {};
      var k :| k in DataAt(s, v);
      assert (v, k) in s.got;
    }
  }

  lemma DeliverWorker(s: State, w: WorkerId, v: WorkerId)
    requires CanDeliver(s, w) && v in s.worker && v in s.clears
    ensures v in DoDeliver(s, w).clears && WorkerOk(DoDeliver(s, w), v)
  {
    hide History, Pending, CoordOk, FiringsOk, FiredWhenDue, LinkOk, GroupNext, GroupBy, Fin, DataAt;
    var s', n := DoDeliver(s, w), s.link[w][0];
    HeadFacts(s, w);
    DeliverOutcome(s, w);
    DeliverSets(s, w, v);
    assert WorkerOk(s, v);
    if s'.acked == s.ctrl {
      LastControl(s, w);
      NoData(s);
      EmptyGroups(Keys(s.got));
    }
  }

  lemma DeliverRest(s: State, w: WorkerId)
    requires CanDeliver(s, w)
    ensures var s' := DoDeliver(s, w); CoordOk(s') && FiringsOk(s') && FiredWhenDue(s')
  {
    hide History, Pending, WorkerOk, LinkOk, GroupNext, GroupBy, Fin, DataAt;
    var s', n := DoDeliver(s, w), s.link[w][0];
    HeadFacts(s, w);
    DeliverOutcome(s, w);
    forall v ensures Fin(s', v) == Fin(s, v) { DeliverSets(s, w, v); }
    DeliverSets(s, w, w);
    if s'.acked == s.ctrl {
      LastControl(s, w);
      NoData(s);
      EmptyGroups(Keys(s.got));
      assert BarrierPassed(s) <==> Fin(s, w) == s.ctrl by { assert w in s.worker; }
      assert BarrierPassed(s');
    } else {
      assert BarrierPassed(s') <==> BarrierPassed(s);
    }
  }

  lemma DeliverKeepsInv(s: State, w: WorkerId)
    requires CanDeliver(s, w)
    ensures Inv(DoDeliver(s, w))
  {
    hide History, Pending, CoordOk, FiringsOk, FiredWhenDue, LinkOk, WorkerOk;
    var s' := DoDeliver(s, w);
    DeliverHistory(s, w);
    DeliverPending(s, w);
    DeliverRest(s, w);
    forall v | v in s'.link ensures LinkOk(s', v) { DeliverLink(s, w, v); }
    forall v | v in s'.worker ensures v in s'.clears && WorkerOk(s', v) { DeliverWorker(s, w, v); }
  }

  // ---------------------------------------------------------------- forgetting

  lemma ClearLink(s: State, w: WorkerId, v: WorkerId)
    requires Inv(s) && w in s.clears && s.clears[w] > 0 && v in s.link
    ensures LinkOk(DoClear(s, w), v)
  {
    hide History, Pending, CoordOk, FiringsOk, FiredWhenDue, WorkerOk;
    var s' := DoClear(s, w);
    assert LinkOk(s, v);
    assert Fin(s', v) == Fin(s, v) && DataAt(s', v) == DataAt(s, v);
    forall i | 0 <= i < |s.link[v]| ensures NotifOk(s', v, i) { assert NotifOk(s, v, i); }
  }

  lemma ClearWorker(s: State, w: WorkerId, v: WorkerId)
    requires Inv(s) && w in s.clears && s.clears[w] > 0 && v in s.worker
    ensures v in DoClear(s, w).clears && WorkerOk(DoClear(s, w), v)
  {
    hide History, Pending, CoordOk, FiringsOk, FiredWhenDue, LinkOk, GroupBy;
    var s' := DoClear(s, w);
    assert WorkerOk(s, v) && WorkerOk(s, w);
  }

  lemma ClearKeepsInv(s: State, w: WorkerId)
    requires Inv(s) && w in s.clears && s.clears[w] > 0
    ensures Inv(DoClear(s, w))
  {
    hide GroupBy, LinkOk, Fin;
    var s' := DoClear(s, w);
    assert s.acked == s.ctrl by { assert WorkerOk(s, w); }
    hide WorkerOk;
    forall x | x in s.sent ensures Hosts(s', x.0) { assert Hosts(s, x.0); }
    forall v | v in s'.worker ensures v in s'.clears && WorkerOk(s', v) { ClearWorker(s, w, v); }
    forall v | v in s'.link ensures LinkOk(s', v) { ClearLink(s, w, v); }
  }

  // ---------------------------------------------------------------- theorems

  lemma InitHasInv(s: State)
    requires Init(s)
    ensures Inv(s)
  {
    forall w ensures Fin(s, w) == {} && DataAt(s, w) == {} {}
    EmptyGroups({});
    assert Keys(s.got) == {};
  }

  lemma ExecKeepsInv(s: State, l: Label)
    requires Inv(s)
    ensures Inv(Exec(s, l))
  {
    hide History, Pending, CoordOk, FiringsOk, FiredWhenDue, LinkOk, WorkerOk;
    match l
    case Send(c, key) => if c in s.ctrl - s.finished && Group(key) != CONTROL_PREFIX { SendKeepsInv(s, c, key); }
    case Finish(c) => if c in s.ctrl - s.finished { FinishKeepsInv(s, c); }
    case Deliver(w) => if w in s.link && s.link[w] != [] { DeliverKeepsInv(s, w); }
    case ClearArrives(w) => if w in s.clears && s.clears[w] > 0 { ClearKeepsInv(s, w); }
  }

  /** The state a schedule leads to. */
  ghost function Run(s: State, sched: seq<Label>): (r: State)
    requires Inv(s)
    ensures Inv(r)
    decreases |sched|
  {
    if sched == [] then s
    else
      ExecKeepsInv(s, sched[0]);
      Run(Exec(s, sched[0]), sched[1..])
  }

  ghost function RunFromStart(s0: State, sched: seq<Label>): (r: State)
    requires Init(s0)
    ensures Inv(r)
  {
    InitHasInv(s0);
    Run(s0, sched)
  }

  /** In every run at most one replica hands out groups, and what it hands out is all the data keys sent, by prefix. */
  lemma AtMostOneFiring(s0: State, sched: seq<Label>)
    requires Init(s0)
    ensures var s := RunFromStart(s0, sched);
      && |s.firings| <= 1
      && (s.firings != [] ==> s.firings[0].groups == GroupBy(Keys(s.sent)) && s.finished == s.ctrl)
  {
    var s := RunFromStart(s0, sched);
    if s.firings != [] && s.acked != s.ctrl {
      var w :| w in s.worker && Fin(s, w) == s.ctrl;
      forall c | c in s.ctrl ensures c in s.finished { assert c in Fin(s, w); }
    }
  }

  ghost predicate RoundOver(s: State) {
    s.finished == s.ctrl && (forall w :: w in s.link ==> s.link[w] == []) && forall w :: w in s.clears ==> s.clears[w] == 0
  }

  ghost predicate OneHost(s: State, w: WorkerId) {
    forall c :: c in s.ctrl ==> c in s.loc && s.loc[c] == w
  }

  /** When every object has been delivered, exactly one replica has handed out the data keys, if there were any. */
  lemma BarrierFiresOnce(s0: State, sched: seq<Label>)
    requires Init(s0)
    requires var s := RunFromStart(s0, sched); s.finished == s.ctrl && forall w :: w in s.link ==> s.link[w] == []
    ensures var s := RunFromStart(s0, sched);
      && (s.sent != {} ==> |s.firings| == 1 && s.firings[0].groups == GroupBy(Keys(s.sent)))
      && (s.sent == {} ==> s.firings == [])
      && s.coord == NO_GROUPS
  {
    var s := RunFromStart(s0, sched);
    assert s.acked == s.ctrl;
  }

  /**
    The round leaves every replica as new exactly when there was data, or one worker hosted all mappers:
    without data the coordinator hands out nothing, sends no order to forget, and control keys stay behind.
   */
  lemma RoundLeavesReplicasClean(s0: State, sched: seq<Label>)
    requires Init(s0) && RoundOver(RunFromStart(s0, sched))
    ensures var s := RunFromStart(s0, sched);
      (forall w :: w in s.worker ==> s.worker[w] == NO_GROUPS) <==> s.sent != {} || exists w :: w in s.worker && OneHost(s, w)
  {
    var s := RunFromStart(s0, sched);
    assert s.acked == s.ctrl;
    forall w | w in s.worker ensures w in s.clears && WorkerOk(s, w) {}
    if s.sent == {} {
      forall w | w in s.worker ensures (Fin(s, w) == s.ctrl <==> OneHost(s, w)) && (Fin(s, w) == {} || Fin(s, w) == s.ctrl <==> s.worker[w] == NO_GROUPS) {
        ControlLeftBehind(s, w);
      }
      if w :| w in s.worker && OneHost(s, w) {
        forall v | v in s.worker ensures s.worker[v] == NO_GROUPS { if v != w { assert Fin(s, v) == {}; } }
      } else {
        var c :| c in s.ctrl;
        assert c in Fin(s, s.loc[c]);
      }
    }
  }

  lemma ControlLeftBehind(s: State, w: WorkerId)
    requires Inv(s) && s.finished == s.ctrl && s.sent == {} && w in s.worker
    ensures Fin(s, w) == s.ctrl <==> OneHost(s, w)
    ensures Fin(s, w) == {} || Fin(s, w) == s.ctrl <==> s.worker[w] == NO_GROUPS
  {
    assert WorkerOk(s, w);
    assert DataAt(s, w) == {};
    EmptyGroups({});
    if Fin(s, w) == s.ctrl {
      forall c | c in s.ctrl ensures s.loc[c] == w { assert c in Fin(s, w); }
    }
    if OneHost(s, w) {
      forall c | c in s.ctrl ensures c in Fin(s, w) {}
    }
  }

  // ---------------------------------------------------------------- a round without data

  /** Two mappers on two workers, before they start. */
  function TwoHosts(a: Key, b: Key): State {
    State({a, b}, map[a := 0, b := 1], map[0 := NO_GROUPS, 1 := NO_GROUPS], NO_GROUPS, map[0 := [], 1 := []], {},
          map[0 := 0, 1 := 0], {}, {}, {}, {}, [])
  }

  lemma ControlKeys()
    ensures Group("ctrl:0") == CONTROL_PREFIX && Group("ctrl:1") == CONTROL_PREFIX
  {
    assert "ctrl:0"[1..] == "trl:0" && "trl:0"[1..] == "rl:0" && "rl:0"[1..] == "l:0" && "l:0"[1..] == ":0";
    assert "ctrl:1"[1..] == "trl:1" && "trl:1"[1..] == "rl:1" && "rl:1"[1..] == "l:1" && "l:1"[1..] == ":1";
    assert Group(":0") == "" && Group("l:0") == "l" && Group("rl:0") == "rl" && Group("trl:0") == "trl";
    assert Group(":1") == "" && Group("l:1") == "l" && Group("rl:1") == "rl" && Group("trl:1") == "trl";
  }

  lemma RunNext(s: State, l: Label, sched: seq<Label>)
    requires Inv(s)
    ensures Inv(Exec(s, l)) && Run(s, [l] + sched) == Run(Exec(s, l), sched)
  {
    hide Exec, Inv;
    ExecKeepsInv(s, l);
    assert ([l] + sched)[1..] == sched;
  }

  lemma RunNothing(s: State)
    requires Inv(s)
    ensures Run(s, []) == s
  {
  }

  lemma FourSteps(s: State, a: Label, b: Label, c: Label, d: Label)
    requires Inv(s)
    ensures Inv(Exec(s, a)) && Inv(Exec(Exec(s, a), b)) && Inv(Exec(Exec(Exec(s, a), b), c))
    ensures Run(s, [a, b, c, d]) == Exec(Exec(Exec(Exec(s, a), b), c), d)
  {
    hide Exec, Run, History, Pending, LinkOk, WorkerOk, CoordOk, FiringsOk, FiredWhenDue;
    RunNext(s, a, [b, c, d]);
    RunNext(Exec(s, a), b, [c, d]);
    RunNext(Exec(Exec(s, a), b), c, [d]);
    RunNext(Exec(Exec(Exec(s, a), b), c), d, []);
    RunNothing(Exec(Exec(Exec(Exec(s, a), b), c), d));
    assert [a] + [b, c, d] == [a, b, c, d] && [b] + [c, d] == [b, c, d] && [c] + [d] == [c, d] && [d] + [] == [d];
  }

  /** Both finish without having sent data, all is delivered, and each worker keeps its mapper's control key. */
  lemma ControlKeysStay(a: Key, b: Key)
    requires a == "ctrl:0" && b == "ctrl:1"
    ensures var s0 := TwoHosts(a, b); var sched := [Finish(a), Finish(b), Deliver(0), Deliver(1)];
      && Init(s0) && RoundOver(RunFromStart(s0, sched)) && RunFromStart(s0, sched).sent == {}
      && RunFromStart(s0, sched).worker == map[0 := GroupState(map[], {a}), 1 := GroupState(map[], {b})]
  {
    hide Exec, Group, Run, History, Pending, LinkOk, WorkerOk, CoordOk, FiringsOk, FiredWhenDue;
    ControlKeys();
    StartsRound(a, b);
    InitHasInv(TwoHosts(a, b));
    FinishFirst(a, b);
    FinishSecond(a, b);
    FirstDelivered(a, b);
    SecondDelivered(a, b);
    FourSteps(TwoHosts(a, b), Finish(a), Finish(b), Deliver(0), Deliver(1));
  }

  lemma StartsRound(a: Key, b: Key)
    requires Group(a) == CONTROL_PREFIX == Group(b)
    ensures Init(TwoHosts(a, b)) && RoundOver(Arrived(a, b))
  {
    hide Group;
  }

  /** Both have finished, and their notifications are on the way. */
  function OnTheWay(a: Key, b: Key): State {
    TwoHosts(a, b).(worker := map[0 := GroupState(map[], {a}), 1 := GroupState(map[], {b})],
                    link := map[0 := [Notif(a, false, a)], 1 := [Notif(b, false, b)]], finished := {a, b})
  }

  lemma FirstControl(ctrl: set<Key>, a: Key)
    requires |ctrl| == 2 && a in ctrl && Group(a) == CONTROL_PREFIX
    ensures GroupNext(ctrl, NO_GROUPS, a) == (GroupState(map[], {a}), map[])
  {
    hide Group;
    assert {} + {a} == {a};
  }

  lemma SecondControl(ctrl: set<Key>, a: Key, b: Key)
    requires a != b && ctrl == {a, b} && Group(b) == CONTROL_PREFIX
    ensures GroupNext(ctrl, GroupState(map[], {a}), b) == (NO_GROUPS, map[])
  {
    hide Group;
    assert {a} + {b} == ctrl;
  }

  /** The first mapper has finished. */
  function OneFinished(a: Key, b: Key): State {
    TwoHosts(a, b).(worker := map[0 := GroupState(map[], {a}), 1 := NO_GROUPS],
                    link := map[0 := [Notif(a, false, a)], 1 := []], finished := {a})
  }

  lemma FinishFirst(a: Key, b: Key)
    requires a != b && Group(a) == CONTROL_PREFIX == Group(b)
    ensures Domains(TwoHosts(a, b)) && Exec(TwoHosts(a, b), Finish(a)) == OneFinished(a, b)
  {
    hide Group, GroupNext, Domains;
    RoundDomains(a, b);
    FirstControl({a, b}, a);
    var s := TwoHosts(a, b);
    assert [] + [Notif(a, false, a)] == [Notif(a, false, a)] && {} + {a} == {a};
    assert s.worker[0 := GroupState(map[], {a})] == map[0 := GroupState(map[], {a}), 1 := NO_GROUPS];
    assert s.link[0 := [Notif(a, false, a)]] == map[0 := [Notif(a, false, a)], 1 := []];
  }

  lemma FinishSecond(a: Key, b: Key)
    requires a != b && Group(a) == CONTROL_PREFIX == Group(b)
    ensures Domains(OneFinished(a, b)) && Exec(OneFinished(a, b), Finish(b)) == OnTheWay(a, b)
  {
    hide Group, GroupNext, Domains;
    RoundDomains(a, b);
    FirstControl({a, b}, b);
    var s, n := OneFinished(a, b), [Notif(b, false, b)];
    assert [] + n == n && {a} + {b} == {a, b};
    assert s.worker[1 := GroupState(map[], {b})] == map[0 := GroupState(map[], {a}), 1 := GroupState(map[], {b})];
    assert s.link[1 := n] == map[0 := [Notif(a, false, a)], 1 := n];
  }

  /** The coordinator has seen the first control key. */
  function HalfWay(a: Key, b: Key): State {
    OnTheWay(a, b).(coord := GroupState(map[], {a}), nodes := {0}, link := map[0 := [], 1 := [Notif(b, false, b)]], acked := {a})
  }

  lemma HostDomains(s: State, a: Key, b: Key)
    requires Group(a) == CONTROL_PREFIX == Group(b) && s.ctrl == {a, b} && s.loc == map[a := 0, b := 1]
    requires s.worker.Keys == s.link.Keys == s.clears.Keys == {0, 1}
    ensures Domains(s)
  {
    hide Group;
  }

  lemma RoundDomains(a: Key, b: Key)
    requires a != b && Group(a) == CONTROL_PREFIX == Group(b)
    ensures Domains(TwoHosts(a, b)) && Domains(OneFinished(a, b)) && Domains(OnTheWay(a, b)) && Domains(HalfWay(a, b))
    ensures |{a, b}| == 2
  {
    hide Group, Domains;
    HostDomains(TwoHosts(a, b), a, b);
    HostDomains(OneFinished(a, b), a, b);
    HostDomains(OnTheWay(a, b), a, b);
    HostDomains(HalfWay(a, b), a, b);
  }

  lemma FirstDelivered(a: Key, b: Key)
    requires a != b && Group(a) == CONTROL_PREFIX == Group(b)
    ensures Domains(OnTheWay(a, b)) && Exec(OnTheWay(a, b), Deliver(0)) == HalfWay(a, b)
  {
    hide Group, GroupNext, Domains;
    RoundDomains(a, b);
    FirstControl({a, b}, a);
    var s := OnTheWay(a, b);
    assert s.link[0][1..] == [] && {} + {a} == {a} && s.nodes + {0} == {0};
    assert s.link[0 := []] == map[0 := [], 1 := [Notif(b, false, b)]];
  }

  /** All is delivered. */
  function Arrived(a: Key, b: Key): State {
    OnTheWay(a, b).(coord := NO_GROUPS, nodes := {0, 1}, link := map[0 := [], 1 := []], acked := {a, b})
  }

  lemma SecondDelivered(a: Key, b: Key)
    requires a != b && Group(a) == CONTROL_PREFIX == Group(b)
    ensures Domains(HalfWay(a, b)) && Exec(HalfWay(a, b), Deliver(1)) == Arrived(a, b)
  {
    hide Group, GroupNext, Domains;
    RoundDomains(a, b);
    SecondControl({a, b}, a, b);
    var s := HalfWay(a, b);
    assert s.link[1][1..] == [] && {a} + {b} == {a, b} && s.nodes + {1} == {0, 1};
    assert s.link[1 := []] == map[0 := [], 1 := []];
  }
}
