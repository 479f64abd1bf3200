/**
  A by-set trigger that lives twice: one replica on every worker, one on the
  coordinator. A worker offers each new object to its own replica first and tells
  the coordinator whether that replica fired; the coordinator offers the object to
  its replica too, ignores the outcome if the worker already acted, and otherwise
  acts and tells the workers to forget the session.

  Links to the coordinator are first in first out. Messages to forget a session may
  be delayed and reordered at will. A schedule is any sequence of labels; the
  environment's one promise is that an object of the key set is produced once.
 */
module TwoLevelBySet {
  import opened Triggers

  type WorkerId = nat

  datatype Notif = Notif(session: Session, key: Key, active: bool)
  datatype Site = AtWorker(id: WorkerId) | AtCoordinator
  datatype Activation = Activation(site: Site, session: Session)

  /** `produced` and `delivered` are history, restricted to the key set. */
  datatype State = State(
    keys: set<Key>,
    worker: map<WorkerId, Prepared>,
    coord: Prepared,
    link: map<WorkerId, seq<Notif>>,
    nodes: set<WorkerId>,
    clears: map<WorkerId, multiset<Session>>,
    produced: map<(Session, Key), WorkerId>,
    delivered: set<(Session, Key)>,
    activations: seq<Activation>)

  datatype Label =
    | Produce(w: WorkerId, session: Session, key: Key)
    | Deliver(w: WorkerId)
    | ClearArrives(w: WorkerId, session: Session)

  ghost predicate Domains(s: State) {
    && s.keys != {}
    && s.link.Keys == s.worker.Keys && s.clears.Keys == s.worker.Keys
  }

  ghost predicate Init(s: State) {
    && Domains(s)
    && s.coord == map[] && s.nodes == {} && s.produced == map[] && s.delivered == {} && s.activations == []
    && forall w :: w in s.worker ==> s.worker[w] == map[] && s.link[w] == [] && s.clears[w] == multiset{}
  }

  /** The worker offers the object to its replica and notifies the coordinator. */
  function DoProduce(s: State, w: WorkerId, session: Session, key: Key): State
    requires w in s.worker && w in s.link
  {
    var (p, fires) := BySetNext(s.keys, s.worker[w], session, key);
    s.(worker := s.worker[w := p],
       link := s.link[w := s.link[w] + [Notif(session, key, fires)]],
       produced := if key in s.keys then s.produced[(session, key) := w] else s.produced,
       activations := if fires then s.activations + [Activation(AtWorker(w), session)] else s.activations)
  }

  /** The coordinator replays the oldest notification of a worker on its own replica. */
  function DoDeliver(s: State, w: WorkerId): State
    requires w in s.link && s.link[w] != []
  {
    var n := s.link[w][0];
    var (c, fires) := BySetNext(s.keys, s.coord, n.session, n.key);
    var nodes := s.nodes + {w};
    var s1 := s.(coord := c, nodes := nodes, link := s.link[w := s.link[w][1..]],
                 delivered := if n.key in s.keys then s.delivered + {(n.session, n.key)} else s.delivered);
    if fires && !n.active
    then s1.(activations := s.activations + [Activation(AtCoordinator, n.session)],
             clears := map v | v in s.clears :: if v in nodes then s.clears[v] + multiset{n.session} else s.clears[v])
    else s1
  }

  function DoClear(s: State, w: WorkerId, session: Session): State
    requires w in s.worker && w in s.clears
  {
    s.(worker := s.worker[w := s.worker[w] - {session}],
       clears := s.clears[w := s.clears[w] - multiset{session}])
  }

  function Exec(s: State, l: Label): State
    requires Domains(s)
  {
    match l
    case Produce(w, session, key) =>
      if w in s.worker && (key in s.keys ==> (session, key) !in s.produced) then DoProduce(s, w, session, key) else s
    case Deliver(w) => if w in s.link && s.link[w] != [] then DoDeliver(s, w) else s
    case ClearArrives(w, session) => if w in s.clears && session in s.clears[w] then DoClear(s, w, session) else s
  }

  // ---------------------------------------------------------------- invariant

  /** The keys of a session produced at `w`. */
  function Here(s: State, w: WorkerId, session: Session): set<Key> {
    set k | k in s.keys && (session, k) in s.produced && s.produced[(session, k)] == w
  }

  /** The keys of a session the coordinator has seen. */
  function Got(s: State, session: Session): set<Key> {
    set k | k in s.keys && (session, k) in s.delivered
  }

  /** No later notification of the queue is about another key of the same session. */
  ghost predicate LastOfSession(q: seq<Notif>, keys: set<Key>, i: nat)
    requires i < |q|
  {
    forall j :: i < j < |q| && q[j].session == q[i].session ==> q[j].key !in keys
  }

  ghost predicate NotifOk(s: State, w: WorkerId, i: nat)
    requires w in s.link && i < |s.link[w]|
  {
    var n := s.link[w][i];
    && (n.key in s.keys ==>
          (n.session, n.key) in s.produced && s.produced[(n.session, n.key)] == w && (n.session, n.key) !in s.delivered)
    && (n.active <==> n.key in s.keys && Here(s, w, n.session) == s.keys && LastOfSession(s.link[w], s.keys, i))
  }

  ghost predicate DistinctNotifs(q: seq<Notif>, keys: set<Key>) {
    forall i, j :: 0 <= i < j < |q| && q[i].key in keys && q[i].session == q[j].session ==> q[i].key != q[j].key
  }

  ghost predicate LinkOk(s: State, w: WorkerId)
    requires w in s.link
  {
    DistinctNotifs(s.link[w], s.keys) && forall i :: 0 <= i < |s.link[w]| ==> NotifOk(s, w, i)
  }

  ghost predicate Queued(q: seq<Notif>, session: Session, key: Key) {
    exists i :: 0 <= i < |q| && q[i].session == session && q[i].key == key
  }

  ghost predicate Pending(s: State) {
    && (forall x :: x in s.delivered ==> x in s.produced && x.1 in s.keys && s.produced[x] in s.nodes)
    && (forall x :: x in s.produced ==> x.1 in s.keys && s.produced[x] in s.link)
    && (forall x :: x in s.produced && x !in s.delivered ==> Queued(s.link[s.produced[x]], x.0, x.1))
  }

  /** What a worker's replica holds for a session. */
  ghost predicate ReplicaOk(s: State, w: WorkerId, session: Session)
    requires w in s.worker && w in s.clears
  {
    && PreparedIn(s.worker[w], session) <= Here(s, w, session)
    && (Here(s, w, session) == s.keys ==> session !in s.worker[w])
    && (Got(s, session) != s.keys && Here(s, w, session) != s.keys ==> PreparedIn(s.worker[w], session) == Here(s, w, session))
    && (Got(s, session) == s.keys && session in s.worker[w] ==> session in s.clears[w])
    && (session in s.clears[w] ==> Got(s, session) == s.keys)
  }

  ghost predicate CoordOk(s: State, session: Session) {
    if Got(s, session) == s.keys then session !in s.coord else PreparedIn(s.coord, session) == Got(s, session)
  }

  ghost predicate Activated(s: State, session: Session) {
    exists i :: 0 <= i < |s.activations| && s.activations[i].session == session
  }

  /** Some replica has held the whole key set of the session. */
  ghost predicate Complete(s: State, session: Session) {
    Got(s, session) == s.keys || exists w :: w in s.worker && Here(s, w, session) == s.keys
  }

  ghost predicate ActivationsOk(s: State) {
    && (forall i, j :: 0 <= i < j < |s.activations| ==> s.activations[i].session != s.activations[j].session)
    && (forall session :: Activated(s, session) <==> Complete(s, session))
  }

  ghost predicate Replicas(s: State)
    requires Domains(s)
  {
    && Partial(s.keys, s.coord)
    && (forall w :: w in s.worker ==> Partial(s.keys, s.worker[w]))
    && (forall session :: CoordOk(s, session))
    && (forall w, session :: w in s.worker ==> ReplicaOk(s, w, session))
  }

  ghost predicate Inv(s: State) {
    Domains(s) && Pending(s) && (forall w :: w in s.link ==> LinkOk(s, w)) && Replicas(s) && ActivationsOk(s)
  }

  lemma LastAfterAppend(q: seq<Notif>, n: Notif, keys: set<Key>, i: nat)
    requires i < |q|
    ensures LastOfSession(q + [n], keys, i) <==>
      LastOfSession(q, keys, i) && (n.key in keys ==> n.session != q[i].session)
  {
    var q' := q + [n];
    assert q'[|q|] == n;
    assert forall j :: 0 <= j < |q| ==> q'[j] == q[j];
  }

  lemma LastAfterDrop(q: seq<Notif>, keys: set<Key>, i: nat)
    requires i + 1 < |q|
    ensures LastOfSession(q[1..], keys, i) <==> LastOfSession(q, keys, i + 1)
  {
    assert forall j :: 0 <= j < |q| - 1 ==> q[1..][j] == q[j + 1];
    assert forall j :: 1 <= j < |q| ==> q[j] == q[1..][j - 1];
  }

  // ---------------------------------------------------------------- producing an object

  /** An object of the key set that is new anywhere leaves its session incomplete everywhere. */
  lemma FreshKey(s: State, session: Session, key: Key)
    requires Inv(s) && key in s.keys && (session, key) !in s.produced
    ensures Got(s, session) != s.keys && !Complete(s, session) && (session, key) !in s.delivered
    ensures forall w :: key !in Here(s, w, session)
  {
    assert key !in Got(s, session);
    forall w ensures key !in Here(s, w, session) {}
  }

  ghost predicate CanProduce(s: State, w: WorkerId, session: Session, key: Key) {
    Inv(s) && w in s.worker && key in s.keys && (session, key) !in s.produced
  }

  lemma ProduceFacts(s: State, w: WorkerId, session: Session, key: Key)
    requires CanProduce(s, w, session, key)
    ensures PreparedIn(s.worker[w], session) == Here(s, w, session)
    ensures BySetNext(s.keys, s.worker[w], session, key).1 <==> Here(s, w, session) + {key} == s.keys
    ensures Partial(s.keys, BySetNext(s.keys, s.worker[w], session, key).0)
  {
    FreshKey(s, session, key);
    assert ReplicaOk(s, w, session);
    BySetFiresWhenComplete(s.keys, s.worker[w], session, key);
  }

  lemma ProduceSets(s: State, w: WorkerId, session: Session, key: Key, v: WorkerId, ses: Session)
    requires w in s.worker && w in s.link && key in s.keys && (session, key) !in s.produced
    ensures var s' := DoProduce(s, w, session, key);
      && Got(s', ses) == Got(s, ses)
      && Here(s', v, ses) == if v == w && ses == session then Here(s, w, session) + {key} else Here(s, v, ses)
  {
    hide BySetNext;
    var s' := DoProduce(s, w, session, key);
    var h := if v == w && ses == session then Here(s, w, session) + {key} else Here(s, v, ses);
    forall k ensures k in Here(s', v, ses) <==> k in h {}
    assert Got(s', ses) == Got(s, ses);
  }

  lemma ProducePending(s: State, w: WorkerId, session: Session, key: Key)
    requires CanProduce(s, w, session, key)
    ensures Pending(DoProduce(s, w, session, key))
  {
    hide Replicas, LinkOk, ActivationsOk;
    var s' := DoProduce(s, w, session, key);
    forall x | x in s'.produced && x !in s'.delivered ensures Queued(s'.link[s'.produced[x]], x.0, x.1) {
      var q' := s'.link[s'.produced[x]];
      if x == (session, key) {
        assert q'[|q'| - 1].session == session && q'[|q'| - 1].key == key;
      } else {
        var q := s.link[s.produced[x]];
        var i :| 0 <= i < |q| && q[i].session == x.0 && q[i].key == x.1;
        assert q'[i] == q[i];
      }
    }
  }

  lemma ProduceNotif(s: State, w: WorkerId, session: Session, key: Key, v: WorkerId, i: nat)
    requires CanProduce(s, w, session, key) && w in s.link && v in s.link && i < |DoProduce(s, w, session, key).link[v]|
    ensures NotifOk(DoProduce(s, w, session, key), v, i)
  {
    hide Inv, Here, Got, NotifOk, BySetNext;
    if i < |s.link[v]| {
      ProduceKeepsNotif(s, w, session, key, v, i);
    } else {
      ProduceNewNotif(s, w, session, key);
    }
  }

  lemma ProduceKeepsNotif(s: State, w: WorkerId, session: Session, key: Key, v: WorkerId, i: nat)
    requires CanProduce(s, w, session, key) && w in s.link && v in s.link && i < |s.link[v]|
    ensures NotifOk(DoProduce(s, w, session, key), v, i)
  {
    hide Replicas, Pending, ActivationsOk, Here, Got, DistinctNotifs, LastOfSession, BySetNext;
    var s' := DoProduce(s, w, session, key);
    var q, q' := s.link[v], s'.link[v];
    assert LinkOk(s, v);
    assert NotifOk(s, v, i) && q'[i] == q[i];
    ProduceSets(s, w, session, key, v, q[i].session);
    FreshKey(s, session, key);
    if v == w { LastAfterAppend(q, q'[|q|], s.keys, i); }
  }

  lemma ProduceNewNotif(s: State, w: WorkerId, session: Session, key: Key)
    requires CanProduce(s, w, session, key) && w in s.link
    ensures NotifOk(DoProduce(s, w, session, key), w, |s.link[w]|)
  {
    hide Inv, Here, Got, BySetNext;
    ProduceSets(s, w, session, key, w, session);
    FreshKey(s, session, key);
    ProduceFacts(s, w, session, key);
  }

  lemma ProduceLink(s: State, w: WorkerId, session: Session, key: Key, v: WorkerId)
    requires CanProduce(s, w, session, key) && v in s.link
    ensures LinkOk(DoProduce(s, w, session, key), v)
  {
    hide Replicas, Pending, ActivationsOk, Here, Got, LastOfSession;
    var s' := DoProduce(s, w, session, key);
    var q, q' := s.link[v], s'.link[v];
    assert LinkOk(s, v);
    forall i | 0 <= i < |q'| ensures NotifOk(s', v, i) {
      ProduceNotif(s, w, session, key, v, i);
    }
    forall i, j | 0 <= i < j < |q'| && q'[i].key in s.keys && q'[i].session == q'[j].session ensures q'[i].key != q'[j].key {
      assert NotifOk(s, v, i);
    }
  }

  lemma ReplicasAgree(s: State, v: WorkerId, ses: Session)
    requires Inv(s)
    ensures CoordOk(s, ses) && (v in s.worker ==> v in s.clears && ReplicaOk(s, v, ses) && Partial(s.keys, s.worker[v]))
  {
  }

  lemma ProduceReplica(s: State, w: WorkerId, session: Session, key: Key, v: WorkerId, ses: Session)
    requires CanProduce(s, w, session, key) && v in s.worker && v in s.clears && w in s.link
    ensures v in DoProduce(s, w, session, key).worker
    ensures ReplicaOk(DoProduce(s, w, session, key), v, ses) && CoordOk(DoProduce(s, w, session, key), ses)
    ensures Partial(s.keys, DoProduce(s, w, session, key).worker[v])
  {
    hide Inv, Here, Got, Partial;
    ReplicasAgree(s, v, ses);
    ProduceFacts(s, w, session, key);
    FreshKey(s, session, key);
    ProduceSets(s, w, session, key, v, ses);
  }

  lemma ProduceReplicas(s: State, w: WorkerId, session: Session, key: Key)
    requires CanProduce(s, w, session, key)
    ensures Replicas(DoProduce(s, w, session, key))
  {
    hide Pending, LinkOk, ActivationsOk, ReplicaOk, CoordOk, Partial;
    var s' := DoProduce(s, w, session, key);
    assert s'.coord == s.coord && s'.keys == s.keys && Partial(s.keys, s.coord);
    forall ses ensures CoordOk(s', ses) {
      ProduceReplica(s, w, session, key, w, ses);
    }
    forall v | v in s'.worker ensures Partial(s.keys, s'.worker[v]) {
      ProduceReplica(s, w, session, key, v, session);
    }
    forall v, ses | v in s'.worker ensures ReplicaOk(s', v, ses) {
      ProduceReplica(s, w, session, key, v, ses);
    }
  }

  lemma ProduceActivations(s: State, w: WorkerId, session: Session, key: Key)
    requires CanProduce(s, w, session, key)
    ensures ActivationsOk(DoProduce(s, w, session, key))
  {
    hide Replicas, LinkOk, Pending;
    var s' := DoProduce(s, w, session, key);
    ProduceFacts(s, w, session, key);
    FreshKey(s, session, key);
    var fires := Here(s, w, session) + {key} == s.keys;
    forall ses ensures Complete(s', ses) <==> Complete(s, ses) || (fires && ses == session) {
      ProduceCompletes(s, w, session, key, ses);
    }
    forall ses ensures Activated(s', ses) <==> Activated(s, ses) || (fires && ses == session) {
      AppendActivation(s, s', ses);
    }
  }

  lemma AppendActivation(s: State, s': State, ses: Session)
    requires s'.activations == s.activations ||
             (|s'.activations| == |s.activations| + 1 && s'.activations[..|s.activations|] == s.activations)
    ensures Activated(s', ses) <==>
      Activated(s, ses) || (|s'.activations| > |s.activations| && s'.activations[|s.activations|].session == ses)
  {
    if Activated(s, ses) {
      var i :| 0 <= i < |s.activations| && s.activations[i].session == ses;
      assert s'.activations[i] == s.activations[i];
    }
    if Activated(s', ses) {
      var i :| 0 <= i < |s'.activations| && s'.activations[i].session == ses;
      if i < |s.activations| { assert s.activations[i] == s'.activations[i]; }
    }
  }

  lemma ProduceCompletes(s: State, w: WorkerId, session: Session, key: Key, ses: Session)
    requires CanProduce(s, w, session, key)
    ensures Complete(DoProduce(s, w, session, key), ses) <==>
      Complete(s, ses) || (ses == session && Here(s, w, session) + {key} == s.keys)
  {
    hide Replicas, LinkOk, ActivationsOk;
    var s' := DoProduce(s, w, session, key);
    FreshKey(s, session, key);
    forall v ensures Got(s', ses) == Got(s, ses) && Here(s', v, ses) ==
      (if v == w && ses == session then Here(s, w, session) + {key} else Here(s, v, ses)) {
      ProduceSets(s, w, session, key, v, ses);
    }
    assert s'.worker.Keys == s.worker.Keys;
  }

  lemma ProduceKeepsInv(s: State, w: WorkerId, session: Session, key: Key)
    requires CanProduce(s, w, session, key)
    ensures Inv(DoProduce(s, w, session, key))
  {
    hide Pending, LinkOk, Replicas, ActivationsOk;
    ProducePending(s, w, session, key);
    ProduceReplicas(s, w, session, key);
    ProduceActivations(s, w, session, key);
    forall v | v in s.link ensures LinkOk(DoProduce(s, w, session, key), v) {
      ProduceLink(s, w, session, key, v);
    }
  }

  /** An object outside the key set only adds an inactive notification. */
  lemma ProduceOtherKeepsInv(s: State, w: WorkerId, session: Session, key: Key)
    requires Inv(s) && w in s.worker && key !in s.keys
    ensures Inv(DoProduce(s, w, session, key))
  {
    hide Replicas, ActivationsOk, LinkOk, Pending;
    var s' := DoProduce(s, w, session, key);
    assert s'.worker == s.worker;
    SameActivations(s, s');
    SameReplicas(s, s');
    forall v | v in s.link ensures LinkOk(s', v) {
      ProduceOtherLink(s, w, session, key, v);
    }
    ProduceOtherPending(s, w, session, key);
  }

  lemma ProduceOtherLink(s: State, w: WorkerId, session: Session, key: Key, v: WorkerId)
    requires Inv(s) && w in s.worker && key !in s.keys && w in s.link && v in s.link
    ensures LinkOk(DoProduce(s, w, session, key), v)
  {
    hide Replicas, ActivationsOk, Pending;
    var s' := DoProduce(s, w, session, key);
    assert LinkOk(s, v);
    var q, q' := s.link[v], s'.link[v];
    forall i | 0 <= i < |q'| ensures NotifOk(s', v, i) {
      if i < |q| {
        assert NotifOk(s, v, i) && q'[i] == q[i];
        if v == w { LastAfterAppend(q, q'[|q|], s.keys, i); }
      }
    }
  }

  lemma ProduceOtherPending(s: State, w: WorkerId, session: Session, key: Key)
    requires Inv(s) && w in s.worker && key !in s.keys && w in s.link
    ensures Pending(DoProduce(s, w, session, key))
  {
    hide Replicas, ActivationsOk, LinkOk;
    var s' := DoProduce(s, w, session, key);
    forall x | x in s.produced && x !in s.delivered ensures Queued(s'.link[s.produced[x]], x.0, x.1) {
      var q, q' := s.link[s.produced[x]], s'.link[s.produced[x]];
      var i :| 0 <= i < |q| && q[i].session == x.0 && q[i].key == x.1;
      assert q'[i] == q[i];
    }
  }

  /** Activations depend on the rest of the state only through the history. */
  lemma SameActivations(s: State, s': State)
    requires s'.keys == s.keys && s'.produced == s.produced && s'.delivered == s.delivered
    requires s'.worker.Keys == s.worker.Keys && s'.activations == s.activations && ActivationsOk(s)
    ensures ActivationsOk(s')
    ensures forall w, ses :: Here(s', w, ses) == Here(s, w, ses) && Got(s', ses) == Got(s, ses)
  {
    forall w, ses ensures Here(s', w, ses) == Here(s, w, ses) && Got(s', ses) == Got(s, ses) {}
    forall ses ensures (Activated(s', ses) <==> Activated(s, ses)) && (Complete(s', ses) <==> Complete(s, ses)) {}
  }

  /** So do the replicas, beside their own state. */
  lemma SameReplicas(s: State, s': State)
    requires Domains(s) && Domains(s') && s'.keys == s.keys && s'.produced == s.produced && s'.delivered == s.delivered
    requires s'.worker == s.worker && s'.coord == s.coord && s'.clears == s.clears && Replicas(s)
    ensures Replicas(s')
  {
    forall w, ses ensures Here(s', w, ses) == Here(s, w, ses) && Got(s', ses) == Got(s, ses) {}
    forall ses ensures CoordOk(s', ses) { assert CoordOk(s, ses); }
    forall w, ses | w in s.worker ensures ReplicaOk(s', w, ses) { assert ReplicaOk(s, w, ses); }
  }

  // ---------------------------------------------------------------- delivering a notification

  ghost predicate CanDeliver(s: State, w: WorkerId) {
    Inv(s) && w in s.link && s.link[w] != [] && s.link[w][0].key in s.keys
  }

  lemma DeliverFacts(s: State, w: WorkerId)
    requires CanDeliver(s, w)
    ensures var n := s.link[w][0];
      && n.key !in Got(s, n.session) && n.key in Here(s, w, n.session)
      && PreparedIn(s.coord, n.session) == Got(s, n.session)
      && (BySetNext(s.keys, s.coord, n.session, n.key).1 <==> Got(s, n.session) + {n.key} == s.keys)
      && Partial(s.keys, BySetNext(s.keys, s.coord, n.session, n.key).0)
      && (n.session, n.key) in s.produced && s.produced[(n.session, n.key)] == w
  {
    var n := s.link[w][0];
    assert LinkOk(s, w);
    assert NotifOk(s, w, 0);
    assert CoordOk(s, n.session);
    assert n.key !in Got(s, n.session);
    BySetFiresWhenComplete(s.keys, s.coord, n.session, n.key);
  }

  lemma DeliverSets(s: State, w: WorkerId, v: WorkerId, ses: Session)
    requires w in s.link && s.link[w] != [] && s.link[w][0].key in s.keys
    ensures var s' := DoDeliver(s, w); var n := s.link[w][0];
      && Here(s', v, ses) == Here(s, v, ses)
      && Got(s', ses) == if ses == n.session then Got(s, ses) + {n.key} else Got(s, ses)
  {
    var s' := DoDeliver(s, w);
    var n := s.link[w][0];
    var g := if ses == n.session then Got(s, ses) + {n.key} else Got(s, ses);
    forall k ensures k in Got(s', ses) <==> k in g {}
    assert Here(s', v, ses) == Here(s, v, ses);
  }

  /**
    When the notification completes the session at the coordinator, the worker's own replica
    fired on it exactly if all keys of the session were produced there.
   */
  lemma ActiveMeansAllHere(s: State, w: WorkerId)
    requires CanDeliver(s, w)
    requires Got(s, s.link[w][0].session) + {s.link[w][0].key} == s.keys
    ensures s.link[w][0].active <==> Here(s, w, s.link[w][0].session) == s.keys
  {
    var q, n := s.link[w], s.link[w][0];
    assert LinkOk(s, w);
    assert NotifOk(s, w, 0);
    forall j | 0 < j < |q| && q[j].session == n.session ensures q[j].key !in s.keys {
      assert NotifOk(s, w, j);
    }
  }

  lemma StillQueued(s: State, w: WorkerId, x: (Session, Key))
    requires CanDeliver(s, w) && x in s.produced && s.produced[x] in s.link
    requires x !in DoDeliver(s, w).delivered && x !in s.delivered
    ensures Queued(DoDeliver(s, w).link[s.produced[x]], x.0, x.1)
  {
    hide Replicas, LinkOk, ActivationsOk, BySetNext;
    var q, q' := s.link[s.produced[x]], DoDeliver(s, w).link[s.produced[x]];
    assert Queued(q, x.0, x.1);
    var i :| 0 <= i < |q| && q[i].session == x.0 && q[i].key == x.1;
    if s.produced[x] == w { assert q'[i - 1] == q[i]; }
  }

  lemma DeliverPending(s: State, w: WorkerId)
    requires CanDeliver(s, w)
    ensures Pending(DoDeliver(s, w))
  {
    hide Replicas, LinkOk, ActivationsOk, BySetNext, Here, Got, Queued;
    var s' := DoDeliver(s, w);
    DeliverFacts(s, w);
    forall x | x in s'.produced && x !in s'.delivered ensures Queued(s'.link[s'.produced[x]], x.0, x.1) {
      StillQueued(s, w, x);
    }
  }

  lemma DeliverNotif(s: State, w: WorkerId, v: WorkerId, i: nat)
    requires CanDeliver(s, w) && v in s.link && i < |DoDeliver(s, w).link[v]|
    ensures NotifOk(DoDeliver(s, w), v, i)
  {
    hide Replicas, ActivationsOk, Pending, BySetNext, Here, Got, LastOfSession;
    var s' := DoDeliver(s, w);
    var q, q', d := s.link[v], s'.link[v], if v == w then 1 else 0;
    assert LinkOk(s, v);
    DeliverFacts(s, w);
    assert q'[i] == q[i + d];
    assert NotifOk(s, v, i + d);
    DeliverSets(s, w, v, q'[i].session);
    if v == w { LastAfterDrop(q, s.keys, i); }
  }

  lemma DeliverLink(s: State, w: WorkerId, v: WorkerId)
    requires CanDeliver(s, w) && v in s.link
    ensures LinkOk(DoDeliver(s, w), v)
  {
    hide Replicas, ActivationsOk, Pending, BySetNext, NotifOk;
    var s' := DoDeliver(s, w);
    assert LinkOk(s, v);
    forall i | 0 <= i < |s'.link[v]| ensures NotifOk(s', v, i) {
      DeliverNotif(s, w, v, i);
    }
  }

  lemma DeliverReplicas(s: State, w: WorkerId)
    requires CanDeliver(s, w)
    ensures Replicas(DoDeliver(s, w))
  {
    hide ActivationsOk, LinkOk, Pending, ReplicaOk, CoordOk;
    var s' := DoDeliver(s, w);
    DeliverFacts(s, w);
    forall ses ensures CoordOk(s', ses) {
      DeliverCoord(s, w, ses);
    }
    forall v, ses | v in s'.worker ensures ReplicaOk(s', v, ses) {
      DeliverReplica(s, w, v, ses);
    }
  }

  lemma DeliverCoord(s: State, w: WorkerId, ses: Session)
    requires CanDeliver(s, w)
    ensures CoordOk(DoDeliver(s, w), ses)
  {
    hide Inv, Here, Got;
    DeliverFacts(s, w);
    DeliverSets(s, w, w, ses);
    ReplicasAgree(s, w, ses);
  }

  /** The order to forget a session reaches every worker that still remembers it. */
  lemma DeliverReplica(s: State, w: WorkerId, v: WorkerId, ses: Session)
    requires CanDeliver(s, w) && v in s.worker && v in s.clears
    ensures v in DoDeliver(s, w).clears && ReplicaOk(DoDeliver(s, w), v, ses)
  {
    hide Inv, Here, Got;
    var s', n := DoDeliver(s, w), s.link[w][0];
    DeliverFacts(s, w);
    DeliverSets(s, w, v, ses);
    ReplicasAgree(s, v, ses);
    if ses == n.session && Got(s', ses) == s.keys && ses in s.worker[v] {
      ActiveMeansAllHere(s, w);
      RememberedMeansNotified(s, w, v, ses);
    }
  }

  /** A worker that holds part of a session all of whose keys were delivered is known to the coordinator. */
  lemma RememberedMeansNotified(s: State, w: WorkerId, v: WorkerId, ses: Session)
    requires CanDeliver(s, w) && v in s.worker && ses in s.worker[v] && Got(DoDeliver(s, w), ses) == s.keys
    ensures v in s.nodes + {w} && Here(s, w, ses) != s.keys
  {
    var s' := DoDeliver(s, w);
    ReplicasAgree(s, v, ses);
    var k :| k in s.worker[v][ses];
    assert k in Here(s, v, ses) && k in Got(s', ses);
    DeliverPending(s, w);
    assert (ses, k) in s'.delivered;
  }

  lemma DeliverActivations(s: State, w: WorkerId)
    requires CanDeliver(s, w)
    ensures ActivationsOk(DoDeliver(s, w))
  {
    hide Replicas, LinkOk, Pending, BySetNext;
    var s', n := DoDeliver(s, w), s.link[w][0];
    DeliverFacts(s, w);
    var fires := Got(s, n.session) + {n.key} == s.keys;
    if fires { ActiveMeansAllHere(s, w); }
    assert Complete(s, n.session) <==> exists v :: v in s.worker && Here(s, v, n.session) == s.keys;
    forall v | v in s.worker && Here(s, v, n.session) == s.keys ensures v == w {
      assert n.key in Here(s, v, n.session);
    }
    forall ses ensures Complete(s', ses) <==> Complete(s, ses) || (fires && ses == n.session) {
      DeliverCompletes(s, w, ses);
    }
    forall ses ensures Activated(s', ses) <==> Activated(s, ses) || (fires && !n.active && ses == n.session) {
      AppendActivation(s, s', ses);
    }
  }

  lemma DeliverCompletes(s: State, w: WorkerId, ses: Session)
    requires CanDeliver(s, w)
    ensures var n := s.link[w][0];
      Complete(DoDeliver(s, w), ses) <==> Complete(s, ses) || (ses == n.session && Got(s, ses) + {n.key} == s.keys)
  {
    hide Replicas, LinkOk, ActivationsOk, Pending;
    var s' := DoDeliver(s, w);
    DeliverFacts(s, w);
    forall v ensures Here(s', v, ses) == Here(s, v, ses) {
      DeliverSets(s, w, v, ses);
    }
    DeliverSets(s, w, w, ses);
    assert s'.worker == s.worker;
  }

  lemma DeliverKeepsInv(s: State, w: WorkerId)
    requires CanDeliver(s, w)
    ensures Inv(DoDeliver(s, w))
  {
    hide Pending, LinkOk, Replicas, ActivationsOk;
    DeliverPending(s, w);
    DeliverReplicas(s, w);
    DeliverActivations(s, w);
    forall v | v in s.link ensures LinkOk(DoDeliver(s, w), v) {
      DeliverLink(s, w, v);
    }
  }

  lemma DeliverOtherKeepsInv(s: State, w: WorkerId)
    requires Inv(s) && w in s.link && s.link[w] != [] && s.link[w][0].key !in s.keys
    ensures Inv(DoDeliver(s, w))
  {
    hide Replicas, ActivationsOk, LinkOk, Pending;
    var s' := DoDeliver(s, w);
    SameActivations(s, s');
    SameReplicas(s, s');
    forall v | v in s.link ensures LinkOk(s', v) {
      DeliverOtherLink(s, w, v);
    }
    DeliverOtherPending(s, w);
  }

  lemma DeliverOtherLink(s: State, w: WorkerId, v: WorkerId)
    requires Inv(s) && w in s.link && s.link[w] != [] && s.link[w][0].key !in s.keys && v in s.link
    ensures LinkOk(DoDeliver(s, w), v)
  {
    hide Replicas, ActivationsOk, Pending;
    var s' := DoDeliver(s, w);
    assert LinkOk(s, v);
    var q, q' := s.link[v], s'.link[v];
    var d := if v == w then 1 else 0;
    forall i | 0 <= i < |q'| ensures NotifOk(s', v, i) {
      assert q'[i] == q[i + d];
      assert NotifOk(s, v, i + d);
      if v == w { LastAfterDrop(q, s.keys, i); }
    }
  }

  lemma DeliverOtherPending(s: State, w: WorkerId)
    requires Inv(s) && w in s.link && s.link[w] != [] && s.link[w][0].key !in s.keys
    ensures Pending(DoDeliver(s, w))
  {
    hide Replicas, ActivationsOk, LinkOk;
    var s' := DoDeliver(s, w);
    forall x | x in s.produced && x !in s.delivered ensures Queued(s'.link[s.produced[x]], x.0, x.1) {
      var q, q' := s.link[s.produced[x]], s'.link[s.produced[x]];
      var i :| 0 <= i < |q| && q[i].session == x.0 && q[i].key == x.1;
      if s.produced[x] == w { assert q'[i - 1] == q[i]; }
    }
  }

  // ---------------------------------------------------------------- forgetting a session

  lemma ClearReplica(s: State, w: WorkerId, session: Session, v: WorkerId, ses: Session)
    requires Inv(s) && w in s.clears && w in s.worker && session in s.clears[w] && v in s.worker && v in s.clears
    ensures ReplicaOk(DoClear(s, w, session), v, ses)
  {
    hide ActivationsOk, LinkOk, Pending, CoordOk, Partial;
    assert ReplicaOk(s, v, ses);
    assert ReplicaOk(s, w, session);
    var s' := DoClear(s, w, session);
    assert Here(s', v, ses) == Here(s, v, ses) && Got(s', ses) == Got(s, ses);
  }

  lemma ClearReplicas(s: State, w: WorkerId, session: Session)
    requires Inv(s) && w in s.clears && w in s.worker && session in s.clears[w]
    ensures Domains(DoClear(s, w, session)) && Replicas(DoClear(s, w, session))
  {
    hide ActivationsOk, LinkOk, Pending, ReplicaOk, CoordOk, Partial;
    var s' := DoClear(s, w, session);
    forall v, ses | v in s'.worker ensures ReplicaOk(s', v, ses) {
      ClearReplica(s, w, session, v, ses);
    }
    forall ses ensures CoordOk(s', ses) { ClearCoord(s, w, session, ses); }
    forall v | v in s'.worker ensures Partial(s.keys, s'.worker[v]) { ForgetPartial(s.keys, s.worker[v], session); }
  }

  lemma ClearCoord(s: State, w: WorkerId, session: Session, ses: Session)
    requires w in s.clears && w in s.worker && CoordOk(s, ses)
    ensures CoordOk(DoClear(s, w, session), ses)
  {
    assert Got(DoClear(s, w, session), ses) == Got(s, ses);
  }

  lemma ForgetPartial(keys: set<Key>, p: Prepared, session: Session)
    requires Partial(keys, p)
    ensures Partial(keys, p - {session})
  {
  }

  lemma ClearKeepsInv(s: State, w: WorkerId, session: Session)
    requires Inv(s) && w in s.clears && session in s.clears[w]
    ensures Inv(DoClear(s, w, session))
  {
    hide Replicas, ActivationsOk, LinkOk;
    var s' := DoClear(s, w, session);
    ClearReplicas(s, w, session);
    SameActivations(s, s');
    forall v | v in s.link ensures LinkOk(s', v) { SameLink(s, s', v); }
  }

  /** So do the links. */
  lemma SameLink(s: State, s': State, v: WorkerId)
    requires s'.keys == s.keys && s'.produced == s.produced && s'.delivered == s.delivered && s'.link == s.link
    requires v in s.link && LinkOk(s, v)
    ensures LinkOk(s', v)
  {
    forall i | 0 <= i < |s.link[v]| ensures NotifOk(s', v, i) { assert NotifOk(s, v, i); }
  }

  // ---------------------------------------------------------------- theorems

  lemma InitHasInv(s: State)
    requires Init(s)
    ensures Inv(s)
  {
    forall w, ses ensures Here(s, w, ses) == {} && Got(s, ses) == {} {}
  }

  lemma ExecKeepsInv(s: State, l: Label)
    requires Inv(s)
    ensures Inv(Exec(s, l))
  {
    hide Pending, LinkOk, Replicas, ActivationsOk;
    match l
    case Produce(w, session, key) =>
      if w in s.worker {
        if key !in s.keys { ProduceOtherKeepsInv(s, w, session, key); }
        else if (session, key) !in s.produced { ProduceKeepsInv(s, w, session, key); }
      }
    case Deliver(w) =>
      if w in s.link && s.link[w] != [] {
        if s.link[w][0].key in s.keys { DeliverKeepsInv(s, w); } else { DeliverOtherKeepsInv(s, w); }
      }
    case ClearArrives(w, session) => if w in s.clears && session in s.clears[w] { ClearKeepsInv(s, w, session); }
  }

  /** The state a schedule leads to. */
  ghost function Run(s: State, sched: seq<Label>): (r: State)
    requires Inv(s)
    ensures Inv(r)
    decreases |sched|
  {
    if sched == [] then s
    else
      ExecKeepsInv(s, sched[0]);
      Run(Exec(s, sched[0]), sched[1..])
  }

  ghost function RunFromStart(s0: State, sched: seq<Label>): (r: State)
    requires Init(s0)
    ensures Inv(r)
  {
    InitHasInv(s0);
    Run(s0, sched)
  }

  /** In every run, a session activates the trigger at most once across all workers and the coordinator,
      and never before all its keys have been produced. */
  lemma AtMostOneActivation(s0: State, sched: seq<Label>)
    requires Init(s0)
    ensures var s := RunFromStart(s0, sched);
      && (forall i, j :: 0 <= i < j < |s.activations| ==> s.activations[i].session != s.activations[j].session)
      && (forall i, k :: 0 <= i < |s.activations| && k in s.keys ==> (s.activations[i].session, k) in s.produced)
  {
    var s := RunFromStart(s0, sched);
    forall i | 0 <= i < |s.activations| ensures forall k :: k in s.keys ==> (s.activations[i].session, k) in s.produced {
      AllKeysProduced(s, s.activations[i].session);
    }
  }

  lemma AllKeysProduced(s: State, session: Session)
    requires Inv(s) && Activated(s, session)
    ensures forall k :: k in s.keys ==> (session, k) in s.produced
  {
    assert Complete(s, session);
    forall k | k in s.keys ensures (session, k) in s.produced {
      if Got(s, session) == s.keys {
        assert k in Got(s, session);
      } else {
        var w :| w in s.worker && Here(s, w, session) == s.keys;
        assert k in Here(s, w, session);
      }
    }
  }

  ghost predicate AllDelivered(s: State) {
    forall w :: w in s.link ==> s.link[w] == []
  }

  /**
    Once all keys of a session are produced and all notifications delivered, it has activated exactly once,
    and when the orders to forget it have arrived no replica remembers it.
   */
  lemma ExactlyOneActivation(s0: State, sched: seq<Label>, session: Session)
    requires Init(s0) && AllDelivered(RunFromStart(s0, sched))
    requires forall k :: k in RunFromStart(s0, sched).keys ==> (session, k) in RunFromStart(s0, sched).produced
    ensures var s := RunFromStart(s0, sched);
      && Activated(s, session)
      && (forall i, j :: 0 <= i < j < |s.activations| ==> s.activations[i].session != s.activations[j].session)
      && session !in s.coord
      && (forall w :: w in s.worker && session !in s.clears[w] ==> session !in s.worker[w])
  {
    var s := RunFromStart(s0, sched);
    forall k | k in s.keys ensures k in Got(s, session) {
    }
    assert Got(s, session) == s.keys;
    assert Complete(s, session);
    assert CoordOk(s, session);
    forall w | w in s.worker && session !in s.clears[w] ensures session !in s.worker[w] { assert ReplicaOk(s, w, session); }
  }

  // ---------------------------------------------------------------- where a session activates

  /** A worker activates a session exactly if it produced all keys itself; otherwise the coordinator does. */
  ghost predicate SiteOk(s: State, a: Activation) {
    match a.site
    case AtWorker(w) => Here(s, w, a.session) == s.keys
    case AtCoordinator => forall w :: Here(s, w, a.session) != s.keys
  }

  ghost predicate SitesOk(s: State) {
    forall i :: 0 <= i < |s.activations| ==> SiteOk(s, s.activations[i])
  }

  lemma SiteStays(s: State, s': State, a: Activation)
    requires SiteOk(s, a) && s'.keys == s.keys && forall w :: Here(s', w, a.session) == Here(s, w, a.session)
    ensures SiteOk(s', a)
  {
  }

  lemma ProduceKeepsSites(s: State, w: WorkerId, session: Session, key: Key)
    requires CanProduce(s, w, session, key) && w in s.link && SitesOk(s)
    ensures SitesOk(DoProduce(s, w, session, key))
  {
    hide Replicas, LinkOk, Pending, ActivationsOk, Here, Got, BySetNext, SiteOk;
    var s' := DoProduce(s, w, session, key);
    forall i | 0 <= i < |s'.activations| ensures SiteOk(s', s'.activations[i]) {
      var a := s'.activations[i];
      if i < |s.activations| {
        assert a == s.activations[i];
        assert a.session != session by { ActivatedIsOld(s, i, session, key); }
        forall v ensures Here(s', v, a.session) == Here(s, v, a.session) { ProduceSets(s, w, session, key, v, a.session); }
        SiteStays(s, s', a);
      } else {
        ProduceSets(s, w, session, key, w, session);
        ProduceFacts(s, w, session, key);
        AllHere(s', w, session);
      }
    }
  }

  lemma AllHere(s: State, w: WorkerId, session: Session)
    requires Here(s, w, session) == s.keys
    ensures SiteOk(s, Activation(AtWorker(w), session))
  {
  }

  lemma ActivatedIsOld(s: State, i: nat, session: Session, key: Key)
    requires Inv(s) && i < |s.activations| && key in s.keys && (session, key) !in s.produced
    ensures s.activations[i].session != session
  {
    hide Replicas, LinkOk, Pending;
    FreshKey(s, session, key);
    assert Activated(s, s.activations[i].session);
  }

  lemma DeliverKeepsSites(s: State, w: WorkerId)
    requires CanDeliver(s, w) && SitesOk(s)
    ensures SitesOk(DoDeliver(s, w))
  {
    hide Replicas, LinkOk, Pending, ActivationsOk, Here, Got, BySetNext, SiteOk;
    var s', n := DoDeliver(s, w), s.link[w][0];
    forall v, ses ensures Here(s', v, ses) == Here(s, v, ses) { DeliverSets(s, w, v, ses); }
    DeliverFacts(s, w);
    forall i | 0 <= i < |s'.activations| ensures SiteOk(s', s'.activations[i]) {
      if i < |s.activations| {
        SiteStays(s, s', s.activations[i]);
      } else {
        ActiveMeansAllHere(s, w);
        NobodyHasAll(s, w, n.session, n.key);
        SiteStays(s, s', Activation(AtCoordinator, n.session));
      }
    }
  }

  lemma NobodyHasAll(s: State, w: WorkerId, session: Session, key: Key)
    requires key in Here(s, w, session) && Here(s, w, session) != s.keys
    ensures SiteOk(s, Activation(AtCoordinator, session))
  {
    forall v ensures Here(s, v, session) != s.keys {
      if v != w { assert key !in Here(s, v, session) && key in s.keys; }
    }
  }

  lemma ExecKeepsSites(s: State, l: Label)
    requires Inv(s) && SitesOk(s)
    ensures SitesOk(Exec(s, l))
  {
    hide Replicas, LinkOk, Pending, ActivationsOk, SiteOk, BySetNext;
    var s' := Exec(s, l);
    if l.Produce? && l.w in s.worker && l.key in s.keys && (l.session, l.key) !in s.produced {
      ProduceKeepsSites(s, l.w, l.session, l.key);
    } else if l.Deliver? && l.w in s.link && s.link[l.w] != [] && s.link[l.w][0].key in s.keys {
      DeliverKeepsSites(s, l.w);
    } else {
      NothingActivates(s, l);
      forall i | 0 <= i < |s'.activations| ensures SiteOk(s', s'.activations[i]) {
        forall v, ses ensures Here(s', v, ses) == Here(s, v, ses) {}
        SiteStays(s, s', s.activations[i]);
      }
    }
  }

  lemma NothingActivates(s: State, l: Label)
    requires Domains(s)
    requires !(l.Produce? && l.w in s.worker && l.key in s.keys && (l.session, l.key) !in s.produced)
    requires !(l.Deliver? && l.w in s.link && s.link[l.w] != [] && s.link[l.w][0].key in s.keys)
    ensures var s' := Exec(s, l); s'.activations == s.activations && s'.produced == s.produced && s'.keys == s.keys
  {
  }

  lemma {:induction false} RunKeepsSites(s: State, sched: seq<Label>)
    requires Inv(s) && SitesOk(s)
    ensures SitesOk(Run(s, sched))
    decreases |sched|
  {
    hide Pending, LinkOk, Replicas, ActivationsOk, SitesOk, Exec;
    if sched != [] {
      ExecKeepsInv(s, sched[0]);
      ExecKeepsSites(s, sched[0]);
      RunKeepsSites(Exec(s, sched[0]), sched[1..]);
    }
  }

  /** In every run a session activates at a worker exactly if all its keys were produced there, else at the coordinator. */
  lemma ActivationSite(s0: State, sched: seq<Label>, i: nat, w: WorkerId)
    requires Init(s0) && i < |RunFromStart(s0, sched).activations|
    ensures var s := RunFromStart(s0, sched); var a := s.activations[i];
      && (a.site == AtWorker(w) <==> forall k :: k in s.keys ==> (a.session, k) in s.produced && s.produced[(a.session, k)] == w)
      && (a.site.AtCoordinator? <==> forall v :: a.site != AtWorker(v))
  {
    InitHasInv(s0);
    hide Inv, Run;
    RunKeepsSites(s0, sched);
    var s := RunFromStart(s0, sched);
    SiteMeaning(s, s.activations[i], w);
  }

  lemma SiteMeaning(s: State, a: Activation, w: WorkerId)
    requires s.keys != {} && SiteOk(s, a)
    ensures a.site == AtWorker(w) <==> forall k :: k in s.keys ==> (a.session, k) in s.produced && s.produced[(a.session, k)] == w
  {
    assert Here(s, w, a.session) == s.keys <==>
      forall k :: k in s.keys ==> k in Here(s, w, a.session);
    if a.site.AtWorker? && a.site.id != w {
      var k :| k in s.keys;
      assert k in Here(s, a.site.id, a.session);
    }
  }
}
