/**
  How the local scheduler holds back a call until the objects it names are on the
  node. Two tables mirror each other: for each call the keys still missing, and for
  each key the calls that wait for it.

  A function call whose arguments are keys, a data response, and an object stored
  locally are the events of the scheduler's loop that touch these tables.
 */
module ArgJoin {

  type Key = string

  /** A call whose arguments are keys. */
  datatype Call = Call(func: string, session: string, flag: nat, keys: seq<Key>)

  datatype Waiting = Waiting(call: Call, missing: set<Key>)

  /** A call handed to an executor, with the length of each of its objects. */
  datatype Dispatch = Dispatch(id: nat, call: Call, lengths: seq<nat>)

  /** `issued` is history: the call behind each call id that took the key path. */
  datatype State = State(
    keyLen: map<Key, nat>,
    keyCalls: map<Key, set<nat>>,
    inflight: map<nat, Waiting>,
    callId: nat,
    fetches: seq<Key>,
    dispatched: seq<Dispatch>,
    issued: map<nat, Call>)

  datatype Event =
    | KeyCall(call: Call)
    | DataResponse(key: Key, size: nat)
    | StoredLocally(key: Key, size: nat)
    | SkipIds(n: nat)

  // ---------------------------------------------------------------- what each event does

  function Absent(keyLen: map<Key, nat>, keys: seq<Key>): set<Key> {
    set k | k in keys && k !in keyLen
  }

  function Calls(keyCalls: map<Key, set<nat>>, k: Key): set<nat> {
    if k in keyCalls then keyCalls[k] else {}
  }

  function Listed(keyCalls: map<Key, set<nat>>, ms: set<Key>, id: nat): map<Key, set<nat>> {
    map k | k in keyCalls.Keys + ms :: Calls(keyCalls, k) + if k in ms then {id} else {}
  }

  /** The keys to ask for: each absent key nobody waits for, at its first mention. */
  function ToFetch(keyLen: map<Key, nat>, keyCalls: map<Key, set<nat>>, keys: seq<Key>): (r: seq<Key>) {
    if keys == [] then []
    else
      var init, k := keys[..|keys| - 1], keys[|keys| - 1];
      ToFetch(keyLen, keyCalls, init) + if k in keyLen || k in keyCalls || k in init then [] else [k]
  }

  /** Indexing the table of lengths, which yields zero for an unknown key. */
  function LengthOf(keyLen: map<Key, nat>, k: Key): nat {
    if k in keyLen then keyLen[k] else 0
  }

  function Lengths(keyLen: map<Key, nat>, keys: seq<Key>): seq<nat> {
    seq(|keys|, i requires 0 <= i < |keys| => LengthOf(keyLen, keys[i]))
  }

  function OnCall(s: State, call: Call): State {
    var ms := Absent(s.keyLen, call.keys);
    var s1 := s.(callId := s.callId + 1, issued := s.issued[s.callId := call]);
    if ms == {} then s1.(dispatched := s.dispatched + [Dispatch(s.callId, call, Lengths(s.keyLen, call.keys))])
    else s1.(keyCalls := Listed(s.keyCalls, ms, s.callId),
             fetches := s.fetches + ToFetch(s.keyLen, s.keyCalls, call.keys),
             inflight := s.inflight[s.callId := Waiting(call, ms)])
  }

  /** The calls for which `k` is the last key missing. */
  function Ready(s: State, k: Key): set<nat> {
    set c | c in Calls(s.keyCalls, k) && c in s.inflight && s.inflight[c].missing <= {k}
  }

  /** Those calls in the order they are visited. */
  function ReadyInOrder(s: State, k: Key): seq<nat> {
    Pick(Ascending(Calls(s.keyCalls, k)), Ready(s, k))
  }

  function MinOf(ids: set<nat>): (m: nat)
    requires ids != {}
    ensures m in ids && forall x :: x in ids ==> m <= x
  {
    assert exists m :: m in ids && forall x :: x in ids ==> m <= x by {
      var x :| x in ids;
      MinExists(ids, x);
    }
    var m :| m in ids && forall x :: x in ids ==> m <= x;
    m
  }

  lemma {:induction false} MinExists(ids: set<nat>, x: nat)
    requires x in ids
    ensures exists m :: m in ids && forall y :: y in ids ==> m <= y
  {
    if y :| y in ids && y < x {
      MinExists(ids, y);
    } else {
      assert x in ids && forall y :: y in ids ==> x <= y;
    }
  }

  /** The iteration order of a set of ids. */
  function Ascending(ids: set<nat>): (r: seq<nat>)
    ensures forall x :: x in r <==> x in ids
    ensures Increasing(r)
    decreases |ids|
  {
    if ids == {} then [] else [MinOf(ids)] + Ascending(ids - {MinOf(ids)})
  }

  predicate Increasing(ids: seq<nat>) {
    forall i, j :: 0 <= i < j < |ids| ==> ids[i] < ids[j]
  }

  /** The ids of a sequence that are in a set, in the same order. */
  function Pick(ids: seq<nat>, ready: set<nat>): (r: seq<nat>)
    ensures forall x :: x in r <==> x in ids && x in ready
  {
    if ids == [] then []
    else Pick(ids[..|ids| - 1], ready) + if ids[|ids| - 1] in ready then [ids[|ids| - 1]] else []
  }

  lemma {:induction false} PickKeepsOrder(ids: seq<nat>, ready: set<nat>)
    requires Increasing(ids)
    ensures Increasing(Pick(ids, ready))
  {
    if ids != [] {
      var init, last := ids[..|ids| - 1], ids[|ids| - 1];
      PickKeepsOrder(init, ready);
      var r := Pick(init, ready);
      forall i | 0 <= i < |r| ensures r[i] < last {
        assert r[i] in init;
      }
    }
  }

  function DispatchOf(inflight: map<nat, Waiting>, keyLen: map<Key, nat>, c: nat): Dispatch
    requires c in inflight
  {
    Dispatch(c, inflight[c].call, Lengths(keyLen, inflight[c].call.keys))
  }

  function DispatchAll(inflight: map<nat, Waiting>, keyLen: map<Key, nat>, ids: seq<nat>): seq<Dispatch>
    requires forall c :: c in ids ==> c in inflight
  {
    seq(|ids|, i requires 0 <= i < |ids| => DispatchOf(inflight, keyLen, ids[i]))
  }

  function OnData(s: State, key: Key, size: nat): State {
    var keyLen := s.keyLen[key := size];
    var ids := Calls(s.keyCalls, key);
    var ready := Ready(s, key);
    s.(keyLen := keyLen,
       keyCalls := s.keyCalls - {key},
       inflight := map c | c in s.inflight && c !in ready ::
         if c in ids then s.inflight[c].(missing := s.inflight[c].missing - {key}) else s.inflight[c],
       dispatched := s.dispatched + DispatchAll(s.inflight, keyLen, ReadyInOrder(s, key)))
  }

  function Exec(s: State, e: Event): State {
    match e
    case KeyCall(call) => OnCall(s, call)
    case DataResponse(key, size) => OnData(s, key, size)
    case StoredLocally(key, size) => s.(keyLen := s.keyLen[key := size])
    case SkipIds(n) => s.(callId := s.callId + n)
  }

  // ---------------------------------------------------------------- invariant

  ghost predicate WaitsFor(s: State, c: nat, k: Key) {
    c in s.inflight && k in s.inflight[c].missing
  }

  /** The two tables mirror each other. */
  ghost predicate Mirror(s: State) {
    && (forall c, k :: c in Calls(s.keyCalls, k) <==> WaitsFor(s, c, k))
    && (forall k :: k in s.keyCalls ==> s.keyCalls[k] != {})
  }

  ghost predicate Dispatched(s: State, c: nat) {
    exists i :: 0 <= i < |s.dispatched| && s.dispatched[i].id == c
  }

  ghost predicate DispatchOk(s: State, d: Dispatch) {
    && d.id in s.issued && d.call == s.issued[d.id] && |d.lengths| == |d.call.keys|
    && forall k :: k in d.call.keys ==> k in s.keyLen
  }

  /** Each issued call is waiting or has been dispatched, and not both, and not twice. */
  ghost predicate Ledger(s: State) {
    && (forall c :: c in s.issued ==> c < s.callId)
    && (forall c :: c in s.issued ==> c in s.inflight || Dispatched(s, c))
    && (forall c :: c in s.inflight ==> c in s.issued && s.inflight[c].call == s.issued[c] && !Dispatched(s, c))
  }

  ghost predicate Dispatches(s: State) {
    && (forall i :: 0 <= i < |s.dispatched| ==> DispatchOk(s, s.dispatched[i]))
    && (forall i, j :: 0 <= i < j < |s.dispatched| ==> s.dispatched[i].id != s.dispatched[j].id)
  }

  /** Every key of a waiting call is missing or has a recorded length. */
  ghost predicate Accounted(s: State) {
    forall c, k :: c in s.inflight && k in s.inflight[c].call.keys ==> k in s.inflight[c].missing || k in s.keyLen
  }

  ghost predicate Missing(s: State) {
    && (forall c :: c in s.inflight ==> s.inflight[c].missing != {} && forall k :: k in s.inflight[c].missing ==> k in s.inflight[c].call.keys)
    && (forall k :: k in s.keyCalls ==> k in s.fetches)
  }

  ghost predicate Inv(s: State) {
    Mirror(s) && Ledger(s) && Dispatches(s) && Missing(s) && Accounted(s)
  }

  const START := State(map[], map[], map[], 0, [], [], map[])

  // ---------------------------------------------------------------- a call arrives

  lemma CallMirror(s: State, call: Call)
    requires Inv(s)
    ensures Mirror(OnCall(s, call))
  {
    hide Ledger, Missing, Accounted;
    var s', ms := OnCall(s, call), Absent(s.keyLen, call.keys);
    assert s.callId !in s.inflight by { IdIsNew(s); }
    if ms != {} {
      forall c, k ensures c in Calls(s'.keyCalls, k) <==> WaitsFor(s', c, k) {
        assert c in Calls(s.keyCalls, k) <==> WaitsFor(s, c, k);
      }
    }
  }

  lemma IdIsNew(s: State)
    requires Inv(s)
    ensures s.callId !in s.issued && s.callId !in s.inflight && !Dispatched(s, s.callId)
  {
  }

  lemma CallDispatches(s: State, call: Call, c: nat)
    ensures Dispatched(OnCall(s, call), c) <==> Dispatched(s, c) || (Absent(s.keyLen, call.keys) == {} && c == s.callId)
  {
    var s' := OnCall(s, call);
    if Absent(s.keyLen, call.keys) == {} { assert s'.dispatched[|s.dispatched|].id == s.callId; }
    DispatchedAfter(s, s', c);
  }

  lemma CallLedger(s: State, call: Call)
    requires Inv(s)
    ensures Ledger(OnCall(s, call))
  {
    hide Mirror, Missing, Accounted, Dispatches, Dispatched, Absent, Listed, ToFetch, Lengths;
    var s', ms := OnCall(s, call), Absent(s.keyLen, call.keys);
    IdIsNew(s);
    forall c | c in s'.issued ensures c < s'.callId && (c in s'.inflight || Dispatched(s', c)) {
      CallDispatches(s, call, c);
      if c != s.callId { assert c in s.issued; }
    }
    forall c | c in s'.inflight ensures c in s'.issued && s'.inflight[c].call == s'.issued[c] && !Dispatched(s', c) {
      CallDispatches(s, call, c);
      if c != s.callId { assert c in s.inflight; }
    }
  }

  lemma CallDispatchesOk(s: State, call: Call)
    requires Inv(s)
    ensures Dispatches(OnCall(s, call))
  {
    hide Mirror, Missing, Accounted, Ledger;
    var s', ms := OnCall(s, call), Absent(s.keyLen, call.keys);
    IdIsNew(s);
    forall i | 0 <= i < |s'.dispatched| ensures DispatchOk(s', s'.dispatched[i]) {
      if i < |s.dispatched| {
        assert DispatchOk(s, s.dispatched[i]);
      } else {
        forall k | k in call.keys ensures k in s.keyLen { assert k !in ms; }
      }
    }
    if ms == {} {
      forall i | 0 <= i < |s.dispatched| ensures s.dispatched[i].id != s.callId { assert DispatchOk(s, s.dispatched[i]); }
    }
  }

  lemma DispatchedAfter(s: State, s': State, c: nat)
    requires s.dispatched <= s'.dispatched
    ensures Dispatched(s', c) <==>
      Dispatched(s, c) || exists i :: |s.dispatched| <= i < |s'.dispatched| && s'.dispatched[i].id == c
  {
    if Dispatched(s, c) {
      var i :| 0 <= i < |s.dispatched| && s.dispatched[i].id == c;
      assert s'.dispatched[i] == s.dispatched[i];
    }
    if Dispatched(s', c) {
      var i :| 0 <= i < |s'.dispatched| && s'.dispatched[i].id == c;
      if i < |s.dispatched| { assert s.dispatched[i] == s'.dispatched[i]; }
    }
  }

  /** Exactly the absent keys nobody waited for are asked for, each once. */
  lemma {:induction false} FetchesAreNew(keyLen: map<Key, nat>, keyCalls: map<Key, set<nat>>, keys: seq<Key>)
    ensures var r := ToFetch(keyLen, keyCalls, keys);
      && (forall k :: k in r <==> k in keys && k !in keyLen && k !in keyCalls)
      && (forall i, j :: 0 <= i < j < |r| ==> r[i] != r[j])
  {
    if keys != [] { FetchesAreNew(keyLen, keyCalls, keys[..|keys| - 1]); }
  }

  lemma CallMissing(s: State, call: Call)
    requires Inv(s)
    ensures Missing(OnCall(s, call)) && Accounted(OnCall(s, call))
  {
    hide Mirror, Ledger, Dispatches, ToFetch;
    IdIsNew(s);
    FetchesAreNew(s.keyLen, s.keyCalls, call.keys);
    var s', ms := OnCall(s, call), Absent(s.keyLen, call.keys);
    forall k | k in s'.keyCalls ensures k in s'.fetches {
      if k in s.keyCalls { assert k in s.fetches; }
    }
  }

  // ---------------------------------------------------------------- an object arrives

  lemma DataMirror(s: State, key: Key, size: nat)
    requires Inv(s)
    ensures Mirror(OnData(s, key, size))
  {
    hide Ledger, Accounted;
    var s' := OnData(s, key, size);
    forall c, k ensures c in Calls(s'.keyCalls, k) <==> WaitsFor(s', c, k) {
      assert c in Calls(s.keyCalls, k) <==> WaitsFor(s, c, k);
      assert c in Calls(s.keyCalls, key) <==> WaitsFor(s, c, key);
    }
  }

  lemma DispatchHasId(inflight: map<nat, Waiting>, keyLen: map<Key, nat>, c: nat)
    requires c in inflight
    ensures DispatchOf(inflight, keyLen, c).id == c
  {
  }

  lemma DataDispatches(s: State, key: Key, size: nat, c: nat)
    requires Inv(s)
    ensures Dispatched(OnData(s, key, size), c) <==> Dispatched(s, c) || c in Ready(s, key)
  {
    hide Inv, Pick, Ascending, DispatchOf;
    var s', ids := OnData(s, key, size), ReadyInOrder(s, key);
    DispatchedAfter(s, s', c);
    var n := |s.dispatched|;
    forall i | 0 <= i < |ids| ensures s'.dispatched[n + i].id == ids[i] {
      assert ids[i] in Ready(s, key);
      DispatchHasId(s.inflight, s'.keyLen, ids[i]);
    }
    if c in ids {
      var i :| 0 <= i < |ids| && ids[i] == c;
      assert s'.dispatched[n + i].id == c;
    }
    if i :| n <= i < |s'.dispatched| && s'.dispatched[i].id == c {
      assert ids[i - n] == c;
    }
  }

  lemma DataLedger(s: State, key: Key, size: nat)
    requires Inv(s)
    ensures Ledger(OnData(s, key, size))
  {
    hide Mirror, Missing, Dispatches, Accounted, Dispatched;
    var s' := OnData(s, key, size);
    forall c ensures Dispatched(s', c) <==> Dispatched(s, c) || c in Ready(s, key) {
      DataDispatches(s, key, size, c);
    }
  }

  lemma DataDispatchesOk(s: State, key: Key, size: nat)
    requires Inv(s)
    ensures Dispatches(OnData(s, key, size))
  {
    hide Mirror, Missing, Accounted, Ledger, ReadyInOrder, DispatchOk;
    var s', ids := OnData(s, key, size), ReadyInOrder(s, key);
    var n := |s.dispatched|;
    forall i | 0 <= i < |s'.dispatched| ensures DispatchOk(s', s'.dispatched[i]) {
      if i < n { StaysOk(s, key, size, s.dispatched[i]); } else { ReadyIsDispatchable(s, key, size, ids[i - n]); }
    }
    ReadyAreNew(s, key);
    forall i, j | 0 <= i < j < |s'.dispatched| ensures s'.dispatched[i].id != s'.dispatched[j].id {
      if j >= n {
        assert s'.dispatched[j].id == ids[j - n];
        if i >= n { assert s'.dispatched[i].id == ids[i - n]; }
      }
    }
  }

  lemma StaysOk(s: State, key: Key, size: nat, d: Dispatch)
    requires DispatchOk(s, d)
    ensures DispatchOk(OnData(s, key, size), d)
  {
  }

  lemma ReadyAreNew(s: State, key: Key)
    requires Inv(s)
    ensures Increasing(ReadyInOrder(s, key))
    ensures forall i, j :: 0 <= i < |s.dispatched| && 0 <= j < |ReadyInOrder(s, key)| ==>
      s.dispatched[i].id != ReadyInOrder(s, key)[j]
  {
    hide Mirror, Missing, Accounted, Dispatches;
    var ids := ReadyInOrder(s, key);
    PickKeepsOrder(Ascending(Calls(s.keyCalls, key)), Ready(s, key));
    forall i, j | 0 <= i < |s.dispatched| && 0 <= j < |ids| ensures s.dispatched[i].id != ids[j] {
      assert Dispatched(s, s.dispatched[i].id);
      assert ids[j] in Ready(s, key);
    }
  }

  lemma ReadyIsDispatchable(s: State, key: Key, size: nat, c: nat)
    requires Inv(s) && c in ReadyInOrder(s, key)
    ensures c in s.inflight && DispatchOk(OnData(s, key, size), DispatchOf(s.inflight, s.keyLen[key := size], c))
  {
    assert c in Ready(s, key);
  }

  lemma DataMissing(s: State, key: Key, size: nat)
    requires Inv(s)
    ensures Missing(OnData(s, key, size)) && Accounted(OnData(s, key, size))
  {
    hide Ledger, Dispatches;
    var s' := OnData(s, key, size);
    forall c | c in s'.inflight ensures s'.inflight[c].missing != {} {
      if c in Calls(s.keyCalls, key) {
        var k :| k in s.inflight[c].missing && k != key;
        assert k in s'.inflight[c].missing;
      }
    }
    forall c, k | c in s'.inflight && k in s'.inflight[c].call.keys ensures k in s'.inflight[c].missing || k in s'.keyLen {
      assert k in s.inflight[c].missing || k in s.keyLen;
    }
  }

  // ---------------------------------------------------------------- all events

  lemma StoreKeepsInv(s: State, key: Key, size: nat)
    requires Inv(s)
    ensures Inv(s.(keyLen := s.keyLen[key := size]))
  {
    var s' := s.(keyLen := s.keyLen[key := size]);
    forall c ensures Dispatched(s', c) <==> Dispatched(s, c) {}
    forall c, k ensures c in Calls(s'.keyCalls, k) <==> WaitsFor(s', c, k) {
      assert c in Calls(s.keyCalls, k) <==> WaitsFor(s, c, k);
    }
    forall i | 0 <= i < |s'.dispatched| ensures DispatchOk(s', s'.dispatched[i]) { assert DispatchOk(s, s.dispatched[i]); }
  }

  lemma SkipKeepsInv(s: State, n: nat)
    requires Inv(s)
    ensures Inv(s.(callId := s.callId + n))
  {
    var s' := s.(callId := s.callId + n);
    forall c ensures Dispatched(s', c) <==> Dispatched(s, c) {}
    forall c, k ensures c in Calls(s'.keyCalls, k) <==> WaitsFor(s', c, k) {
      assert c in Calls(s.keyCalls, k) <==> WaitsFor(s, c, k);
    }
    forall i | 0 <= i < |s'.dispatched| ensures DispatchOk(s', s'.dispatched[i]) { assert DispatchOk(s, s.dispatched[i]); }
  }

  lemma ExecKeepsInv(s: State, e: Event)
    requires Inv(s)
    ensures Inv(Exec(s, e))
  {
    hide Mirror, Ledger, Dispatches, Missing, Accounted, OnCall, OnData;
    match e
    case KeyCall(call) =>
      CallMirror(s, call);
      CallLedger(s, call);
      CallDispatchesOk(s, call);
      CallMissing(s, call);
    case DataResponse(key, size) =>
      DataMirror(s, key, size);
      DataLedger(s, key, size);
      DataDispatchesOk(s, key, size);
      DataMissing(s, key, size);
    case StoredLocally(key, size) => StoreKeepsInv(s, key, size);
    case SkipIds(n) => SkipKeepsInv(s, n);
  }

  /** The state after a run of events. */
  ghost function Run(s: State, es: seq<Event>): (r: State)
    requires Inv(s)
    ensures Inv(r)
    decreases |es|
  {
    if es == [] then s
    else
      ExecKeepsInv(s, es[0]);
      Run(Exec(s, es[0]), es[1..])
  }

  // ---------------------------------------------------------------- whole runs

  /** The state after a run of events from the empty tables. */
  ghost function FromStart(es: seq<Event>): (r: State)
    ensures Inv(r)
  {
    Run(START, es)
  }

  /** In every run the tables mirror each other: `c` is listed under `k` exactly when `k` is missing for `c`. */
  lemma TablesMirror(es: seq<Event>, c: nat, k: Key)
    ensures var s := FromStart(es); c in Calls(s.keyCalls, k) <==> c in s.inflight && k in s.inflight[c].missing
  {
    var s := FromStart(es);
    assert c in Calls(s.keyCalls, k) <==> WaitsFor(s, c, k);
  }

  /** In every run each call that named keys waits or was dispatched, never both and never twice,
      and a dispatched call is the one issued, with a recorded length for each of its keys. */
  lemma EachCallOnce(es: seq<Event>)
    ensures var s := FromStart(es);
      && (forall c :: c in s.issued ==> (c in s.inflight <==> !Dispatched(s, c)))
      && (forall i, j :: 0 <= i < j < |s.dispatched| ==> s.dispatched[i].id != s.dispatched[j].id)
      && (forall i :: 0 <= i < |s.dispatched| ==> DispatchOk(s, s.dispatched[i]))
  {
    hide Mirror, Missing, Accounted;
    var s := FromStart(es);
  }

  /** A call asks for exactly those of its absent keys that no call waits for yet, each once. */
  lemma FetchWhenNobodyWaits(s: State, call: Call, k: Key)
    requires Inv(s)
    ensures var s' := OnCall(s, call); var news := s'.fetches[|s.fetches|..];
      && s.fetches <= s'.fetches && (forall i, j :: 0 <= i < j < |news| ==> news[i] != news[j])
      && (k in news <==> k in call.keys && k !in s.keyLen && forall c :: !WaitsFor(s, c, k))
  {
    hide ToFetch, Ledger, Dispatches, Missing, Accounted, Lengths;
    FetchesAreNew(s.keyLen, s.keyCalls, call.keys);
    NothingToFetch(s.keyLen, s.keyCalls, call.keys, s.callId);
    assert k in s.keyCalls <==> exists c :: WaitsFor(s, c, k) by {
      forall c ensures c in Calls(s.keyCalls, k) <==> WaitsFor(s, c, k) {}
      if k in s.keyCalls {
        var c :| c in s.keyCalls[k];
        assert WaitsFor(s, c, k);
      }
    }
    assert k in Absent(s.keyLen, call.keys) <==> k in call.keys && k !in s.keyLen;
  }

  /** Every dispatch carries, key by key, the lengths recorded when it is made. */
  lemma DispatchesCarryLengths(s: State, e: Event, i: nat, j: nat)
    requires Inv(s) && |s.dispatched| <= i < |Exec(s, e).dispatched| && j < |Exec(s, e).dispatched[i].call.keys|
    ensures var s' := Exec(s, e); var d := s'.dispatched[i];
      |d.lengths| == |d.call.keys| && d.call.keys[j] in s'.keyLen && d.lengths[j] == s'.keyLen[d.call.keys[j]]
  {
    hide Mirror, Ledger, Missing, Accounted, Pick, Ascending, Ready, Listed;
    var s' := Exec(s, e);
    ExecKeepsInv(s, e);
    assert DispatchOk(s', s'.dispatched[i]);
  }

  /** The keys answered in a run of events. */
  function Answered(es: seq<Event>): set<Key> {
    set e | e in es && e.DataResponse? :: e.key
  }

  /** A waiting call leaves the table exactly at the answer for the last of its missing keys, and is dispatched then. */
  lemma {:induction false} DispatchedAtLastAnswer(s: State, es: seq<Event>, c: nat)
    requires Inv(s) && c in s.inflight
    ensures var r := Run(s, es); var rest := s.inflight[c].missing - Answered(es);
      if rest == {} then c !in r.inflight && Dispatched(r, c)
      else c in r.inflight && r.inflight[c] == Waiting(s.inflight[c].call, rest)
    decreases |es|
  {
    if es == [] {
      assert s.inflight[c].missing - Answered(es) == s.inflight[c].missing;
    } else {
      var s1 := Exec(s, es[0]);
      ExecKeepsInv(s, es[0]);
      OneEventOnWaiting(s, es[0], c);
      assert Answered(es) == Answered([es[0]]) + Answered(es[1..]) by {
        assert forall e :: e in es <==> e in [es[0]] || e in es[1..];
      }
      if c in s1.inflight {
        DispatchedAtLastAnswer(s1, es[1..], c);
        assert s1.inflight[c].missing - Answered(es[1..]) == s.inflight[c].missing - Answered(es);
      } else {
        StaysDispatched(s1, es[1..], c);
        assert s.inflight[c].missing - Answered(es) == {};
      }
    }
  }

  lemma OneEventOnWaiting(s: State, e: Event, c: nat)
    requires Inv(s) && c in s.inflight
    ensures var r := Exec(s, e); var rest := s.inflight[c].missing - Answered([e]);
      if rest == {} then c !in r.inflight && Dispatched(r, c)
      else c in r.inflight && r.inflight[c] == Waiting(s.inflight[c].call, rest)
  {
    IdIsNew(s);
    if e.DataResponse? {
      assert Answered([e]) == {e.key};
      DataDispatches(s, e.key, e.size, c);
      assert c in Calls(s.keyCalls, e.key) <==> WaitsFor(s, c, e.key);
    } else {
      assert s.inflight[c].missing - Answered([e]) == s.inflight[c].missing;
    }
  }

  lemma {:induction false} StaysDispatched(s: State, es: seq<Event>, c: nat)
    requires Inv(s) && Dispatched(s, c)
    ensures Dispatched(Run(s, es), c) && c !in Run(s, es).inflight
    decreases |es|
  {
    if es != [] {
      ExecKeepsInv(s, es[0]);
      DispatchedAfter(s, Exec(s, es[0]), c);
      StaysDispatched(Exec(s, es[0]), es[1..], c);
    }
  }

  // ---------------------------------------------------------------- the tables as the scheduler updates them

  /** The waiting calls once the ids `seen` have been visited for an answer to `key`. */
  ghost function Visited(s: State, key: Key, seen: seq<nat>): map<nat, Waiting> {
    map c | c in s.inflight && !(c in seen && c in Ready(s, key)) ::
      if c in seen then s.inflight[c].(missing := s.inflight[c].missing - {key}) else s.inflight[c]
  }

  /** The dispatches made for those of the ids `seen` that an answer to `key` makes ready. */
  ghost function Sent(s: State, key: Key, size: nat, seen: seq<nat>): seq<Dispatch> {
    DispatchAll(s.inflight, s.keyLen[key := size], Pick(seen, Ready(s, key)))
  }

  class Tables {
    var keyLen: map<Key, nat>
    var keyCalls: map<Key, set<nat>>
    var inflight: map<nat, Waiting>
    var callId: nat
    var fetches: seq<Key>
    var dispatched: seq<Dispatch>
    ghost var issued: map<nat, Call>

    ghost function Now(): State
      reads this
    {
      State(keyLen, keyCalls, inflight, callId, fetches, dispatched, issued)
    }

    constructor ()
      ensures Now() == START
    {
      keyLen, keyCalls, inflight, callId, fetches, dispatched, issued := map[], map[], map[], 0, [], [], map[];
    }

    method FuncCall(call: Call)
      modifies this
      ensures Now() == OnCall(old(Now()), call)
    {
      hide Absent, Listed, ToFetch, Calls, Lengths;
      ghost var s := Now();
      var missing: set<Key> := {};
      var i := 0;
      NoKeysSeen(keyLen, keyCalls, call.keys, callId);
      while i < |call.keys|
        invariant i <= |call.keys|
        invariant missing == Absent(s.keyLen, call.keys[..i])
        invariant keyCalls == Listed(s.keyCalls, missing, s.callId)
        invariant fetches == s.fetches + ToFetch(s.keyLen, s.keyCalls, call.keys[..i])
        invariant Now() == s.(keyCalls := keyCalls, fetches := fetches)
      {
        OneKeySeen(s.keyLen, s.keyCalls, call.keys, i, s.callId);
        var arg := call.keys[i];
        if arg !in keyLen {
          missing := missing + {arg};
          if arg !in keyCalls {
            fetches := fetches + [arg];
          }
          keyCalls := keyCalls[arg := Calls(keyCalls, arg) + {callId}];
        }
        i := i + 1;
      }
      assert call.keys[..i] == call.keys;
      NothingToFetch(keyLen, s.keyCalls, call.keys, callId);
      if missing == {} {
        dispatched := dispatched + [Dispatch(callId, call, Lengths(keyLen, call.keys))];
      } else {
        inflight := inflight[callId := Waiting(call, missing)];
      }
      issued := issued[callId := call];
      callId := callId + 1;
    }

    method DataResponded(key: Key, size: nat)
      requires Inv(Now())
      modifies this
      ensures Now() == OnData(old(Now()), key, size)
    {
      hide Visited, Sent, Ascending, OnData, Inv, DispatchOf;
      ghost var s := Now();
      keyLen := keyLen[key := size];
      NoneVisited(s, key, size);
      if key in keyCalls {
        var ids := Ascending(keyCalls[key]);
        var i := 0;
        while i < |ids|
          invariant i <= |ids|
          invariant inflight == Visited(s, key, ids[..i])
          invariant dispatched == s.dispatched + Sent(s, key, size, ids[..i])
          invariant Now() == s.(keyLen := s.keyLen[key := size], inflight := inflight, dispatched := dispatched)
        {
          var c := ids[i];
          OneVisited(s, key, size, ids, i);
          var left := inflight[c].missing - {key};
          inflight := inflight[c := inflight[c].(missing := left)];
          if left == {} {
            dispatched := dispatched + [DispatchOf(inflight, keyLen, c)];
            inflight := inflight - {c};
          }
          i := i + 1;
        }
        assert ids[..i] == ids;
        keyCalls := keyCalls - {key};
      }
    }

    method Stored(key: Key, size: nat)
      modifies this
      ensures Now() == Exec(old(Now()), StoredLocally(key, size))
    {
      keyLen := keyLen[key := size];
    }
  }

  lemma NoneListed(keyCalls: map<Key, set<nat>>, id: nat)
    ensures Listed(keyCalls, {}, id) == keyCalls
  {
    var listed := Listed(keyCalls, {}, id);
    assert listed.Keys == keyCalls.Keys;
    assert forall k :: k in keyCalls ==> listed[k] == keyCalls[k];
  }

  lemma OneListed(keyCalls: map<Key, set<nat>>, ms: set<Key>, id: nat, k: Key)
    ensures var listed := Listed(keyCalls, ms, id); Listed(keyCalls, ms + {k}, id) == listed[k := Calls(listed, k) + {id}]
  {
    var listed, next := Listed(keyCalls, ms, id), Listed(keyCalls, ms + {k}, id);
    var want := listed[k := Calls(listed, k) + {id}];
    assert next.Keys == want.Keys;
    forall x | x in next ensures next[x] == want[x] {}
  }

  lemma NoKeysSeen(keyLen: map<Key, nat>, keyCalls: map<Key, set<nat>>, keys: seq<Key>, id: nat)
    ensures Absent(keyLen, keys[..0]) == {}
    ensures ToFetch(keyLen, keyCalls, keys[..0]) == []
    ensures Listed(keyCalls, {}, id) == keyCalls
  {
    NoneListed(keyCalls, id);
  }

  lemma NothingToFetch(keyLen: map<Key, nat>, keyCalls: map<Key, set<nat>>, keys: seq<Key>, id: nat)
    ensures Absent(keyLen, keys) == {} ==> ToFetch(keyLen, keyCalls, keys) == [] && Listed(keyCalls, {}, id) == keyCalls
  {
    hide ToFetch, Listed;
    FetchesAreNew(keyLen, keyCalls, keys);
    NoneListed(keyCalls, id);
    var r := ToFetch(keyLen, keyCalls, keys);
    if r != [] { assert r[0] in Absent(keyLen, keys); }
  }

  /** Looking at one more key of a call. */
  lemma OneKeySeen(keyLen: map<Key, nat>, keyCalls: map<Key, set<nat>>, keys: seq<Key>, i: nat, id: nat)
    requires i < |keys|
    ensures var k, ms := keys[i], Absent(keyLen, keys[..i]); var listed := Listed(keyCalls, ms, id);
      && Absent(keyLen, keys[..i + 1]) == (if k in keyLen then ms else ms + {k})
      && ToFetch(keyLen, keyCalls, keys[..i + 1]) ==
        ToFetch(keyLen, keyCalls, keys[..i]) + (if k in keyLen || k in listed then [] else [k])
      && Listed(keyCalls, Absent(keyLen, keys[..i + 1]), id) ==
        (if k in keyLen then listed else listed[k := Calls(listed, k) + {id}])
  {
    hide Calls;
    var k, ms := keys[i], Absent(keyLen, keys[..i]);
    assert keys[..i + 1] == keys[..i] + [k];
    assert Absent(keyLen, keys[..i + 1]) == (if k in keyLen then ms else ms + {k});
    OneListed(keyCalls, ms, id, k);
    assert k in Listed(keyCalls, ms, id) <==> k in keyCalls || k in ms;
  }

  lemma NoneVisited(s: State, key: Key, size: nat)
    requires Inv(s)
    ensures Visited(s, key, []) == s.inflight && Sent(s, key, size, []) == []
    ensures key !in s.keyCalls ==> OnData(s, key, size) == s.(keyLen := s.keyLen[key := size])
    ensures key in s.keyCalls ==>
      var ids := Ascending(s.keyCalls[key]);
      OnData(s, key, size) == s.(keyLen := s.keyLen[key := size], keyCalls := s.keyCalls - {key},
        inflight := Visited(s, key, ids), dispatched := s.dispatched + Sent(s, key, size, ids))
  {
    hide Ledger, Missing, Accounted, Dispatches;
    if key !in s.keyCalls {
      assert OnData(s, key, size).inflight == s.inflight;
      assert OnData(s, key, size).dispatched == s.dispatched;
    }
  }

  lemma OneMoreVisited(s: State, key: Key, seen: seq<nat>, c: nat)
    requires c !in seen && c in s.inflight && c in Calls(s.keyCalls, key)
    ensures var now := Visited(s, key, seen);
      && c in now && now[c] == s.inflight[c]
      && (now[c].missing - {key} == {} <==> c in Ready(s, key))
      && Visited(s, key, seen + [c]) ==
        if c in Ready(s, key) then now - {c} else now[c := now[c].(missing := now[c].missing - {key})]
  {
    var now, next := Visited(s, key, seen), Visited(s, key, seen + [c]);
    assert forall x :: x in seen + [c] <==> x in seen || x == c;
    assert forall x :: x in next && x != c ==> x in now && next[x] == now[x];
  }

  lemma OneMoreSent(s: State, key: Key, size: nat, seen: seq<nat>, c: nat)
    ensures Sent(s, key, size, seen + [c]) ==
      Sent(s, key, size, seen) + if c in Ready(s, key) then [DispatchOf(s.inflight, s.keyLen[key := size], c)] else []
  {
    hide Lengths, DispatchOf;
    assert (seen + [c])[..|seen|] == seen;
  }

  /** Visiting one more waiting call. */
  lemma OneVisited(s: State, key: Key, size: nat, ids: seq<nat>, i: nat)
    requires Inv(s) && ids == Ascending(Calls(s.keyCalls, key)) && i < |ids|
    ensures var c, now := ids[i], Visited(s, key, ids[..i]);
      && c in now
      && var left := now[c].missing - {key};
      var next := now[c := now[c].(missing := left)];
      && Visited(s, key, ids[..i + 1]) == (if left == {} then next - {c} else next)
      && Sent(s, key, size, ids[..i + 1]) == Sent(s, key, size, ids[..i]) +
        (if left == {} then [DispatchOf(next, s.keyLen[key := size], c)] else [])
  {
    hide Visited, Sent, Inv, Ready, Calls, DispatchOf, Ascending;
    var c, now := ids[i], Visited(s, key, ids[..i]);
    ListedIsWaiting(s, key, ids, i);
    assert ids[..i + 1] == ids[..i] + [c];
    OneMoreVisited(s, key, ids[..i], c);
    OneMoreSent(s, key, size, ids[..i], c);
    var next := now[c := now[c].(missing := now[c].missing - {key})];
    assert now - {c} == next - {c};
    SameDispatch(s.inflight, next, s.keyLen[key := size], c);
  }

  lemma ListedIsWaiting(s: State, key: Key, ids: seq<nat>, i: nat)
    requires Inv(s) && ids == Ascending(Calls(s.keyCalls, key)) && i < |ids|
    ensures ids[i] in Calls(s.keyCalls, key) && ids[i] in s.inflight && ids[i] !in ids[..i]
  {
    hide Ledger, Missing, Accounted, Dispatches;
    assert ids[i] in Calls(s.keyCalls, key);
    assert WaitsFor(s, ids[i], key);
  }

  lemma SameDispatch(a: map<nat, Waiting>, b: map<nat, Waiting>, keyLen: map<Key, nat>, c: nat)
    requires c in a && c in b && a[c].call == b[c].call
    ensures DispatchOf(a, keyLen, c) == DispatchOf(b, keyLen, c)
  {
  }
}
