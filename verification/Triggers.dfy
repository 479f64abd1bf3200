/**
  The trigger objects of a bucket. Each class keeps the state its original keeps;
  a pure step function beside it says what one new object does to that state, and
  the protocols and stream laws are stated about those functions.
 */
module Triggers {

  type Session = string
  type Key = string

  datatype Action = Action(function_: string, sessionKeys: seq<(Session, Key)>)

  // ---------------------------------------------------------------- by set

  type Prepared = map<Session, set<Key>>

  function PreparedIn(p: Prepared, session: Session): set<Key> {
    if session in p then p[session] else {}
  }

  /** One new object at a by-set trigger: the new state, and whether the trigger fires. */
  function BySetNext(keys: set<Key>, p: Prepared, session: Session, key: Key): (r: (Prepared, bool)) {
    if key !in keys then (p, false)
    else
      var have := PreparedIn(p, session) + {key};
      if |have| == |keys| then (p - {session}, true) else (p[session := have], false)
  }

  /** What every by-set trigger keeps: each session waits for a proper, non-empty part of the key set. */
  ghost predicate Partial(keys: set<Key>, p: Prepared) {
    forall s :: s in p ==> p[s] < keys && p[s] != {}
  }

  /** Counting is enough: the trigger fires exactly when the object completes the key set of its session. */
  lemma BySetFiresWhenComplete(keys: set<Key>, p: Prepared, session: Session, key: Key)
    requires Partial(keys, p)
    ensures BySetNext(keys, p, session, key).1 <==> key in keys && PreparedIn(p, session) + {key} == keys
    ensures Partial(keys, BySetNext(keys, p, session, key).0)
  {
    if key in keys {
      var have := PreparedIn(p, session) + {key};
      assert have <= keys;
      if |have| == |keys| {
        SubsetOfSameSize(have, keys);
      }
    }
  }

  lemma SubsetOfSameSize<T>(a: set<T>, b: set<T>)
    requires a <= b && |a| == |b|
    ensures a == b
  {
    assert |b - a| == |b| - |a|;
  }

  ghost predicate NoDuplicates<T>(xs: seq<T>) {
    forall i, j :: 0 <= i < j < |xs| ==> xs[i] != xs[j]
  }

  function Elements<T>(xs: seq<T>): set<T> {
    set x | x in xs
  }

  /** The order of `keySet` is the iteration order of the ordered set it stands for. */
  class BySetTrigger {
    const function_: string
    const keySet: seq<Key>
    var prepared: Prepared

    ghost predicate Valid()
      reads this
    {
      NoDuplicates(keySet) && Partial(Elements(keySet), prepared)
    }

    constructor (function_: string, keySet: seq<Key>)
      requires NoDuplicates(keySet)
      ensures Valid() && this.function_ == function_ && this.keySet == keySet && prepared == map[]
    {
      this.function_ := function_;
      this.keySet := keySet;
      prepared := map[];
    }

    method ActionForNewObject(session: Session, key: Key) returns (actions: seq<Action>)
      requires Valid()
      modifies this
      ensures Valid()
      ensures prepared == BySetNext(Elements(keySet), old(prepared), session, key).0
      ensures |actions| == if key in keySet && PreparedIn(old(prepared), session) + {key} == Elements(keySet) then 1 else 0
      ensures |actions| == 1 ==>
                && actions[0].function_ == function_ && |actions[0].sessionKeys| == |keySet|
                && forall i :: 0 <= i < |keySet| ==> actions[0].sessionKeys[i] == (session, keySet[i])
    {
      actions := [];
      BySetFiresWhenComplete(Elements(keySet), prepared, session, key);
      SizeOfElements(keySet);
      if key in keySet {
        assert key in Elements(keySet);
        prepared := prepared[session := PreparedIn(prepared, session) + {key}];
        if |prepared[session]| == |keySet| {
          var sessionKeys: seq<(Session, Key)> := [];
          for i := 0 to |keySet|
            invariant |sessionKeys| == i && forall j :: 0 <= j < i ==> sessionKeys[j] == (session, keySet[j])
          {
            sessionKeys := sessionKeys + [(session, keySet[i])];
          }
          actions := [Action(function_, sessionKeys)];
          prepared := prepared - {session};
          assert prepared == old(prepared) - {session};
        }
      }
    }

    method Clear(session: Session)
      requires Valid()
      modifies this
      ensures Valid() && prepared == old(prepared) - {session}
    {
      prepared := prepared - {session};
    }
  }

  lemma ElementsAppend<T>(xs: seq<T>, x: T)
    ensures Elements(xs + [x]) == Elements(xs) + {x}
  {
    assert forall y :: y in xs + [x] <==> y in xs || y == x;
  }

  lemma {:induction false} SizeOfElements<T>(xs: seq<T>)
    requires NoDuplicates(xs)
    ensures |Elements(xs)| == |xs|
  {
    if |xs| > 0 {
      var n := |xs| - 1;
      SizeOfElements(xs[..n]);
      assert Elements(xs) == Elements(xs[..n]) + {xs[n]};
    }
  }

  // ---------------------------------------------------------------- dynamic group

  const GROUP_DELIMITER := ':'
  const CONTROL_PREFIX := "ctrl"

  /** The part of a key before its first delimiter, or the whole key if it has none. */
  function Group(key: Key): (g: string) {
    if key == "" || key[0] == GROUP_DELIMITER then "" else [key[0]] + Group(key[1..])
  }

  /** The first delimiter ends the group, and nothing before it is one. */
  lemma {:induction false} GroupIsPrefix(key: Key)
    ensures Group(key) <= key && GROUP_DELIMITER !in Group(key)
    ensures Group(key) == key || key[|Group(key)|] == GROUP_DELIMITER
  {
    if key != "" && key[0] != GROUP_DELIMITER { GroupIsPrefix(key[1..]); }
  }

  type Groups = map<string, set<Key>>

  datatype GroupState = GroupState(groups: Groups, control: set<Key>)

  const NO_GROUPS := GroupState(map[], {})

  function AddToGroup(groups: Groups, key: Key): Groups {
    groups[Group(key) := (if Group(key) in groups then groups[Group(key)] else {}) + {key}]
  }

  /** One new object at a dynamic-group trigger: the new state, and the groups it hands out. */
  function GroupNext(controlGroup: set<Key>, g: GroupState, key: Key): (r: (GroupState, Groups)) {
    if Group(key) == CONTROL_PREFIX then
      var control := if key in controlGroup then g.control + {key} else g.control;
      if |control| == |controlGroup| then (NO_GROUPS, g.groups) else (g.(control := control), map[])
    else (g.(groups := AddToGroup(g.groups, key)), map[])
  }

  /** A set of data keys split by group prefix. */
  function GroupBy(data: set<Key>): Groups {
    map p | p in Prefixes(data) :: set k | k in data && Group(k) == p
  }

  function Prefixes(data: set<Key>): set<string> {
    set k | k in data :: Group(k)
  }

  /** The groups partition the data: they cover it, are not empty, and a key is in the group of its prefix only. */
  lemma GroupByPartitions(data: set<Key>)
    ensures forall k :: k in data ==> Group(k) in GroupBy(data) && k in GroupBy(data)[Group(k)]
    ensures forall p, k :: p in GroupBy(data) && k in GroupBy(data)[p] ==> k in data && Group(k) == p
    ensures forall p :: p in GroupBy(data) ==> GroupBy(data)[p] != {}
  {
    forall p | p in GroupBy(data) ensures GroupBy(data)[p] != {} {
      var k :| k in data && Group(k) == p;
      assert k in GroupBy(data)[p];
    }
  }

  lemma GroupByGrows(data: set<Key>, key: Key)
    ensures AddToGroup(GroupBy(data), key) == GroupBy(data + {key})
  {
    var a, b := AddToGroup(GroupBy(data), key), GroupBy(data + {key});
    forall p ensures p in a <==> p in b {
      if p in GroupBy(data) { var k :| k in data && Group(k) == p; assert k in data + {key}; }
      if p == Group(key) { assert key in data + {key}; }
    }
    forall p | p in a ensures a[p] == b[p] {
      if p == Group(key) && p !in GroupBy(data) {
        forall k | k in data ensures Group(k) != p {}
      }
    }
  }

  class DynamicGroupTrigger {
    const function_: string
    const controlGroup: set<Key>
    var groups: Groups
    var control: set<Key>

    ghost function State(): GroupState
      reads this
    {
      GroupState(groups, control)
    }

    constructor (function_: string, controlGroup: set<Key>)
      ensures this.function_ == function_ && this.controlGroup == controlGroup && State() == NO_GROUPS
    {
      this.function_ := function_;
      this.controlGroup := controlGroup;
      groups := map[];
      control := {};
    }

    /** `order` is the order in which the groups are visited; each yields one action that lists its keys once. */
    method ActionForNewObject(session: Session, key: Key) returns (actions: seq<Action>, ghost order: seq<string>)
      modifies this
      ensures State() == GroupNext(controlGroup, old(State()), key).0
      ensures var out := GroupNext(controlGroup, old(State()), key).1;
        && NoDuplicates(order) && Elements(order) == out.Keys && |actions| == |order|
        && (forall i :: 0 <= i < |order| ==> actions[i].function_ == function_ && NoDuplicates(actions[i].sessionKeys))
        && (forall i, s, k :: 0 <= i < |order| ==>
              ((s, k) in actions[i].sessionKeys <==> s == session && k in out[order[i]]))
    {
      actions, order := [], [];
      if Group(key) == CONTROL_PREFIX {
        if key in controlGroup { control := control + {key}; }
        if |control| == |controlGroup| {
          actions, order := ActionsFor(groups, function_, session);
          forall i | 0 <= i < |order|
            ensures forall s, k :: (s, k) in actions[i].sessionKeys <==> s == session && k in groups[order[i]]
          {
            ListsMeans(actions[i], function_, session, groups[order[i]]);
          }
          groups, control := map[], {};
        }
      } else {
        groups := AddToGroup(groups, key);
      }
    }

    method Clear(session: Session)
      modifies this
      ensures State() == NO_GROUPS
    {
      groups, control := map[], {};
    }
  }

  /** The action names every key of the group exactly once, under the given session. */
  ghost predicate Lists(a: Action, function_: string, session: Session, keys: set<Key>) {
    && a.function_ == function_
    && NoDuplicates(a.sessionKeys)
    && Elements(a.sessionKeys) == (set k | k in keys :: (session, k))
  }

  lemma ListsMeans(a: Action, function_: string, session: Session, keys: set<Key>)
    requires Lists(a, function_, session, keys)
    ensures forall s, k :: (s, k) in a.sessionKeys <==> s == session && k in keys
  {
    forall s, k ensures (s, k) in a.sessionKeys <==> s == session && k in keys {
      assert (s, k) in a.sessionKeys <==> (s, k) in Elements(a.sessionKeys);
    }
  }

  method ActionsFor(groups: Groups, function_: string, session: Session) returns (actions: seq<Action>, ghost order: seq<string>)
    ensures NoDuplicates(order) && Elements(order) == groups.Keys && |actions| == |order|
    ensures forall i :: 0 <= i < |order| ==> Lists(actions[i], function_, session, groups[order[i]])
  {
    actions, order := [], [];
    var left := groups.Keys;
    while left != {}
      invariant NoDuplicates(order) && Elements(order) == groups.Keys - left && left <= groups.Keys
      invariant |actions| == |order|
      invariant forall i :: 0 <= i < |order| ==> order[i] in groups && Lists(actions[i], function_, session, groups[order[i]])
      decreases |left|
    {
      var p :| p in left;
      var a := ActionFor(groups[p], function_, session);
      assert p !in Elements(order);
      ElementsAppend(order, p);
      actions, order, left := actions + [a], order + [p], left - {p};
    }
  }

  method ActionFor(keys: set<Key>, function_: string, session: Session) returns (a: Action)
    ensures Lists(a, function_, session, keys)
  {
    var sessionKeys: seq<(Session, Key)> := [];
    var left := keys;
    while left != {}
      invariant NoDuplicates(sessionKeys) && left <= keys
      invariant Elements(sessionKeys) == set k | k in keys - left :: (session, k)
      decreases |left|
    {
      var k :| k in left;
      assert (session, k) !in Elements(sessionKeys);
      ElementsAppend(sessionKeys, (session, k));
      sessionKeys, left := sessionKeys + [(session, k)], left - {k};
    }
    a := Action(function_, sessionKeys);
  }
}
