/**
  How the coordinator places one function call on worker nodes. A call that carries
  several requests goes whole to the node with the most free executors if that node
  can take it, is otherwise cut over the nodes by a round-robin filling of their free
  executors, and is refused when the nodes together have too few.
 */
module Placement {

  type Address = string

  /** A worker node and the free executors it last reported. */
  datatype Node = Node(addr: Address, avail: int)

  /** One function request of a call. */
  datatype Request = Request(func: string, args: seq<string>)

  /** The nodes as the coordinator's table lists them: one entry for each address. */
  ghost predicate OnePerAddress(nodes: seq<Node>) {
    forall i, j :: 0 <= i < j < |nodes| ==> nodes[i].addr != nodes[j].addr
  }

  // ---------------------------------------------------------------- sums

  function Sum(s: seq<int>): int {
    if s == [] then 0 else Sum(s[..|s| - 1]) + s[|s| - 1]
  }

  lemma {:induction false} SumUpdate(s: seq<int>, i: nat, x: int)
    requires i < |s|
    ensures Sum(s[i := x]) == Sum(s) - s[i] + x
  {
    var last := |s| - 1;
    if i == last {
      assert s[i := x][..last] == s[..last];
    } else {
      SumUpdate(s[..last], i, x);
      assert s[i := x][..last] == s[..last][i := x];
    }
  }

  lemma {:induction false} SumMonotone(a: seq<int>, b: seq<int>)
    requires |a| == |b| && forall j :: 0 <= j < |a| ==> a[j] <= b[j]
    ensures Sum(a) <= Sum(b)
    ensures Sum(a) == Sum(b) ==> a == b
  {
    if a != [] {
      var last := |a| - 1;
      SumMonotone(a[..last], b[..last]);
      assert a == a[..last] + [a[last]] && b == b[..last] + [b[last]];
    }
  }

  lemma {:induction false} SumZero(s: seq<int>)
    requires forall j :: 0 <= j < |s| ==> s[j] == 0
    ensures Sum(s) == 0
  {
    if s != [] { SumZero(s[..|s| - 1]); }
  }

  // ---------------------------------------------------------------- surveying the nodes

  predicate Skipped(node: Node, source: Address) {
    source != "" && node.addr == source
  }

  /** The nodes that may take requests: not the sender, and with a free executor. */
  function Usable(nodes: seq<Node>, source: Address): (r: seq<Node>)
    ensures forall n :: n in r <==> n in nodes && !Skipped(n, source) && n.avail > 0
  {
    if nodes == [] then []
    else
      var init, n := nodes[..|nodes| - 1], nodes[|nodes| - 1];
      Usable(init, source) + if Skipped(n, source) || n.avail <= 0 then [] else [n]
  }

  function Caps(nodes: seq<Node>): (r: seq<int>)
    ensures |r| == |nodes| && forall j :: 0 <= j < |r| ==> r[j] == nodes[j].avail
  {
    seq(|nodes|, j requires 0 <= j < |nodes| => nodes[j].avail)
  }

  lemma {:induction false} UsableDistinct(nodes: seq<Node>, source: Address)
    requires OnePerAddress(nodes)
    ensures OnePerAddress(Usable(nodes, source))
  {
    if nodes != [] {
      var init, n := nodes[..|nodes| - 1], nodes[|nodes| - 1];
      UsableDistinct(init, source);
      var u := Usable(init, source);
      forall i | 0 <= i < |u| ensures u[i].addr != n.addr {
        assert u[i] in init;
      }
    }
  }

  /** `best` is the first of the usable nodes with the most free executors, `max` of them. */
  ghost predicate FirstBest(nodes: seq<Node>, source: Address, max: int, best: nat) {
    && best < |nodes| && !Skipped(nodes[best], source) && nodes[best].avail == max > 0
    && (forall j :: 0 <= j < |nodes| && !Skipped(nodes[j], source) ==> nodes[j].avail <= max)
    && (forall j :: 0 <= j < best && !Skipped(nodes[j], source) ==> nodes[j].avail < max)
  }

  ghost predicate Surveyed(nodes: seq<Node>, source: Address, usable: seq<Node>, total: int, max: int, best: nat) {
    && usable == Usable(nodes, source) && total == Sum(Caps(usable))
    && if usable == [] then max == 0 else FirstBest(nodes, source, max, best)
  }

  lemma SurveyOne(nodes: seq<Node>, source: Address, n: Node, usable: seq<Node>, total: int, max: int, best: nat)
    requires Surveyed(nodes, source, usable, total, max, best)
    ensures if Skipped(n, source) then Surveyed(nodes + [n], source, usable, total, max, best)
            else Surveyed(nodes + [n], source,
                          if n.avail > 0 then usable + [n] else usable,
                          if n.avail > 0 then total + n.avail else total,
                          if n.avail > max then n.avail else max,
                          if n.avail > max then |nodes| else best)
  {
    hide Usable, Sum, Caps, FirstBest, Skipped;
    UsableOneMore(nodes, source, n);
    SumCapsOneMore(usable, n);
    assert usable + [] == usable;
    if usable == [] {
      if !Skipped(n, source) && n.avail > 0 { FirstUsable(nodes, source, n); }
    } else {
      NextUsable(nodes, source, n, max, best);
    }
  }

  lemma SumCapsOneMore(usable: seq<Node>, n: Node)
    ensures Sum(Caps(usable + [n])) == Sum(Caps(usable)) + n.avail
  {
    assert Caps(usable + [n])[..|usable|] == Caps(usable);
  }

  lemma FirstUsable(nodes: seq<Node>, source: Address, n: Node)
    requires Usable(nodes, source) == [] && !Skipped(n, source) && n.avail > 0
    ensures FirstBest(nodes + [n], source, n.avail, |nodes|)
  {
    hide Usable;
    forall j | 0 <= j < |nodes| && !Skipped(nodes[j], source) ensures nodes[j].avail <= 0 {
      assert nodes[j] in nodes;
    }
  }

  lemma NextUsable(nodes: seq<Node>, source: Address, n: Node, max: int, best: nat)
    requires FirstBest(nodes, source, max, best)
    ensures if !Skipped(n, source) && n.avail > max then FirstBest(nodes + [n], source, n.avail, |nodes|)
            else FirstBest(nodes + [n], source, max, best)
  {
  }

  method Survey(nodes: seq<Node>, source: Address) returns (total: int, usable: seq<Node>, max: int, best: nat)
    ensures Surveyed(nodes, source, usable, total, max, best)
  {
    hide Surveyed;
    total, usable, max, best := 0, [], 0, 0;
    NoneSurveyed(source);
    var i := 0;
    while i < |nodes|
      invariant i <= |nodes|
      invariant Surveyed(nodes[..i], source, usable, total, max, best)
    {
      var n := nodes[i];
      SurveyOne(nodes[..i], source, n, usable, total, max, best);
      assert nodes[..i + 1] == nodes[..i] + [n];
      i := i + 1;
      if Skipped(n, source) {
        continue;
      }
      if n.avail > 0 {
        total := total + n.avail;
        usable := usable + [n];
      }
      if n.avail > max {
        max := n.avail;
        best := i - 1;
      }
    }
    assert nodes[..i] == nodes;
  }

  lemma NoneSurveyed(source: Address)
    ensures Surveyed([], source, [], 0, 0, 0)
  {
  }

  // ---------------------------------------------------------------- filling the nodes

  function Min(a: int, b: int): int { if a <= b then a else b }

  /** Every node is filled to level `r`, the first `k` of them to level `r + 1`, as far as each has room. */
  ghost predicate Filled(caps: seq<int>, loads: seq<int>, r: int, k: int) {
    && |loads| == |caps|
    && forall j :: 0 <= j < |caps| ==> loads[j] == Min(caps[j], if j < k then r + 1 else r)
  }

  /** A filling with `req` requests. */
  ghost predicate FilledTo(caps: seq<int>, loads: seq<int>, req: int) {
    Sum(loads) == req && exists r, k :: 0 <= r && 0 <= k < |caps| && Filled(caps, loads, r, k)
  }

  lemma Wrap(i: nat, n: nat)
    requires i < n
    ensures (i + 1) % n == if i + 1 == n then 0 else i + 1
  {
  }

  /** A full node is passed over: the turn goes to the next one. */
  lemma PassOver(caps: seq<int>, loads: seq<int>, r: int, idx: nat)
    requires Filled(caps, loads, r, idx) && idx < |caps| && caps[idx] <= loads[idx]
    ensures Filled(caps, loads, if idx + 1 == |caps| then r + 1 else r, (idx + 1) % |caps|)
  {
    Wrap(idx, |caps|);
  }

  /** A node with room takes one request, and the turn goes to the next one. */
  lemma TakeOne(caps: seq<int>, loads: seq<int>, r: int, idx: nat)
    requires Filled(caps, loads, r, idx) && idx < |caps| && loads[idx] < caps[idx]
    ensures var next := loads[idx := loads[idx] + 1];
      && Filled(caps, next, if idx + 1 == |caps| then r + 1 else r, (idx + 1) % |caps|)
      && Sum(next) == Sum(loads) + 1
  {
    Wrap(idx, |caps|);
    SumUpdate(loads, idx, loads[idx] + 1);
  }

  /** While requests are left to place, some node has room. */
  lemma SomeRoom(caps: seq<int>, loads: seq<int>)
    requires |loads| == |caps| && Sum(loads) < Sum(caps)
    ensures exists j :: 0 <= j < |caps| && loads[j] < caps[j]
  {
    if forall j :: 0 <= j < |caps| ==> caps[j] <= loads[j] {
      SumMonotone(caps, loads);
    }
  }

  /** Places `req` requests one by one, going round the nodes and passing over those with no room. */
  method Fill(caps: seq<int>, req: nat) returns (loads: seq<int>)
    requires |caps| > 0 && forall j :: 0 <= j < |caps| ==> caps[j] > 0
    requires req <= Sum(caps)
    ensures FilledTo(caps, loads, req)
  {
    hide Filled, Sum;
    var n := |caps|;
    var left := new int[n](j requires 0 <= j < n => caps[j]);
    var load := new int[n](_ => 0);
    var idx := 0;
    ghost var r := 0;
    NoneFilled(caps, load[..]);
    var i := 0;
    while i < req
      invariant i <= req && 0 <= idx < n && 0 <= r
      invariant Filled(caps, load[..], r, idx)
      invariant forall j :: 0 <= j < n ==> left[j] == caps[j] - load[j]
      invariant Sum(load[..]) == i
    {
      ghost var before := load[..];
      SomeRoom(caps, before);
      ghost var free :| 0 <= free < n && before[free] < caps[free];
      while left[idx] <= 0
        invariant 0 <= idx < n && 0 <= r
        invariant Filled(caps, before, r, idx)
        invariant load[..] == before
        modifies {}
        decreases if idx <= free then free - idx else free - idx + n
      {
        PassOver(caps, before, r, idx);
        Wrap(idx, n);
        if idx + 1 == n { r := r + 1; }
        idx := (idx + 1) % n;
      }
      TakeOne(caps, before, r, idx);
      load[idx] := load[idx] + 1;
      left[idx] := left[idx] - 1;
      assert load[..] == before[idx := before[idx] + 1];
      Wrap(idx, n);
      if idx + 1 == n { r := r + 1; }
      idx := (idx + 1) % n;
      i := i + 1;
    }
    loads := load[..];
  }

  lemma NoneFilled(caps: seq<int>, loads: seq<int>)
    requires |loads| == |caps| && forall j :: 0 <= j < |caps| ==> caps[j] > 0 && loads[j] == 0
    ensures Filled(caps, loads, 0, 0) && Sum(loads) == 0
  {
    SumZero(loads);
  }

  // ---------------------------------------------------------------- what a filling is

  /** No node takes more than it has free, and only a full node lags another by two or more. */
  lemma FilledIsFair(caps: seq<int>, loads: seq<int>, r: int, k: int, i: nat, j: nat)
    requires Filled(caps, loads, r, k) && i < |caps| && j < |caps|
    ensures loads[i] <= caps[i]
    ensures loads[i] + 1 < loads[j] ==> loads[i] == caps[i]
  {
  }

  /** Nodes without a request come last. */
  lemma IdleNodesLast(caps: seq<int>, loads: seq<int>, r: int, k: int, i: nat, j: nat)
    requires Filled(caps, loads, r, k) && 0 <= r && 0 <= k && i < j < |caps|
    requires caps[i] > 0 && caps[j] > 0 && loads[i] == 0
    ensures loads[j] == 0
  {
  }

  lemma HigherLevel(caps: seq<int>, a: seq<int>, ra: int, ka: int, b: seq<int>, rb: int, kb: int)
    requires Filled(caps, a, ra, ka) && Filled(caps, b, rb, kb)
    requires ra < rb || (ra == rb && ka <= kb)
    ensures Sum(a) <= Sum(b) && (Sum(a) == Sum(b) ==> a == b)
  {
    SumMonotone(a, b);
  }

  /** The number of requests alone fixes a filling. */
  lemma FillingUnique(caps: seq<int>, a: seq<int>, ra: int, ka: int, b: seq<int>, rb: int, kb: int)
    requires Filled(caps, a, ra, ka) && Filled(caps, b, rb, kb) && Sum(a) == Sum(b)
    ensures a == b
  {
    if ra < rb || (ra == rb && ka <= kb) {
      HigherLevel(caps, a, ra, ka, b, rb, kb);
    } else {
      HigherLevel(caps, b, rb, kb, a, ra, ka);
    }
  }

  /** No other way to place the requests keeps the most loaded node below the filling's. */
  lemma SmallestPeak(caps: seq<int>, loads: seq<int>, r: int, k: int, other: seq<int>, peak: int, j: nat)
    requires Filled(caps, loads, r, k) && j < |caps|
    requires |other| == |caps| && Sum(other) == Sum(loads)
    requires forall i :: 0 <= i < |caps| ==> other[i] <= caps[i] && other[i] <= peak
    ensures loads[j] <= peak
  {
    if peak < loads[j] {
      SumMonotone(other, loads);
    }
  }

  // ---------------------------------------------------------------- cutting the request list

  /** Where the requests of node `j` start. */
  function Cut(loads: seq<int>, j: nat): int
    requires j <= |loads|
  {
    Sum(loads[..j])
  }

  lemma CutNext(loads: seq<int>, j: nat)
    requires j < |loads|
    ensures Cut(loads, j + 1) == Cut(loads, j) + loads[j]
  {
    assert loads[..j + 1][..j] == loads[..j];
  }

  lemma {:induction false} CutOrdered(loads: seq<int>, i: nat, j: nat)
    requires i <= j <= |loads| && forall x :: 0 <= x < |loads| ==> loads[x] >= 0
    ensures 0 <= Cut(loads, i) <= Cut(loads, j)
  {
    if i < j {
      CutNext(loads, j - 1);
      CutOrdered(loads, i, j - 1);
    } else if i > 0 {
      CutNext(loads, i - 1);
      CutOrdered(loads, i - 1, i - 1);
    }
  }

  ghost predicate Cuttable(loads: seq<int>, total: nat) {
    && Sum(loads) == total
    && (forall j :: 0 <= j < |loads| ==> loads[j] >= 0)
    && (forall i, j :: 0 <= i < j < |loads| && loads[i] == 0 ==> loads[j] == 0)
  }

  lemma CutWithin(loads: seq<int>, total: nat, j: nat)
    requires Cuttable(loads, total) && j <= |loads|
    ensures 0 <= Cut(loads, j) <= total
  {
    CutOrdered(loads, j, |loads|);
    assert loads[..|loads|] == loads;
  }

  /** The requests of node `j`. */
  ghost function Slice(reqs: seq<Request>, loads: seq<int>, j: nat): seq<Request>
    requires Cuttable(loads, |reqs|) && j < |loads|
  {
    CutWithin(loads, |reqs|, j);
    CutWithin(loads, |reqs|, j + 1);
    CutOrdered(loads, j, j + 1);
    reqs[Cut(loads, j)..Cut(loads, j + 1)]
  }

  lemma SliceLength(reqs: seq<Request>, loads: seq<int>, j: nat)
    requires Cuttable(loads, |reqs|) && j < |loads|
    ensures |Slice(reqs, loads, j)| == loads[j]
  {
    CutNext(loads, j);
    CutWithin(loads, |reqs|, j + 1);
    CutWithin(loads, |reqs|, j);
  }

  /** The first `j` slices put end to end. */
  ghost function Joined(reqs: seq<Request>, loads: seq<int>, j: nat): seq<Request>
    requires Cuttable(loads, |reqs|) && j <= |loads|
  {
    if j == 0 then [] else Joined(reqs, loads, j - 1) + Slice(reqs, loads, j - 1)
  }

  lemma {:induction false} JoinedIsPrefix(reqs: seq<Request>, loads: seq<int>, j: nat)
    requires Cuttable(loads, |reqs|) && j <= |loads|
    ensures 0 <= Cut(loads, j) <= |reqs| && Joined(reqs, loads, j) == reqs[..Cut(loads, j)]
  {
    CutWithin(loads, |reqs|, j);
    if j > 0 {
      JoinedIsPrefix(reqs, loads, j - 1);
      CutOrdered(loads, j - 1, j);
    }
  }

  /** The slices put end to end are the request list. */
  lemma SlicesRejoin(reqs: seq<Request>, loads: seq<int>)
    requires Cuttable(loads, |reqs|)
    ensures Joined(reqs, loads, |loads|) == reqs
  {
    JoinedIsPrefix(reqs, loads, |loads|);
    assert loads[..|loads|] == loads;
  }

  /** The first `at` nodes have been sent their slices, and nobody else anything. */
  ghost predicate Served(plan: map<Address, seq<Request>>, reqs: seq<Request>, loads: seq<int>, nodes: seq<Node>, at: nat)
    requires Cuttable(loads, |reqs|) && |nodes| == |loads| && at <= |loads|
  {
    && (forall j :: 0 <= j < at ==> nodes[j].addr in plan && plan[nodes[j].addr] == Slice(reqs, loads, j))
    && (forall a :: a in plan ==> exists j :: 0 <= j < at && nodes[j].addr == a)
  }

  lemma ServeOne(plan: map<Address, seq<Request>>, reqs: seq<Request>, loads: seq<int>, nodes: seq<Node>, at: nat)
    requires Cuttable(loads, |reqs|) && |nodes| == |loads| && at < |loads| && OnePerAddress(nodes)
    requires Served(plan, reqs, loads, nodes, at)
    ensures Served(plan[nodes[at].addr := Slice(reqs, loads, at)], reqs, loads, nodes, at + 1)
  {
    hide Cuttable;
    var next := plan[nodes[at].addr := Slice(reqs, loads, at)];
    forall a | a in next ensures exists j :: 0 <= j < at + 1 && nodes[j].addr == a {
      if a != nodes[at].addr {
        var j :| 0 <= j < at && nodes[j].addr == a;
      }
    }
  }

  /** Each node with a load is sent its slice, and no other address is sent anything. */
  ghost predicate Delivered(plan: map<Address, seq<Request>>, reqs: seq<Request>, loads: seq<int>, nodes: seq<Node>) {
    && Cuttable(loads, |reqs|) && |nodes| == |loads|
    && (forall j :: 0 <= j < |loads| ==> (nodes[j].addr in plan <==> loads[j] > 0))
    && (forall j :: 0 <= j < |loads| && loads[j] > 0 ==> plan[nodes[j].addr] == Slice(reqs, loads, j))
    && (forall a :: a in plan ==> exists j :: 0 <= j < |loads| && nodes[j].addr == a)
  }

  lemma ServedIsDelivered(plan: map<Address, seq<Request>>, reqs: seq<Request>, loads: seq<int>, nodes: seq<Node>, at: nat)
    requires Cuttable(loads, |reqs|) && |nodes| == |loads| && OnePerAddress(nodes)
    requires at <= |loads| && Served(plan, reqs, loads, nodes, at)
    requires forall j :: 0 <= j < |loads| ==> (loads[j] > 0 <==> j < at)
    ensures Delivered(plan, reqs, loads, nodes)
  {
    forall j | 0 <= j < |loads| && nodes[j].addr in plan ensures loads[j] > 0 {
      var i :| 0 <= i < at && nodes[i].addr == nodes[j].addr;
    }
  }

  /** Hands each node its share, in order: collect requests until the node's load is met, send, go on to the next. */
  method Split(reqs: seq<Request>, loads: seq<int>, nodes: seq<Node>) returns (plan: map<Address, seq<Request>>)
    requires Cuttable(loads, |reqs|) && |nodes| == |loads| && OnePerAddress(nodes)
    ensures Delivered(plan, reqs, loads, nodes)
  {
    hide Cuttable, Served, OnePerAddress, Delivered;
    plan := map[];
    var routed: seq<Request> := [];
    var node, load := 0, 0;
    var i := 0;
    NoneServed(reqs, loads, nodes);
    while i < |reqs|
      invariant i <= |reqs| && node <= |loads| && 0 <= load <= i
      invariant load > 0 ==> node < |loads| && load < loads[node]
      invariant i == Cut(loads, node) + load
      invariant routed == reqs[i - load..i]
      invariant Served(plan, reqs, loads, nodes, node)
      invariant forall j :: 0 <= j < node ==> loads[j] > 0
    {
      StillToServe(reqs, loads, node, i);
      routed := routed + [reqs[i]];
      load := load + 1;
      if load == loads[node] {
        CutNext(loads, node);
        ServeOne(plan, reqs, loads, nodes, node);
        assert routed == Slice(reqs, loads, node);
        plan := plan[nodes[node].addr := routed];
        node := node + 1;
        load := 0;
        routed := [];
      }
      i := i + 1;
    }
    AllServed(reqs, loads, node, load);
    ServedIsDelivered(plan, reqs, loads, nodes, node);
  }

  lemma NoneServed(reqs: seq<Request>, loads: seq<int>, nodes: seq<Node>)
    requires Cuttable(loads, |reqs|) && |nodes| == |loads|
    ensures Served(map[], reqs, loads, nodes, 0)
  {
  }

  lemma StillToServe(reqs: seq<Request>, loads: seq<int>, at: nat, i: nat)
    requires Cuttable(loads, |reqs|) && at <= |loads| && Cut(loads, at) <= i < |reqs|
    requires i > Cut(loads, at) ==> at < |loads| && i < Cut(loads, at) + loads[at]
    ensures at < |loads| && loads[at] > 0
  {
    assert loads[..|loads|] == loads;
    if at < |loads| && loads[at] == 0 { RestIdle(loads, at, |loads|); }
  }

  lemma {:induction false} RestIdle(loads: seq<int>, at: nat, j: nat)
    requires at <= j <= |loads| && forall x :: at <= x < |loads| ==> loads[x] == 0
    ensures Cut(loads, j) == Cut(loads, at)
  {
    if at < j {
      CutNext(loads, j - 1);
      RestIdle(loads, at, j - 1);
    }
  }

  lemma AllServed(reqs: seq<Request>, loads: seq<int>, at: nat, load: nat)
    requires Cuttable(loads, |reqs|) && at <= |loads| && |reqs| == Cut(loads, at) + load
    requires load > 0 ==> at < |loads| && load < loads[at]
    ensures load == 0 && forall j :: at <= j < |loads| ==> loads[j] == 0
  {
    assert loads[..|loads|] == loads;
    if at < |loads| {
      CutNext(loads, at);
      CutOrdered(loads, at + 1, |loads|);
    }
  }

  // ---------------------------------------------------------------- the whole placement

  /** What the nodes are sent, put end to end in the order of the table. */
  ghost function Collect(plan: map<Address, seq<Request>>, nodes: seq<Node>): seq<Request> {
    if nodes == [] then []
    else
      var init, a := nodes[..|nodes| - 1], nodes[|nodes| - 1].addr;
      Collect(plan, init) + if a in plan then plan[a] else []
  }

  lemma {:induction false} CollectSlices(plan: map<Address, seq<Request>>, reqs: seq<Request>, loads: seq<int>, nodes: seq<Node>, j: nat)
    requires Delivered(plan, reqs, loads, nodes) && j <= |nodes|
    ensures Collect(plan, nodes[..j]) == Joined(reqs, loads, j)
  {
    if j > 0 {
      CollectSlices(plan, reqs, loads, nodes, j - 1);
      assert nodes[..j][..j - 1] == nodes[..j - 1];
      CutNext(loads, j - 1);
      SliceLength(reqs, loads, j - 1);
    }
  }

  lemma SameNode(nodes: seq<Node>, m: Node, n: Node)
    requires OnePerAddress(nodes) && m in nodes && n in nodes && m.addr == n.addr
    ensures m == n
  {
    var i :| 0 <= i < |nodes| && nodes[i] == m;
    var j :| 0 <= j < |nodes| && nodes[j] == n;
  }

  ghost predicate OnlyTo(plan: map<Address, seq<Request>>, nodes: seq<Node>) {
    forall a :: a in plan ==> exists n :: n in nodes && n.addr == a
  }

  lemma NotSent(plan: map<Address, seq<Request>>, nodes: seq<Node>, source: Address, n: Node)
    requires OnePerAddress(nodes) && OnlyTo(plan, Usable(nodes, source)) && n in nodes
    requires Skipped(n, source) || n.avail <= 0
    ensures n.addr !in plan
  {
    hide OnePerAddress;
    if n.addr in plan {
      var m :| m in Usable(nodes, source) && m.addr == n.addr;
      SameNode(nodes, m, n);
    }
  }

  lemma CollectNone(plan: map<Address, seq<Request>>, source: Address)
    ensures Collect(plan, []) == Collect(plan, Usable([], source))
  {
  }

  lemma CollectOneMore(plan: map<Address, seq<Request>>, nodes: seq<Node>, n: Node)
    ensures Collect(plan, nodes + [n]) == Collect(plan, nodes) + if n.addr in plan then plan[n.addr] else []
  {
    assert (nodes + [n])[..|nodes|] == nodes;
  }

  lemma UsableOneMore(nodes: seq<Node>, source: Address, n: Node)
    ensures Usable(nodes + [n], source) == Usable(nodes, source) + if Skipped(n, source) || n.avail <= 0 then [] else [n]
  {
    assert (nodes + [n])[..|nodes|] == nodes;
  }

  /** Only usable nodes are sent anything, so looking at them alone loses nothing. */
  lemma {:induction false} CollectUsable(plan: map<Address, seq<Request>>, nodes: seq<Node>, source: Address, i: nat)
    requires OnePerAddress(nodes) && i <= |nodes| && OnlyTo(plan, Usable(nodes, source))
    ensures Collect(plan, nodes[..i]) == Collect(plan, Usable(nodes[..i], source))
  {
    hide OnePerAddress, OnlyTo, Collect, Usable, Skipped;
    if i == 0 {
      assert nodes[..i] == [];
      CollectNone(plan, source);
    } else {
      CollectUsable(plan, nodes, source, i - 1);
      var n, init := nodes[i - 1], nodes[..i - 1];
      assert nodes[..i] == init + [n];
      CollectOneMore(plan, init, n);
      CollectOneMore(plan, Usable(init, source), n);
      UsableOneMore(init, source, n);
      if Skipped(n, source) || n.avail <= 0 {
        NotSent(plan, nodes, source, n);
        assert Usable(init + [n], source) == Usable(init, source);
      }
    }
  }

  /** A split reaches every request exactly once, in order. */
  lemma SplitReachesAll(plan: map<Address, seq<Request>>, reqs: seq<Request>, loads: seq<int>, nodes: seq<Node>, source: Address)
    requires OnePerAddress(nodes) && Delivered(plan, reqs, loads, Usable(nodes, source))
    ensures Collect(plan, nodes) == reqs
  {
    hide OnePerAddress, Slice, Usable;
    var u := Usable(nodes, source);
    assert OnlyTo(plan, u) by {
      forall a | a in plan ensures exists n :: n in u && n.addr == a {
        var j :| 0 <= j < |loads| && u[j].addr == a;
        assert u[j] in u;
      }
    }
    CollectUsable(plan, nodes, source, |nodes|);
    CollectSlices(plan, reqs, loads, u, |u|);
    SlicesRejoin(reqs, loads);
    assert nodes[..|nodes|] == nodes && u[..|u|] == u;
  }

  lemma {:induction false} CollectOne(nodes: seq<Node>, best: nat, reqs: seq<Request>, i: nat)
    requires OnePerAddress(nodes) && best < |nodes| && i <= |nodes|
    ensures Collect(map[nodes[best].addr := reqs], nodes[..i]) == if best < i then reqs else []
  {
    if i > 0 {
      CollectOne(nodes, best, reqs, i - 1);
      assert nodes[..i][..i - 1] == nodes[..i - 1];
    }
  }

  /** No node is sent more requests than it has free executors. */
  ghost predicate WithinCapacity(plan: map<Address, seq<Request>>, nodes: seq<Node>) {
    forall n :: n in nodes && n.addr in plan ==> |plan[n.addr]| <= n.avail
  }

  lemma SplitWithinCapacity(plan: map<Address, seq<Request>>, reqs: seq<Request>, loads: seq<int>, nodes: seq<Node>, source: Address)
    requires OnePerAddress(nodes) && Delivered(plan, reqs, loads, Usable(nodes, source))
    requires forall j :: 0 <= j < |loads| ==> loads[j] <= Usable(nodes, source)[j].avail
    ensures WithinCapacity(plan, nodes)
  {
    forall n | n in nodes && n.addr in plan ensures |plan[n.addr]| <= n.avail {
      SentWithin(plan, reqs, loads, nodes, source, n);
    }
  }

  lemma SentWithin(plan: map<Address, seq<Request>>, reqs: seq<Request>, loads: seq<int>, nodes: seq<Node>, source: Address, n: Node)
    requires OnePerAddress(nodes) && Delivered(plan, reqs, loads, Usable(nodes, source))
    requires forall j :: 0 <= j < |loads| ==> loads[j] <= Usable(nodes, source)[j].avail
    requires n in nodes && n.addr in plan
    ensures |plan[n.addr]| <= n.avail
  {
    hide OnePerAddress, Cuttable, Slice;
    var u := Usable(nodes, source);
    var j :| 0 <= j < |loads| && u[j].addr == n.addr;
    assert u[j] in u;
    SameNode(nodes, n, u[j]);
    SliceLength(reqs, loads, j);
  }

  lemma {:induction false} SumAtLeast(s: seq<int>, i: nat)
    requires i < |s| && forall j :: 0 <= j < |s| ==> s[j] >= 0
    ensures s[i] <= Sum(s)
    decreases |s|
  {
    var last := |s| - 1;
    if i < last {
      SumAtLeast(s[..last], i);
    } else {
      assert 0 <= Sum(s[..last]) by { CutOrdered(s, last, last); }
    }
  }

  lemma SurveyFacts(nodes: seq<Node>, source: Address, usable: seq<Node>, total: int, max: int, best: nat)
    requires Surveyed(nodes, source, usable, total, max, best)
    ensures usable == Usable(nodes, source) && total == Sum(Caps(usable))
    ensures max > 0 <==> usable != []
    ensures max > 0 ==> FirstBest(nodes, source, max, best) && best < |nodes| && nodes[best] in usable && nodes[best].avail == max
    ensures 0 <= max <= total && (total > 0 <==> usable != [])
    ensures forall n :: n in usable ==> 0 < n.avail <= max
  {
    if usable != [] {
      assert nodes[best] in nodes;
      var i :| 0 <= i < |usable| && usable[i] == nodes[best];
      SumAtLeast(Caps(usable), i);
    }
  }

  lemma WholeToOne(nodes: seq<Node>, source: Address, best: nat, reqs: seq<Request>)
    requires OnePerAddress(nodes) && best < |nodes| && nodes[best] in Usable(nodes, source) && |reqs| <= nodes[best].avail
    ensures var plan := map[nodes[best].addr := reqs];
      Collect(plan, nodes) == reqs && WithinCapacity(plan, nodes) && OnlyTo(plan, Usable(nodes, source))
  {
    CollectOne(nodes, best, reqs, |nodes|);
    assert nodes[..|nodes|] == nodes;
  }

  lemma FilledIsCuttable(caps: seq<int>, loads: seq<int>, req: nat)
    requires FilledTo(caps, loads, req) && forall j :: 0 <= j < |caps| ==> caps[j] > 0
    ensures |loads| == |caps| && Cuttable(loads, req) && forall j :: 0 <= j < |caps| ==> loads[j] <= caps[j]
  {
    var r, k :| 0 <= r && 0 <= k < |caps| && Filled(caps, loads, r, k);
    forall i, j | 0 <= i < j < |loads| && loads[i] == 0 ensures loads[j] == 0 {
      IdleNodesLast(caps, loads, r, k, i, j);
    }
  }

  lemma SplitIsSound(plan: map<Address, seq<Request>>, reqs: seq<Request>, loads: seq<int>, nodes: seq<Node>, source: Address)
    requires OnePerAddress(nodes) && Delivered(plan, reqs, loads, Usable(nodes, source)) && reqs != []
    requires forall j :: 0 <= j < |loads| ==> loads[j] <= Usable(nodes, source)[j].avail
    ensures Collect(plan, nodes) == reqs && WithinCapacity(plan, nodes) && OnlyTo(plan, Usable(nodes, source))
    ensures plan != map[]
  {
    hide Cuttable, OnePerAddress, Slice, WithinCapacity, Usable;
    SplitReachesAll(plan, reqs, loads, nodes, source);
    SplitWithinCapacity(plan, reqs, loads, nodes, source);
    CollectEmpty(nodes);
    var u := Usable(nodes, source);
    forall a | a in plan ensures exists n :: n in u && n.addr == a {
      var j :| 0 <= j < |loads| && u[j].addr == a;
      assert u[j] in u;
    }
  }

  lemma {:induction false} CollectEmpty(nodes: seq<Node>)
    ensures Collect(map[], nodes) == []
  {
    if nodes != [] { CollectEmpty(nodes[..|nodes| - 1]); }
  }

  lemma NothingSent(nodes: seq<Node>, usable: seq<Node>)
    ensures WithinCapacity(map[], nodes) && OnlyTo(map[], usable)
  {
  }

  /** The node that sent the call is not sent any of it back. */
  lemma SenderGetsNothing(plan: map<Address, seq<Request>>, nodes: seq<Node>, source: Address)
    requires OnlyTo(plan, Usable(nodes, source))
    ensures source != "" ==> source !in plan
  {
  }

  /** Where the requests of a call go. `pick` stands for the random choice among all nodes. */
  method Place(nodes: seq<Node>, source: Address, reqs: seq<Request>, pick: nat) returns (plan: map<Address, seq<Request>>)
    requires OnePerAddress(nodes) && (nodes != [] ==> pick < |nodes|)
    ensures plan != map[] ==> Collect(plan, nodes) == reqs
    ensures |reqs| > 1 ==> (plan == map[] <==> Sum(Caps(Usable(nodes, source))) < |reqs|)
    ensures |reqs| > 1 ==> WithinCapacity(plan, nodes) && OnlyTo(plan, Usable(nodes, source))
    ensures |reqs| > 1 && source != "" ==> source !in plan
    ensures |reqs| > 1 && (exists n :: n in Usable(nodes, source) && n.avail >= |reqs|) ==>
      exists max, best: nat :: FirstBest(nodes, source, max, best) && plan == map[nodes[best].addr := reqs]
    ensures |reqs| > 1 && (forall n :: n in Usable(nodes, source) ==> n.avail < |reqs|) && plan != map[] ==>
      exists loads :: FilledTo(Caps(Usable(nodes, source)), loads, |reqs|) && Delivered(plan, reqs, loads, Usable(nodes, source))
    ensures |reqs| <= 1 && Usable(nodes, source) != [] ==>
      exists max, best: nat :: FirstBest(nodes, source, max, best) && plan == map[nodes[best].addr := reqs]
    ensures |reqs| <= 1 && Usable(nodes, source) == [] ==>
      plan == if nodes == [] then map[] else map[nodes[pick].addr := reqs]
  {
    hide OnePerAddress, Collect, Delivered, Sum, FirstBest, WithinCapacity, OnlyTo, FilledTo;
    plan := map[];
    var total, usable, max, best := Survey(nodes, source);
    SurveyFacts(nodes, source, usable, total, max, best);
    if |reqs| > 1 {
      if max >= |reqs| {
        plan := map[nodes[best].addr := reqs];
        WholeToOne(nodes, source, best, reqs);
      } else if total >= |reqs| {
        assert forall j :: 0 <= j < |usable| ==> usable[j] in usable;
        var loads := Fill(Caps(usable), |reqs|);
        FilledIsCuttable(Caps(usable), loads, |reqs|);
        UsableDistinct(nodes, source);
        plan := Split(reqs, loads, usable);
        SplitIsSound(plan, reqs, loads, nodes, source);
      } else {
        NothingSent(nodes, Usable(nodes, source));
      }
      SenderGetsNothing(plan, nodes, source);
    } else {
      if max > 0 {
        plan := map[nodes[best].addr := reqs];
        CollectOne(nodes, best, reqs, |nodes|);
        assert nodes[..|nodes|] == nodes;
      } else if |nodes| > 0 {
        plan := map[nodes[pick].addr := reqs];
        CollectOne(nodes, pick, reqs, |nodes|);
        assert nodes[..|nodes|] == nodes;
      }
    }
  }
}
