/**
  Messages cut into fixed-size fragments by the sender of a channel and put together
  again by its receiver, whose cache holds a partly filled buffer per message id.
  Fragments of different messages may arrive interleaved in any way.
 */
module Fragments {
  import opened Options

  newtype byte = x: int | 0 <= x < 256

  type Bytes = seq<byte>

  const DATA_LENGTH: nat := 64
  const GC_THRESHOLD: nat := 1024
  const GC_GAP: nat := 8192

  /** `remain` is the number of bytes of the message beyond this piece, negative by what a short last piece lacks. */
  datatype Piece = Piece(remain: int, data: Bytes)

  /** A piece on the wire: the connection that sent it and the id of its message. */
  datatype Frag = Frag(conn: nat, id: nat, piece: Piece)

  /** What every sender puts on the wire. */
  predicate WellFormed(p: Piece) {
    |p.data| == DATA_LENGTH && DATA_LENGTH + p.remain > 0
  }

  function Min(a: nat, b: nat): nat { if a < b then a else b }

  function Zeros(n: nat): Bytes { seq(n, _ => 0 as byte) }

  /** The data area of a fragment is zero-initialised before the bytes are copied in. */
  function Padded(d: Bytes): (r: Bytes)
    requires |d| <= DATA_LENGTH
    ensures |r| == DATA_LENGTH && r[..|d|] == d
  {
    d + Zeros(DATA_LENGTH - |d|)
  }

  // ---------------------------------------------------------------- sending

  function PieceCount(n: nat): nat { (n + DATA_LENGTH - 1) / DATA_LENGTH }

  /** The `i`-th piece of a message. */
  function PieceAt(msg: Bytes, i: nat): (p: Piece)
    requires i < PieceCount(|msg|)
    ensures WellFormed(p)
  {
    Piece(|msg| - DATA_LENGTH * i - DATA_LENGTH, Padded(msg[DATA_LENGTH * i..Min(DATA_LENGTH * i + DATA_LENGTH, |msg|)]))
  }

  function Pieces(msg: Bytes): (ps: seq<Piece>)
    ensures |ps| == PieceCount(|msg|)
  {
    seq(PieceCount(|msg|), i requires 0 <= i < PieceCount(|msg|) => PieceAt(msg, i))
  }

  /** The fragment loop: whole pieces first, then what is left. An empty message is refused. */
  method Send(msg: Bytes) returns (ok: bool, pieces: seq<Piece>)
    ensures ok <==> msg != []
    ensures ok ==> pieces == Pieces(msg)
    ensures !ok ==> pieces == []
  {
    pieces := [];
    ok := msg != [];
    if !ok { return; }
    var offset := 0;
    for i := 0 to |msg| / DATA_LENGTH
      invariant offset == DATA_LENGTH * i && i <= PieceCount(|msg|)
      invariant pieces == Pieces(msg)[..i]
    {
      pieces := pieces + [Piece(|msg| - offset - DATA_LENGTH, Padded(msg[offset..offset + DATA_LENGTH]))];
      offset := offset + DATA_LENGTH;
    }
    var remain := |msg| - offset;
    if remain > 0 {
      assert msg[offset..] == msg[offset..|msg|];
      pieces := pieces + [Piece(remain - DATA_LENGTH, Padded(msg[offset..]))];
    }
    assert pieces == Pieces(msg);
  }

  // ---------------------------------------------------------------- receiving

  /** A buffer of the size of its message, filled up to `fill`. */
  datatype Cache = Cache(fill: nat, buff: Bytes)

  type Caches = map<nat, Cache>

  function Append(c: Cache, data: Bytes, size: nat): (r: Cache)
    requires size <= |data|
    ensures |r.buff| == |c.buff|
  {
    if c.fill >= |c.buff| || size == 0 then c
    else
      var newFill := Min(c.fill + size, |c.buff|);
      Cache(newFill, c.buff[..c.fill] + data[..newFill - c.fill] + c.buff[newFill..])
  }

  predicate Near(a: nat, b: nat) { a <= b + GC_GAP && b <= a + GC_GAP }

  /** A crowded cache forgets the messages whose id is far from that of the new one. */
  function Collect(caches: Caches, id: nat): Caches {
    if |caches| > GC_THRESHOLD then map k | k in caches && Near(k, id) :: caches[k] else caches
  }

  /** The ids that stay in the cache, of those in it. */
  function Survivors(ids: set<nat>, id: nat): set<nat> {
    if |ids| > GC_THRESHOLD then set k | k in ids && Near(k, id) else ids
  }

  /** `n` bytes of memory nobody has written, whatever they are. */
  function Junk(memory: Bytes, n: nat): (r: Bytes)
    ensures |r| == n
  {
    if |memory| >= n then memory[..n] else memory + Zeros(n - |memory|)
  }

  /** One fragment at the receiver `self`: the new cache, and the message if this fragment completes it. */
  function Receive(self: nat, caches: Caches, f: Frag, memory: Bytes): (r: (Caches, Option<Bytes>))
    requires WellFormed(f.piece)
  {
    var remain: nat := DATA_LENGTH + f.piece.remain;
    if f.conn == self then (caches, None)
    else if f.id !in caches then
      if remain <= DATA_LENGTH then (caches, Some(f.piece.data[..remain]))
      else (Collect(caches, f.id)[f.id := Cache(DATA_LENGTH, f.piece.data + Junk(memory, remain - DATA_LENGTH))], None)
    else if f.piece.remain <= 0 then (caches - {f.id}, Some(Append(caches[f.id], f.piece.data, remain).buff))
    else (caches[f.id := Append(caches[f.id], f.piece.data, DATA_LENGTH)], None)
  }

  method MakeCache(data: Bytes, size: nat) returns (buff: Bytes)
    ensures |buff| == size && buff[..Min(|data|, size)] == data[..Min(|data|, size)]
  {
    var a := new byte[size];
    for i := 0 to Min(|data|, size)
      invariant a[..i] == data[..i]
    {
      a[i] := data[i];
    }
    buff := a[..];
  }

  class Receiver {
    const self: nat
    var caches: Caches

    constructor (self: nat)
      ensures this.self == self && caches == map[]
    {
      this.self := self;
      caches := map[];
    }

    /** `memory` is what the allocator happened to hand out. */
    method Accept(f: Frag) returns (out: Option<Bytes>, ghost memory: Bytes)
      requires WellFormed(f.piece)
      modifies this
      ensures (caches, out) == Receive(self, old(caches), f, memory)
    {
      out, memory := None, [];
      var remain: nat := DATA_LENGTH + f.piece.remain;
      if f.conn == self { return; }
      if f.id !in caches {
        var buff := MakeCache(f.piece.data, remain);
        if remain <= DATA_LENGTH {
          assert buff == buff[..remain];
          out := Some(buff);
          return;
        }
        memory := buff[DATA_LENGTH..];
        assert buff == f.piece.data + Junk(memory, remain - DATA_LENGTH);
        if |caches| > GC_THRESHOLD {
          caches := map k | k in caches && Near(k, f.id) :: caches[k];
        }
        caches := caches[f.id := Cache(DATA_LENGTH, buff)];
      } else if f.piece.remain <= 0 {
        out := Some(Append(caches[f.id], f.piece.data, remain).buff);
        caches := caches - {f.id};
      } else {
        caches := caches[f.id := Append(caches[f.id], f.piece.data, DATA_LENGTH)];
      }
    }
  }

  // ---------------------------------------------------------------- a whole stream

  /** The cache after a stream of fragments; `memory` is what the allocator hands out at each. */
  function After(self: nat, stream: seq<Frag>, memory: seq<Bytes>): Caches
    requires |memory| == |stream| && forall f :: f in stream ==> WellFormed(f.piece)
  {
    if stream == [] then map[]
    else
      var n := |stream| - 1;
      Receive(self, After(self, stream[..n], memory[..n]), stream[n], memory[n]).0
  }

  /** What the receiver returns on the last fragment of a stream. */
  function Output(self: nat, stream: seq<Frag>, memory: seq<Bytes>): Option<Bytes>
    requires |memory| == |stream| > 0 && forall f :: f in stream ==> WellFormed(f.piece)
  {
    var n := |stream| - 1;
    Receive(self, After(self, stream[..n], memory[..n]), stream[n], memory[n]).1
  }

  /** The pieces of one message, in the order they arrive from other connections. */
  function Arrived(self: nat, stream: seq<Frag>, id: nat): seq<Piece> {
    if stream == [] then []
    else
      var f := stream[|stream| - 1];
      Arrived(self, stream[..|stream| - 1], id) + if f.conn != self && f.id == id then [f.piece] else []
  }

  /** The stream carries, for each message, some of its pieces in their order, and nothing else from others. */
  ghost predicate Carries(self: nat, stream: seq<Frag>, msgs: map<nat, Bytes>) {
    && (forall f :: f in stream ==> WellFormed(f.piece))
    && (forall f :: f in stream && f.conn != self ==> f.id in msgs)
    && (forall id :: id in msgs ==> msgs[id] != [] && Arrived(self, stream, id) <= Pieces(msgs[id]))
  }

  lemma CarriesPrefix(self: nat, stream: seq<Frag>, msgs: map<nat, Bytes>)
    requires Carries(self, stream, msgs) && stream != []
    ensures Carries(self, stream[..|stream| - 1], msgs)
  {
    var init := stream[..|stream| - 1];
    forall id | id in msgs ensures Arrived(self, init, id) <= Pieces(msgs[id]) {
      assert Arrived(self, init, id) <= Arrived(self, stream, id);
    }
  }

  lemma {:induction false} CarriesTake(self: nat, stream: seq<Frag>, msgs: map<nat, Bytes>, n: nat)
    requires Carries(self, stream, msgs) && n <= |stream|
    ensures Carries(self, stream[..n], msgs)
    decreases |stream|
  {
    if n < |stream| {
      CarriesPrefix(self, stream, msgs);
      CarriesTake(self, stream[..|stream| - 1], msgs, n);
      assert stream[..|stream| - 1][..n] == stream[..n];
    } else {
      assert stream[..n] == stream;
    }
  }

  // ---------------------------------------------------------------- which pieces a buffer holds

  /**
    For each message in the cache, the number of its pieces that came before those in its buffer. It depends on the
    ids of the fragments and on which of them are last, not on their bytes.
   */
  function Starts(self: nat, stream: seq<Frag>): map<nat, nat> {
    if stream == [] then map[]
    else
      var init, f := stream[..|stream| - 1], stream[|stream| - 1];
      StartsStep(self, Starts(self, init), f, |Arrived(self, init, f.id)|)
  }

  /** One fragment, of whose message `k` pieces came before. */
  function StartsStep(self: nat, before: map<nat, nat>, f: Frag, k: nat): map<nat, nat> {
    if f.conn == self then before
    else if f.id in before then if f.piece.remain <= 0 then before - {f.id} else before
    else if f.piece.remain <= 0 then before
    else (map j | j in Survivors(before.Keys, f.id) :: before[j])[f.id := k]
  }

  lemma StartsNext(self: nat, stream: seq<Frag>)
    requires stream != []
    ensures var init, f := stream[..|stream| - 1], stream[|stream| - 1];
      Starts(self, stream) == StartsStep(self, Starts(self, init), f, |Arrived(self, init, f.id)|)
  {
  }

  /** The buffer is for the message from piece `b` on, and holds its pieces up to `k`. */
  ghost predicate Holds(c: Cache, msg: Bytes, b: nat, k: nat) {
    && b < k < PieceCount(|msg|)
    && |c.buff| == |msg| - DATA_LENGTH * b && c.fill == DATA_LENGTH * (k - b)
    && c.buff[..c.fill] == msg[DATA_LENGTH * b..DATA_LENGTH * k]
  }

  ghost predicate CachesOk(self: nat, stream: seq<Frag>, msgs: map<nat, Bytes>, caches: Caches) {
    && caches.Keys == Starts(self, stream).Keys && caches.Keys <= msgs.Keys
    && (forall id :: id in caches ==> Holds(caches[id], msgs[id], Starts(self, stream)[id], |Arrived(self, stream, id)|))
  }

  /** A message without its first `b` pieces. */
  function From(msg: Bytes, b: nat): Bytes {
    msg[Min(DATA_LENGTH * b, |msg|)..]
  }

  /** What the receiver returns at piece `k` of a message whose buffer starts at piece `b`. */
  function Returned(msg: Bytes, b: nat, k: nat): Option<Bytes>
    requires b <= k < PieceCount(|msg|)
  {
    if k + 1 == PieceCount(|msg|) then Some(From(msg, b)) else None
  }

  /** A piece of a message that is not in the cache: the receiver takes it for the first. */
  lemma FirstPiece(self: nat, caches: Caches, f: Frag, memory: Bytes, msg: Bytes, k: nat)
    requires WellFormed(f.piece) && f.conn != self && k < PieceCount(|msg|) && f.piece == PieceAt(msg, k) && f.id !in caches
    ensures var (caches', out) := Receive(self, caches, f, memory);
      && out == Returned(msg, k, k)
      && if f.piece.remain <= 0 then caches' == caches
         else f.id in caches' && Holds(caches'[f.id], msg, k, k + 1) && caches' == Collect(caches, f.id)[f.id := caches'[f.id]]
  {
    var lo, hi := DATA_LENGTH * k, Min(DATA_LENGTH * k + DATA_LENGTH, |msg|);
    assert f.piece.data[..hi - lo] == msg[lo..hi];
    if hi == |msg| { assert msg[lo..hi] == msg[lo..]; }
  }

  /** The next piece of a message in the cache: its bytes go behind those already there. */
  lemma NextPiece(self: nat, caches: Caches, f: Frag, memory: Bytes, msg: Bytes, b: nat, k: nat)
    requires WellFormed(f.piece) && f.conn != self && k < PieceCount(|msg|) && f.piece == PieceAt(msg, k)
    requires f.id in caches && Holds(caches[f.id], msg, b, k)
    ensures var (caches', out) := Receive(self, caches, f, memory);
      && out == Returned(msg, b, k)
      && if f.piece.remain <= 0 then caches' == caches - {f.id}
         else f.id in caches' && Holds(caches'[f.id], msg, b, k + 1) && caches' == caches[f.id := caches'[f.id]]
  {
    var base, lo, hi := DATA_LENGTH * b, DATA_LENGTH * k, Min(DATA_LENGTH * k + DATA_LENGTH, |msg|);
    assert f.piece.data[..hi - lo] == msg[lo..hi];
    var size := if f.piece.remain <= 0 then |msg| - lo else DATA_LENGTH;
    var c := Append(caches[f.id], f.piece.data, size);
    assert c.fill == hi - base;
    assert c.buff[..hi - base] == msg[base..lo] + msg[lo..hi] == msg[base..hi];
    if hi == |msg| { assert c.buff == c.buff[..hi - base] && msg[base..hi] == msg[base..]; }
  }

  /** The piece at which the buffer of the last fragment's message starts. */
  function StartOfLast(self: nat, stream: seq<Frag>): nat
    requires stream != []
  {
    var init, f := stream[..|stream| - 1], stream[|stream| - 1];
    if f.id in Starts(self, init) then Starts(self, init)[f.id] else |Arrived(self, init, f.id)|
  }

  ghost predicate Completes(self: nat, stream: seq<Frag>, msgs: map<nat, Bytes>)
    requires stream != [] && Carries(self, stream, msgs)
  {
    var f := stream[|stream| - 1];
    f.conn != self && Arrived(self, stream, f.id) == Pieces(msgs[f.id])
  }

  lemma LastPiece(self: nat, stream: seq<Frag>, msgs: map<nat, Bytes>)
    requires stream != [] && Carries(self, stream, msgs) && stream[|stream| - 1].conn != self
    ensures var f := stream[|stream| - 1]; var msg, k := msgs[f.id], |Arrived(self, stream[..|stream| - 1], f.id)|;
      && k < PieceCount(|msg|) && f.piece == PieceAt(msg, k)
      && (Completes(self, stream, msgs) <==> k + 1 == PieceCount(|msg|)) && (f.piece.remain <= 0 <==> k + 1 == PieceCount(|msg|))
  {
    var f := stream[|stream| - 1];
    var before := Arrived(self, stream[..|stream| - 1], f.id);
    var ps := Pieces(msgs[f.id]);
    assert Arrived(self, stream, f.id) == before + [f.piece] <= ps;
    assert (before + [f.piece])[|before|] == ps[|before|];
    if |before| + 1 == |ps| { assert before + [f.piece] == ps; }
  }

  lemma LastFragment(self: nat, stream: seq<Frag>, memory: seq<Bytes>, msgs: map<nat, Bytes>)
    requires |memory| == |stream| > 0 && Carries(self, stream, msgs)
    requires CachesOk(self, stream[..|stream| - 1], msgs, After(self, stream[..|stream| - 1], memory[..|stream| - 1]))
    ensures CachesOk(self, stream, msgs, After(self, stream, memory))
    ensures var f := stream[|stream| - 1];
      Output(self, stream, memory) ==
        if Completes(self, stream, msgs) then Some(From(msgs[f.id], StartOfLast(self, stream))) else None
  {
    hide Receive, CachesOk, Completes, StartOfLast, From, After;
    var n := |stream| - 1;
    var caches := After(self, stream[..n], memory[..n]);
    AfterNext(self, stream, memory);
    if stream[n].conn == self {
      OwnLast(self, stream, memory[n], msgs, caches);
    } else if stream[n].id in caches {
      CachedLast(self, stream, memory[n], msgs, caches);
    } else {
      UncachedLast(self, stream, memory[n], msgs, caches);
    }
  }

  lemma AfterNext(self: nat, stream: seq<Frag>, memory: seq<Bytes>)
    requires |memory| == |stream| > 0 && forall f :: f in stream ==> WellFormed(f.piece)
    ensures var n := |stream| - 1;
      After(self, stream, memory) == Receive(self, After(self, stream[..n], memory[..n]), stream[n], memory[n]).0
  {
  }

  /** The last fragment does to a good cache, and returns, what it should. */
  ghost predicate LastOk(self: nat, stream: seq<Frag>, memory: Bytes, msgs: map<nat, Bytes>, caches: Caches)
    requires stream != [] && Carries(self, stream, msgs)
  {
    var f := stream[|stream| - 1];
    var (caches', out) := Receive(self, caches, f, memory);
    && CachesOk(self, stream, msgs, caches')
    && out == if Completes(self, stream, msgs) then Some(From(msgs[f.id], StartOfLast(self, stream))) else None
  }

  lemma OwnLast(self: nat, stream: seq<Frag>, memory: Bytes, msgs: map<nat, Bytes>, caches: Caches)
    requires stream != [] && Carries(self, stream, msgs) && CachesOk(self, stream[..|stream| - 1], msgs, caches)
    requires stream[|stream| - 1].conn == self
    ensures LastOk(self, stream, memory, msgs, caches)
  {
    hide PieceCount, Holds, Starts, Arrived, Carries;
    ArrivedNext(self, stream);
    StartsNext(self, stream);
  }

  lemma CachedLast(self: nat, stream: seq<Frag>, memory: Bytes, msgs: map<nat, Bytes>, caches: Caches)
    requires stream != [] && Carries(self, stream, msgs) && CachesOk(self, stream[..|stream| - 1], msgs, caches)
    requires stream[|stream| - 1].conn != self && stream[|stream| - 1].id in caches
    ensures LastOk(self, stream, memory, msgs, caches)
  {
    hide Receive, Pieces, PieceAt, PieceCount, From, Holds, Arrived, Completes, Starts;
    var init, f := stream[..|stream| - 1], stream[|stream| - 1];
    ArrivedNext(self, stream);
    StartsNext(self, stream);
    LastPiece(self, stream, msgs);
    NextPiece(self, caches, f, memory, msgs[f.id], Starts(self, init)[f.id], |Arrived(self, init, f.id)|);
  }

  lemma UncachedLast(self: nat, stream: seq<Frag>, memory: Bytes, msgs: map<nat, Bytes>, caches: Caches)
    requires stream != [] && Carries(self, stream, msgs) && CachesOk(self, stream[..|stream| - 1], msgs, caches)
    requires stream[|stream| - 1].conn != self && stream[|stream| - 1].id !in caches
    ensures LastOk(self, stream, memory, msgs, caches)
  {
    hide Receive, Pieces, PieceAt, PieceCount, From, Collect, Survivors, Holds, Arrived, Completes, Starts;
    var init, f := stream[..|stream| - 1], stream[|stream| - 1];
    ArrivedNext(self, stream);
    StartsNext(self, stream);
    LastPiece(self, stream, msgs);
    FirstPiece(self, caches, f, memory, msgs[f.id], |Arrived(self, init, f.id)|);
    SurvivorsStay(caches, f.id);
  }

  lemma ArrivedNext(self: nat, stream: seq<Frag>)
    requires stream != []
    ensures var init, f := stream[..|stream| - 1], stream[|stream| - 1];
      forall id :: Arrived(self, stream, id) == Arrived(self, init, id) + if f.conn != self && f.id == id then [f.piece] else []
  {
  }

  lemma SurvivorsStay(caches: Caches, id: nat)
    ensures Collect(caches, id).Keys == Survivors(caches.Keys, id) <= caches.Keys
    ensures forall k :: k in Collect(caches, id) ==> Collect(caches, id)[k] == caches[k]
  {
    assert |caches| == |caches.Keys|;
  }

  lemma {:induction false} CachesFollow(self: nat, stream: seq<Frag>, memory: seq<Bytes>, msgs: map<nat, Bytes>)
    requires |memory| == |stream| && Carries(self, stream, msgs)
    ensures CachesOk(self, stream, msgs, After(self, stream, memory))
  {
    if stream != [] {
      var n := |stream| - 1;
      CarriesPrefix(self, stream, msgs);
      CachesFollow(self, stream[..n], memory[..n], msgs);
      LastFragment(self, stream, memory, msgs);
    }
  }

  /**
    However the fragments of the messages are interleaved, and whatever the allocator hands out, the receiver
    returns something on a fragment if and only if that fragment is the last of its message. It is the message from
    the piece on at which its buffer starts: the first piece, or the first to arrive after the message was forgotten.
   */
  lemma OutputIsTail(self: nat, stream: seq<Frag>, memory: seq<Bytes>, msgs: map<nat, Bytes>)
    requires |memory| == |stream| > 0 && Carries(self, stream, msgs)
    ensures var f := stream[|stream| - 1];
      Output(self, stream, memory) ==
        if Completes(self, stream, msgs) then Some(From(msgs[f.id], StartOfLast(self, stream))) else None
  {
    var n := |stream| - 1;
    CarriesPrefix(self, stream, msgs);
    CachesFollow(self, stream[..n], memory[..n], msgs);
    LastFragment(self, stream, memory, msgs);
  }

  /** No message is returned twice, whole or in part. */
  lemma ReturnedOnce(self: nat, stream: seq<Frag>, memory: seq<Bytes>, msgs: map<nat, Bytes>, i: nat, j: nat)
    requires |memory| == |stream| && Carries(self, stream, msgs) && i < j < |stream|
    requires Output(self, stream[..i + 1], memory[..i + 1]).Some? && Output(self, stream[..j + 1], memory[..j + 1]).Some?
    ensures stream[i].id != stream[j].id
  {
    hide Output, Carries, Completes, StartOfLast, From, Arrived, Pieces, PieceCount;
    CarriesTake(self, stream, msgs, i + 1);
    CarriesTake(self, stream, msgs, j + 1);
    OutputIsTail(self, stream[..i + 1], memory[..i + 1], msgs);
    OutputIsTail(self, stream[..j + 1], memory[..j + 1], msgs);
    CompletesOnce(self, stream, msgs, i, j);
  }

  lemma CompletesOnce(self: nat, stream: seq<Frag>, msgs: map<nat, Bytes>, i: nat, j: nat)
    requires i < j < |stream| && Carries(self, stream[..i + 1], msgs) && Carries(self, stream[..j + 1], msgs)
    requires Completes(self, stream[..i + 1], msgs) && Completes(self, stream[..j + 1], msgs)
    ensures stream[i].id != stream[j].id
  {
    hide Carries, Arrived, Pieces;
    var id := stream[i].id;
    ArrivedGrows(self, stream, id, i + 1, j);
    assert stream[..j + 1][..j] == stream[..j];
    ArrivedNext(self, stream[..j + 1]);
  }

  lemma {:induction false} ArrivedGrows(self: nat, stream: seq<Frag>, id: nat, i: nat, j: nat)
    requires i <= j <= |stream|
    ensures Arrived(self, stream[..i], id) <= Arrived(self, stream[..j], id)
    decreases j - i
  {
    if i < j {
      ArrivedGrows(self, stream, id, i, j - 1);
      assert stream[..j][..j - 1] == stream[..j - 1];
    }
  }

  /** When all messages have arrived, the cache is empty, even if some were forgotten on the way. */
  lemma NothingLeftBehind(self: nat, stream: seq<Frag>, memory: seq<Bytes>, msgs: map<nat, Bytes>)
    requires |memory| == |stream| && Carries(self, stream, msgs)
    requires forall id :: id in msgs ==> Arrived(self, stream, id) == Pieces(msgs[id])
    ensures After(self, stream, memory) == map[]
  {
    CachesFollow(self, stream, memory, msgs);
    var caches := After(self, stream, memory);
    assert caches.Keys == {};
  }

  // ---------------------------------------------------------------- when a message comes out whole

  /** Fragment `i` begins a buffer in a crowded cache and makes it forget message `id`. */
  ghost predicate Forgets(self: nat, stream: seq<Frag>, i: nat, id: nat)
    requires i < |stream|
  {
    ForgetsNow(self, Starts(self, stream[..i]), stream[i], id)
  }

  predicate ForgetsNow(self: nat, starts: map<nat, nat>, f: Frag, id: nat) {
    && f.conn != self && f.id !in starts && f.piece.remain > 0
    && |starts| > GC_THRESHOLD && id in starts && !Near(id, f.id)
  }

  ghost predicate NeverForgotten(self: nat, stream: seq<Frag>, id: nat) {
    forall i :: 0 <= i < |stream| ==> !Forgets(self, stream, i, id)
  }

  lemma NeverForgottenStep(self: nat, stream: seq<Frag>, id: nat)
    requires stream != []
    ensures var n := |stream| - 1;
      NeverForgotten(self, stream, id) <==> NeverForgotten(self, stream[..n], id) && !Forgets(self, stream, n, id)
  {
    var n := |stream| - 1;
    assert forall i :: 0 <= i < n ==> stream[..n][..i] == stream[..i] && stream[..n][i] == stream[i];
    if NeverForgotten(self, stream, id) {
      forall i | 0 <= i < n ensures !Forgets(self, stream[..n], i, id) { assert !Forgets(self, stream, i, id); }
    }
    if NeverForgotten(self, stream[..n], id) && !Forgets(self, stream, n, id) {
      forall i | 0 <= i < |stream| ensures !Forgets(self, stream, i, id) {
        if i < n { assert !Forgets(self, stream[..n], i, id); }
      }
    }
  }

  /** Of a message of `count` pieces `k` have arrived; the buffer is from the first piece on exactly if `whole`. */
  predicate AtZero(starts: map<nat, nat>, id: nat, k: nat, count: nat, whole: bool) {
    && (id in starts ==> 0 < k < count && starts[id] < k)
    && (k == 0 ==> whole)
    && (0 < k < count ==> (id in starts && starts[id] == 0 <==> whole))
  }

  lemma AtZeroStep(self: nat, starts: map<nat, nat>, f: Frag, kf: nat, id: nat, k: nat, count: nat, whole: bool)
    requires AtZero(starts, id, k, count, whole)
    requires f.conn != self && f.id == id ==> kf == k < count && (f.piece.remain <= 0 <==> k + 1 == count)
    ensures AtZero(StartsStep(self, starts, f, kf), id, if f.conn != self && f.id == id then k + 1 else k, count,
                   whole && !ForgetsNow(self, starts, f, id))
  {
    assert |starts| == |starts.Keys|;
  }

  /** A message in progress has its buffer from the first piece on exactly if it was never forgotten. */
  lemma {:induction false} StartsAtZero(self: nat, stream: seq<Frag>, msgs: map<nat, Bytes>, id: nat)
    requires Carries(self, stream, msgs) && id in msgs
    ensures AtZero(Starts(self, stream), id, |Arrived(self, stream, id)|, PieceCount(|msgs[id]|), NeverForgotten(self, stream, id))
  {
    if stream == [] {
      assert stream[..0] == [];
    } else {
      hide NeverForgotten, Pieces, PieceCount, PieceAt, Arrived, Carries, Completes, Starts, AtZero, StartsStep, ForgetsNow;
      var n := |stream| - 1;
      var init, f := stream[..n], stream[n];
      ArrivedNext(self, stream);
      StartsNext(self, stream);
      CarriesPrefix(self, stream, msgs);
      StartsAtZero(self, init, msgs, id);
      NeverForgottenStep(self, stream, id);
      if f.conn != self { LastPiece(self, stream, msgs); }
      AtZeroStep(self, Starts(self, init), f, |Arrived(self, init, f.id)|, id, |Arrived(self, init, id)|,
                 PieceCount(|msgs[id]|), NeverForgotten(self, init, id));
    }
  }

  /** A message comes out whole if and only if it was never forgotten; otherwise its first pieces are missing. */
  lemma WholeIff(self: nat, stream: seq<Frag>, memory: seq<Bytes>, msgs: map<nat, Bytes>)
    requires |memory| == |stream| > 0 && Carries(self, stream, msgs) && Completes(self, stream, msgs)
    ensures var f := stream[|stream| - 1];
      Output(self, stream, memory) == Some(msgs[f.id]) <==> NeverForgotten(self, stream, f.id)
  {
    hide NeverForgotten, Pieces, PieceAt, After, Output;
    var n := |stream| - 1;
    var init, f := stream[..n], stream[n];
    OutputIsTail(self, stream, memory, msgs);
    LastPiece(self, stream, msgs);
    CarriesPrefix(self, stream, msgs);
    StartsAtZero(self, init, msgs, f.id);
    NeverForgottenStep(self, stream, f.id);
    var b := StartOfLast(self, stream);
    assert From(msgs[f.id], b) == msgs[f.id] <==> b == 0;
  }

  // ---------------------------------------------------------------- when nothing is forgotten

  /** The messages of which some pieces have arrived, but not all. */
  ghost function InProgress(self: nat, stream: seq<Frag>, msgs: map<nat, Bytes>): set<nat> {
    set id | id in msgs && 0 < |Arrived(self, stream, id)| < PieceCount(|msgs[id]|)
  }

  /** Whenever a message of several pieces begins, few others are in progress, or all have ids near its own. */
  ghost predicate Roomy(self: nat, stream: seq<Frag>, msgs: map<nat, Bytes>) {
    forall i :: 0 <= i < |stream| ==> RoomAt(self, stream[..i], stream[i], msgs)
  }

  ghost predicate RoomAt(self: nat, stream: seq<Frag>, f: Frag, msgs: map<nat, Bytes>) {
    var others := InProgress(self, stream, msgs);
    f.conn != self && f.piece.remain > 0 && Arrived(self, stream, f.id) == [] ==>
      |others| <= GC_THRESHOLD || forall id :: id in others ==> Near(id, f.id)
  }

  lemma StartsInProgress(self: nat, stream: seq<Frag>, msgs: map<nat, Bytes>)
    requires Carries(self, stream, msgs)
    ensures Starts(self, stream).Keys <= InProgress(self, stream, msgs)
  {
    CachesFollow(self, stream, seq(|stream|, _ => []), msgs);
    forall id | id in Starts(self, stream) ensures id in InProgress(self, stream, msgs) {
      StartsAtZero(self, stream, msgs, id);
    }
  }

  lemma {:induction false} RoomyForgetsNothing(self: nat, stream: seq<Frag>, msgs: map<nat, Bytes>, i: nat, id: nat)
    requires Carries(self, stream, msgs) && Roomy(self, stream, msgs) && i < |stream|
    ensures !Forgets(self, stream, i, id)
    decreases i
  {
    hide Starts, Arrived, Pieces, PieceAt, PieceCount, Completes;
    if Forgets(self, stream, i, id) {
      var prefix, f := stream[..i], stream[i];
      assert RoomAt(self, prefix, f, msgs);
      CarriesTake(self, stream, msgs, i);
      StartsInProgress(self, prefix, msgs);
      var others := InProgress(self, prefix, msgs);
      SubsetSize(Starts(self, prefix).Keys, others);
      if Arrived(self, prefix, f.id) != [] {
        forall j | 0 <= j < i ensures !Forgets(self, prefix, j, f.id) {
          RoomyForgetsNothing(self, stream, msgs, j, f.id);
          assert prefix[..j] == stream[..j];
        }
        StartsAtZero(self, prefix, msgs, f.id);
        CarriesTake(self, stream, msgs, i + 1);
        assert stream[..i + 1][..i] == prefix;
        LastPiece(self, stream[..i + 1], msgs);
      }
    }
  }

  lemma SubsetSize<T>(a: set<T>, b: set<T>)
    requires a <= b
    ensures |a| <= |b|
  {
    assert |b - a| == |b| - |a|;
  }

  /** With room in the cache, every message comes out whole, exactly at its last fragment, and nothing else does. */
  lemma RoundTrip(self: nat, stream: seq<Frag>, memory: seq<Bytes>, msgs: map<nat, Bytes>)
    requires |memory| == |stream| > 0 && Carries(self, stream, msgs) && Roomy(self, stream, msgs)
    ensures Output(self, stream, memory) ==
      if Completes(self, stream, msgs) then Some(msgs[stream[|stream| - 1].id]) else None
  {
    hide Roomy, Carries, Forgets;
    if Completes(self, stream, msgs) {
      var id := stream[|stream| - 1].id;
      forall i | 0 <= i < |stream| ensures !Forgets(self, stream, i, id) {
        RoomyForgetsNothing(self, stream, msgs, i, id);
      }
      WholeIff(self, stream, memory, msgs);
    } else {
      OutputIsTail(self, stream, memory, msgs);
    }
  }

  /** There is room in particular if there are few messages in all, or their ids are all near each other. */
  lemma FewOrNearIsRoomy(self: nat, stream: seq<Frag>, msgs: map<nat, Bytes>)
    requires Carries(self, stream, msgs)
    requires |msgs| <= GC_THRESHOLD + 1 || forall a, b :: a in msgs && b in msgs ==> Near(a, b)
    ensures Roomy(self, stream, msgs)
  {
    if |msgs| <= GC_THRESHOLD + 1 {
      forall i | 0 <= i < |stream| ensures RoomAt(self, stream[..i], stream[i], msgs) {
        var others := InProgress(self, stream[..i], msgs);
        assert stream[i] in stream;
        if stream[i].conn != self && Arrived(self, stream[..i], stream[i].id) == [] {
          SubsetSize(others, msgs.Keys - {stream[i].id});
        }
      }
    }
  }

  // ---------------------------------------------------------------- a crowded cache

  /** A message of two pieces. */
  function Sample(): (r: Bytes)
    ensures |r| == 2 * DATA_LENGTH
  {
    Zeros(DATA_LENGTH) + seq(DATA_LENGTH, _ => 1 as byte)
  }

  const FAR: nat := 10000

  /** The first pieces of messages 0 to `n - 1`. */
  function Opening(n: nat): seq<Frag> {
    seq(n, (i: nat) => Frag(1, i, PieceAt(Sample(), 0)))
  }

  lemma {:induction false} OpeningArrived(n: nat, id: nat)
    ensures Arrived(0, Opening(n), id) == if id < n then [PieceAt(Sample(), 0)] else []
  {
    if n > 0 {
      assert Opening(n)[..n - 1] == Opening(n - 1);
      OpeningArrived(n - 1, id);
    }
  }

  function Below(n: nat): (r: set<nat>)
    ensures |r| == n && forall i: nat :: i in r <==> i < n
  {
    if n == 0 then {} else Below(n - 1) + {n - 1}
  }

  lemma {:induction false} OpeningStarts(n: nat)
    requires n <= GC_THRESHOLD + 1
    ensures Starts(0, Opening(n)).Keys == Below(n)
  {
    hide Starts, PieceAt;
    if n == 0 {
      assert Opening(0) == [];
      NoStarts();
    } else {
      var f := Frag(1, n - 1, PieceAt(Sample(), 0));
      assert Opening(n) == Opening(n - 1) + [f];
      OpeningStarts(n - 1);
      SampleRemains();
      BeginsBuffer(0, Opening(n - 1), f);
    }
  }

  lemma NoStarts()
    ensures Starts(0, []) == map[]
  {
  }

  lemma SampleRemains()
    ensures PieceAt(Sample(), 0).remain == DATA_LENGTH && PieceAt(Sample(), 1).remain == 0
  {
  }

  lemma BeginsBuffer(self: nat, stream: seq<Frag>, f: Frag)
    requires f.conn != self && f.id !in Starts(self, stream) && f.piece.remain > 0
    ensures Starts(self, stream + [f]).Keys == Survivors(Starts(self, stream).Keys, f.id) + {f.id}
  {
    assert (stream + [f])[..|stream|] == stream;
  }

  /** 1025 messages begin, then one with a far id, then the first message ends. */
  function CrowdedStream(): seq<Frag> {
    Opening(GC_THRESHOLD + 1) + [Frag(1, FAR, PieceAt(Sample(), 0)), Frag(1, 0, PieceAt(Sample(), 1))]
  }

  function CrowdedMessages(): map<nat, Bytes> {
    AllSample(Below(GC_THRESHOLD + 1) + {FAR})
  }

  function AllSample(ids: set<nat>): map<nat, Bytes> {
    map id | id in ids :: Sample()
  }

  /** Its message then comes out without its first 64 bytes. */
  lemma CrowdedLosesHead(memory: seq<Bytes>)
    requires |memory| == |CrowdedStream()|
    ensures Carries(0, CrowdedStream(), CrowdedMessages()) && Completes(0, CrowdedStream(), CrowdedMessages())
    ensures Output(0, CrowdedStream(), memory) == Some(Sample()[DATA_LENGTH..])
  {
    hide Starts, PieceAt, Carries, Output, Arrived, Completes;
    CrowdedCarries();
    CrowdedStarts();
    OutputIsTail(0, CrowdedStream(), memory, CrowdedMessages());
    assert CrowdedStream()[|CrowdedStream()| - 1].id == 0;
  }

  lemma CrowdedStarts()
    ensures StartOfLast(0, CrowdedStream()) == 1
  {
    hide Starts, PieceAt, Arrived, Survivors;
    var stream, n := CrowdedStream(), GC_THRESHOLD + 1;
    var f := Frag(1, FAR, PieceAt(Sample(), 0));
    assert stream[..|stream| - 1] == Opening(n) + [f];
    OpeningStarts(n);
    SampleRemains();
    BeginsBuffer(0, Opening(n), f);
    NoneSurvive();
    OpeningArrived(n, 0);
    OtherArrived(0, Opening(n), f, 0);
  }

  lemma NoneSurvive()
    ensures Survivors(Below(GC_THRESHOLD + 1), FAR) == {}
  {
  }

  lemma OtherArrived(self: nat, stream: seq<Frag>, f: Frag, id: nat)
    requires f.id != id
    ensures Arrived(self, stream + [f], id) == Arrived(self, stream, id)
  {
    assert (stream + [f])[..|stream|] == stream;
  }

  lemma CrowdedCarries()
    ensures Carries(0, CrowdedStream(), CrowdedMessages()) && Completes(0, CrowdedStream(), CrowdedMessages())
  {
    var stream, msgs, n := CrowdedStream(), CrowdedMessages(), GC_THRESHOLD + 1;
    var init, first := stream[..n + 1], stream[..n];
    assert first == Opening(n) && init[..n] == first && stream[..|stream| - 1] == init;
    assert Pieces(Sample()) == [PieceAt(Sample(), 0), PieceAt(Sample(), 1)];
    forall id | id in msgs ensures Arrived(0, stream, id) <= Pieces(Sample()) {
      OpeningArrived(n, id);
    }
    OpeningArrived(n, 0);
  }
}
