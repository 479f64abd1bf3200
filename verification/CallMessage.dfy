/**
  The message by which the local scheduler tells an executor to run a function: three
  header bytes, then session, function and arguments separated by bars, ended by a zero
  byte. An argument that is an object is named, not carried: the executor gets
  its bucket, its key and its size.
 */
module CallMessage {
  import opened Options
  import opened Text

  const BAR := '|'
  const NUL := '\0'

  // ---------------------------------------------------------------- writing

  function Header(flag: nat, noClient: bool): string
    requires flag < 255
  {
    [1 as char, (flag + 1) as char, if noClient then 1 as char else 2 as char]
  }

  function Tokens(session: string, func: string, args: seq<string>): seq<string> {
    [session, func] + args
  }

  method Write(flag: nat, noClient: bool, session: string, func: string, args: seq<string>) returns (msg: string)
    requires flag < 255
    ensures msg == Header(flag, noClient) + Join(Tokens(session, func, args), BAR)
    ensures |msg| > 3 && msg[0] as int == 1 && msg[1] as int == flag + 1 && msg[2] as int == if noClient then 1 else 2
  {
    msg := [1 as char];
    msg := msg + [(flag + 1) as char];
    msg := msg + [if noClient then 1 as char else 2 as char];
    msg := msg + session + "|";
    var text := func;
    var i := 0;
    while i < |args|
      invariant i <= |args| && text == Join([func] + args[..i], BAR)
    {
      text := text + "|" + args[i];
      JoinAppend([func] + args[..i], [args[i]], BAR);
      assert [func] + args[..i + 1] == [func] + args[..i] + [args[i]];
      i := i + 1;
    }
    assert args[..i] == args;
    JoinAppend([session], [func] + args, BAR);
    assert [session] + ([func] + args) == Tokens(session, func, args);
    msg := msg + text;
  }

  // ---------------------------------------------------------------- reading

  datatype Received =
    | Received(flag: nat, persist: nat, session: string, func: string, args: seq<string>)
    | Malformed
    | NotACall

  /** The text a pointer into a zero-terminated buffer denotes. */
  function CString(buf: string): string {
    buf[..Find(buf, NUL)]
  }

  /** What the executor makes of a buffer: a call if the first byte is 1; with fewer than two tokens the original reads past the list. */
  function Read(buf: string): Received
    requires |buf| >= 3
  {
    var tokens := Split(CString(buf[3..]), BAR);
    if buf[0] as int != 1 then NotACall
    else if |tokens| < 2 then Malformed
    else Received((buf[1] as int + 255) % 256, buf[2] as int % 256, tokens[0], tokens[1], tokens[2..])
  }

  lemma {:induction false} JoinLacks(ps: seq<string>, d: char, c: char)
    requires ps != [] && c != d && Clean(ps, c)
    ensures c !in Join(ps, d)
  {
    if |ps| > 1 { JoinLacks(ps[1..], d, c); }
  }

  lemma {:induction false} SplitLacks(s: string, d: char, c: char)
    requires c !in s
    ensures Clean(Split(s, d), c)
    decreases |s|
  {
    if s != [] && Find(s, d) < |s| { SplitLacks(s[Find(s, d) + 1..], d, c); }
  }

  lemma CStringOf(s: string)
    requires NUL !in s
    ensures CString(s + [NUL]) == s
  {
    FindAfter(s, NUL, []);
    assert s + [NUL] + [] == s + [NUL];
  }

  /** Reading undoes the framing: the tokens of the text come out, with the header's flags. */
  lemma ReadFramed(flag: nat, noClient: bool, text: string)
    requires flag <= 2
    ensures var got := Split(CString(text + [NUL]), BAR);
      Read(Header(flag, noClient) + text + [NUL]) ==
        if |got| < 2 then Malformed else Received(flag, if noClient then 1 else 2, got[0], got[1], got[2..])
  {
    hide Split, CString;
    var h := Header(flag, noClient);
    assert (h + text + [NUL])[3..] == text + [NUL];
  }

  /** The text up to its first zero byte splits into the tokens exactly when they can be told apart. */
  lemma TokensReadBack(ts: seq<string>)
    requires ts != []
    ensures Split(CString(Join(ts, BAR) + [NUL]), BAR) == ts
      <==> Clean(ts, BAR) && Clean(ts, NUL) && ts[|ts| - 1] != ""
  {
    hide Split, Join, CString;
    if Clean(ts, NUL) {
      JoinLacks(ts, BAR, NUL);
      CStringOf(Join(ts, BAR));
      SplitUndoesJoin(ts, BAR);
    } else {
      var text := CString(Join(ts, BAR) + [NUL]);
      CStringLacks(Join(ts, BAR) + [NUL]);
      SplitLacks(text, BAR, NUL);
    }
  }

  lemma CStringLacks(buf: string)
    ensures NUL !in CString(buf)
  {
  }

  /** The executor gets back exactly what the scheduler wrote if and only if no part holds a
      bar or a zero byte and the last part is not empty. */
  lemma MessageRoundTrip(flag: nat, noClient: bool, session: string, func: string, args: seq<string>)
    requires flag <= 2
    ensures var ts := Tokens(session, func, args);
      Read(Header(flag, noClient) + Join(ts, BAR) + [NUL]) == Received(flag, if noClient then 1 else 2, session, func, args)
      <==> Clean(ts, BAR) && Clean(ts, NUL) && ts[|ts| - 1] != ""
  {
    hide Split, Join, CString, Read, Clean;
    var ts := Tokens(session, func, args);
    ReadFramed(flag, noClient, Join(ts, BAR));
    TokensReadBack(ts);
    var got := Split(CString(Join(ts, BAR) + [NUL]), BAR);
    if |got| >= 2 && got[0] == session && got[1] == func && got[2..] == args {
      assert got == [got[0], got[1]] + got[2..];
    }
  }

  // ---------------------------------------------------------------- argument slots

  datatype Slot = Unset | TextArg(text: string) | ObjectArg(name: string, size: nat)

  datatype Filled = Slots(slots: seq<Slot>) | Refused | BadNumber

  function NameAt(tokens: seq<string>, j: nat): string
    requires 3 * j + 2 < |tokens|
  {
    tokens[3 * j + 1] + "|" + tokens[3 * j + 2]
  }

  ghost predicate SizesReadable(tokens: seq<string>) {
    forall j :: 0 <= j < (|tokens| - 1) / 3 ==> Stoi(tokens[3 * j + 3]).Some?
  }

  ghost predicate ObjectSlots(flag: nat, tokens: seq<string>, slots: seq<Slot>, m: nat)
    requires 3 * m < |tokens|
  {
    && (flag == 1 ==> m <= |slots| && forall j :: 0 <= j < m ==>
          Stoi(tokens[3 * j + 3]).Some? && slots[j] == ObjectArg(NameAt(tokens, j), Stoi(tokens[3 * j + 3]).value))
    && (flag == 2 ==> 2 * m <= |slots| && forall j :: 0 <= j < m ==>
          && Stoi(tokens[3 * j + 3]).Some?
          && slots[2 * j] == TextArg(tokens[3 * j + 2])
          && slots[2 * j + 1] == ObjectArg(NameAt(tokens, j), Stoi(tokens[3 * j + 3]).value))
  }

  /** Fills the argument slots of a function from the tokens that start with its name. */
  method Fill(flag: nat, tokens: seq<string>) returns (r: Filled)
    requires flag <= 2 && tokens != []
    ensures flag == 0 ==> r == Slots(seq(|tokens| - 1, i requires 0 <= i < |tokens| - 1 => TextArg(tokens[i + 1])))
    ensures flag > 0 && |tokens| % 3 != 1 ==> r == Refused
    ensures flag > 0 && |tokens| % 3 == 1 && !SizesReadable(tokens) ==> r == BadNumber
    ensures flag > 0 && |tokens| % 3 == 1 && SizesReadable(tokens) ==>
      var m := (|tokens| - 1) / 3;
      r.Slots? && |r.slots| == flag * m && ObjectSlots(flag, tokens, r.slots, m)
  {
    if flag == 0 {
      var n := |tokens| - 1;
      var slots := new Slot[n](_ => Unset);
      var i := 0;
      while i < n
        invariant i <= n && (forall k :: 0 <= k < i ==> slots[k] == TextArg(tokens[k + 1]))
      {
        slots[i] := TextArg(tokens[i + 1]);
        i := i + 1;
      }
      return Slots(slots[..]);
    }
    if |tokens| % 3 != 1 {
      return Refused;
    }
    r := FillObjects(flag, tokens);
  }

  method FillObjects(flag: nat, tokens: seq<string>) returns (r: Filled)
    requires 1 <= flag <= 2 && |tokens| % 3 == 1
    ensures !SizesReadable(tokens) ==> r == BadNumber
    ensures SizesReadable(tokens) ==>
      var m := (|tokens| - 1) / 3;
      r.Slots? && |r.slots| == flag * m && ObjectSlots(flag, tokens, r.slots, m)
  {
    hide ObjectSlots, Stoi;
    var n := if flag == 1 then |tokens| / 3 else 2 * (|tokens| - 1) / 3;
    var slots := new Slot[n](_ => Unset);
    ghost var j := 0;
    var i := 1;
    NoSlots(flag, tokens, slots[..]);
    while i < |tokens|
      invariant i == 3 * j + 1 <= |tokens|
      invariant n == flag * ((|tokens| - 1) / 3)
      invariant ObjectSlots(flag, tokens, slots[..], j)
      invariant forall k :: flag * j <= k < n ==> slots[k] == Unset
    {
      ghost var before := slots[..];
      var name := tokens[i] + "|" + tokens[i + 1];
      var size := Stoi(tokens[i + 2]);
      if size.None? {
        return BadNumber;
      }
      if flag == 1 {
        assert slots[i / 3] == Unset;
        slots[i / 3] := ObjectArg(name, size.value);
        assert slots[..] == before[j := ObjectArg(name, size.value)];
      } else {
        var index := 2 * (i - 1) / 3;
        assert slots[index] == Unset && slots[index + 1] == Unset;
        slots[index] := TextArg(tokens[i + 1]);
        slots[index + 1] := ObjectArg(name, size.value);
        assert slots[..] == before[2 * j := TextArg(tokens[i + 1])][2 * j + 1 := ObjectArg(name, size.value)];
      }
      NextSlots(flag, tokens, before, j);
      j := j + 1;
      i := i + 3;
    }
    AllReadable(flag, tokens, slots[..], j);
    return Slots(slots[..]);
  }

  lemma NoSlots(flag: nat, tokens: seq<string>, slots: seq<Slot>)
    requires |tokens| > 0
    ensures ObjectSlots(flag, tokens, slots, 0)
  {
  }

  lemma NextSlots(flag: nat, tokens: seq<string>, slots: seq<Slot>, j: nat)
    requires 1 <= flag <= 2 && 3 * j + 3 < |tokens| && ObjectSlots(flag, tokens, slots, j)
    requires Stoi(tokens[3 * j + 3]).Some? && flag * j + flag <= |slots|
    ensures var arg := ObjectArg(NameAt(tokens, j), Stoi(tokens[3 * j + 3]).value);
      ObjectSlots(flag, tokens, if flag == 1 then slots[j := arg]
                                else slots[2 * j := TextArg(tokens[3 * j + 2])][2 * j + 1 := arg], j + 1)
  {
    hide Stoi;
  }

  lemma AllReadable(flag: nat, tokens: seq<string>, slots: seq<Slot>, m: nat)
    requires 1 <= flag <= 2 && |tokens| == 3 * m + 1 && ObjectSlots(flag, tokens, slots, m)
    ensures SizesReadable(tokens)
  {
  }

  // ---------------------------------------------------------------- objects as arguments

  datatype Object = Object(bucket: string, key: string, session: string, size: nat)

  function ObjectName(o: Object): string {
    o.bucket + "|" + (o.key + o.session)
  }

  /** What the scheduler passes for each object: its name and its size. */
  function ObjectArgs(objects: seq<Object>): seq<string> {
    if objects == [] then []
    else ObjectArgs(objects[..|objects| - 1]) + [ObjectName(objects[|objects| - 1]), Numeral(objects[|objects| - 1].size)]
  }

  /** What the executor reads for each object: the bar in its name is one more separator. */
  function Triples(objects: seq<Object>): (r: seq<string>)
    ensures |r| == 3 * |objects|
    ensures forall j :: 0 <= j < |objects| ==>
      && r[3 * j] == objects[j].bucket && r[3 * j + 1] == objects[j].key + objects[j].session
      && r[3 * j + 2] == Numeral(objects[j].size)
  {
    if objects == [] then []
    else
      var o := objects[|objects| - 1];
      Triples(objects[..|objects| - 1]) + [o.bucket, o.key + o.session, Numeral(o.size)]
  }

  lemma {:induction false} SameText(head: seq<string>, objects: seq<Object>)
    requires head != []
    ensures Join(head + ObjectArgs(objects), BAR) == Join(head + Triples(objects), BAR)
  {
    if objects != [] {
      var init, o := objects[..|objects| - 1], objects[|objects| - 1];
      SameText(head, init);
      var two, three := [ObjectName(o), Numeral(o.size)], [o.bucket, o.key + o.session, Numeral(o.size)];
      assert Join(two, BAR) == Join(three, BAR) by {
        assert two[1..] == [Numeral(o.size)] && three[1..] == [o.key + o.session, Numeral(o.size)];
        assert three[1..][1..] == [Numeral(o.size)];
      }
      JoinAppend(head + ObjectArgs(init), two, BAR);
      JoinAppend(head + Triples(init), three, BAR);
      assert head + ObjectArgs(objects) == head + ObjectArgs(init) + two;
      assert head + Triples(objects) == head + Triples(init) + three;
    }
  }

  ghost predicate Plain(s: string) { BAR !in s && NUL !in s }

  ghost predicate PlainObjects(objects: seq<Object>) {
    forall j :: 0 <= j < |objects| ==>
      Plain(objects[j].bucket) && Plain(objects[j].key) && Plain(objects[j].session) && objects[j].size < INT_LIMIT
  }

  lemma {:induction false} TriplesClean(objects: seq<Object>)
    requires PlainObjects(objects)
    ensures Clean(Triples(objects), BAR) && Clean(Triples(objects), NUL)
  {
    if objects != [] {
      TriplesClean(objects[..|objects| - 1]);
      var o := objects[|objects| - 1];
      assert Plain(o.bucket) && Plain(o.key + o.session) && Plain(Numeral(o.size));
    }
  }

  /** A call on objects reaches the executor with every object in its triple of tokens. */
  lemma ObjectsReadBack(flag: nat, noClient: bool, session: string, func: string, objects: seq<Object>)
    requires flag <= 2 && Plain(session) && Plain(func) && PlainObjects(objects) && (objects == [] ==> func != "")
    ensures Read(Header(flag, noClient) + Join(Tokens(session, func, ObjectArgs(objects)), BAR) + [NUL])
            == Received(flag, if noClient then 1 else 2, session, func, Triples(objects))
  {
    SameText([session, func], objects);
    TriplesClean(objects);
    MessageRoundTrip(flag, noClient, session, func, Triples(objects));
    var ts := Tokens(session, func, Triples(objects));
    if objects != [] { assert ts[|ts| - 1] == Triples(objects)[3 * (|objects| - 1) + 2]; }
  }

  /** The arguments a function is given for its objects: each object, preceded by its key if `flag` is 2. */
  function ObjectInputs(flag: nat, objects: seq<Object>): (r: seq<Slot>)
    requires 1 <= flag <= 2
    ensures |r| == flag * |objects|
    ensures flag == 1 ==> forall j :: 0 <= j < |objects| ==> r[j] == ObjectArg(ObjectName(objects[j]), objects[j].size)
    ensures flag == 2 ==> forall j :: 0 <= j < |objects| ==>
      && r[2 * j] == TextArg(objects[j].key + objects[j].session)
      && r[2 * j + 1] == ObjectArg(ObjectName(objects[j]), objects[j].size)
  {
    if objects == [] then []
    else
      var o := objects[|objects| - 1];
      ObjectInputs(flag, objects[..|objects| - 1]) +
      if flag == 1 then [ObjectArg(ObjectName(o), o.size)]
      else [TextArg(o.key + o.session), ObjectArg(ObjectName(o), o.size)]
  }

  lemma TripleAt(func: string, objects: seq<Object>, j: nat)
    requires j < |objects| && objects[j].size < INT_LIMIT
    ensures var tokens := [func] + Triples(objects);
      && Stoi(tokens[3 * j + 3]) == Some(objects[j].size) && NameAt(tokens, j) == ObjectName(objects[j])
      && tokens[3 * j + 2] == objects[j].key + objects[j].session
  {
    hide Stoi, Triples, Numeral;
    StoiOfNumeral(objects[j].size);
    var tokens, t := [func] + Triples(objects), Triples(objects);
    assert tokens[3 * j + 3] == t[3 * j + 2] && tokens[3 * j + 1] == t[3 * j] && tokens[3 * j + 2] == t[3 * j + 1];
  }

  /** Those tokens fill the argument slots with exactly these inputs. */
  lemma ObjectsFillSlots(flag: nat, func: string, objects: seq<Object>, slots: seq<Slot>)
    requires 1 <= flag <= 2 && PlainObjects(objects)
    ensures var tokens := [func] + Triples(objects); |tokens| % 3 == 1 && SizesReadable(tokens)
    ensures |slots| == flag * |objects| && ObjectSlots(flag, [func] + Triples(objects), slots, |objects|) ==>
      slots == ObjectInputs(flag, objects)
  {
    hide Stoi, NameAt, ObjectName, Triples, ObjectInputs;
    forall j | 0 <= j < |objects| ensures
      var tokens := [func] + Triples(objects);
      && Stoi(tokens[3 * j + 3]) == Some(objects[j].size) && NameAt(tokens, j) == ObjectName(objects[j])
      && tokens[3 * j + 2] == objects[j].key + objects[j].session
    {
      TripleAt(func, objects, j);
    }
    var tokens := [func] + Triples(objects);
    assert (|tokens| - 1) / 3 == |objects|;
    forall j | 0 <= j < (|tokens| - 1) / 3 ensures Stoi(tokens[3 * j + 3]).Some? {
      TripleAt(func, objects, j);
    }
    if flag == 2 && |slots| == 2 * |objects| && ObjectSlots(flag, [func] + Triples(objects), slots, |objects|) {
      forall k | 0 <= k < |slots| ensures slots[k] == ObjectInputs(flag, objects)[k] {
        var j := k / 2;
        assert slots[2 * j] == ObjectInputs(flag, objects)[2 * j];
      }
    }
  }

  /** From the scheduler's call on objects to the inputs the executor hands to the function. */
  method CallOnObjects(flag: nat, noClient: bool, session: string, func: string, objects: seq<Object>)
    returns (gotSession: string, gotFunc: string, r: Filled)
    requires 1 <= flag <= 2 && Plain(session) && Plain(func) && PlainObjects(objects) && (objects == [] ==> func != "")
    ensures gotSession == session && gotFunc == func && r == Slots(ObjectInputs(flag, objects))
  {
    hide Read, Plain, PlainObjects, ObjectSlots, SizesReadable;
    var msg := Write(flag, noClient, session, func, ObjectArgs(objects));
    ObjectsReadBack(flag, noClient, session, func, objects);
    var got := Read(msg + [NUL]);
    gotSession, gotFunc := got.session, got.func;
    r := Fill(got.flag, [got.func] + got.args);
    ObjectsFillSlots(flag, func, objects, if r.Slots? then r.slots else []);
  }

  // ---------------------------------------------------------------- object names

  datatype BucketKey = BucketKey(bucket: string, key: string, session: string)

  /** Cuts the 16 characters of a session off a key; text too short to hold both is dropped. */
  function FromSessionKey(bucket: string, text: string): BucketKey {
    var n := |text|;
    if n > 16 then BucketKey(bucket, text[..n - 16], text[n - 16..]) else BucketKey(bucket, "", "")
  }

  /** Reads a name; one without a bar stands for both the bucket and the rest. */
  function FromName(name: string): BucketKey {
    var i := Find(name, BAR);
    if i == |name| then FromSessionKey(name, name) else FromSessionKey(name[..i], name[i + 1..])
  }

  /** Exactly the objects whose names can be read back. */
  lemma NameRoundTrip(bucket: string, key: string, session: string)
    ensures FromName(bucket + "|" + (key + session)) == BucketKey(bucket, key, session)
      <==> BAR !in bucket && ((|session| == 16 && key != "") || (key == "" && session == ""))
  {
    var name := bucket + "|" + (key + session);
    var i := Find(name, BAR);
    assert name[|bucket|] == BAR;
    if BAR in bucket {
      assert name[..|bucket|] == bucket;
      assert i < |bucket|;
    } else {
      FindAfter(bucket, BAR, key + session);
      assert name == bucket + [BAR] + (key + session);
      assert name[..i] == bucket && name[i + 1..] == key + session;
      if |session| == 16 && key != "" {
        assert (key + session)[..|key|] == key && (key + session)[|key|..] == session;
      }
    }
  }
}
