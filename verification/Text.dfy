/** Splitting and joining on a separator, and decimal numerals, as the C++ library does them. */
module Text {
  import opened Options

  // ---------------------------------------------------------------- first occurrence

  /** The index of the first `d` in `s`, or the length of `s`. */
  function Find(s: string, d: char): (i: nat)
    ensures i <= |s| && d !in s[..i] && (i < |s| ==> s[i] == d)
  {
    if s == [] || s[0] == d then 0
    else
      var i := Find(s[1..], d);
      assert s[..i + 1] == [s[0]] + s[1..][..i];
      i + 1
  }

  lemma FindAfter(p: string, d: char, rest: string)
    requires d !in p
    ensures Find(p + [d] + rest, d) == |p|
  {
    var s := p + [d] + rest;
    var i := Find(s, d);
    assert s[|p|] == d;
    assert i < |s| && s[i] == d && d !in s[..i];
    assert s[..|p|] == p;
  }

  // ---------------------------------------------------------------- split and join

  /** The tokens `getline` reads: an empty piece at the very end is not a token. */
  function Split(s: string, d: char): (r: seq<string>)
    decreases |s|
  {
    if s == [] then []
    else
      var i := Find(s, d);
      if i == |s| then [s] else [s[..i]] + Split(s[i + 1..], d)
  }

  lemma SplitFirst(p: string, d: char, rest: string)
    requires d !in p
    ensures Split(p + [d] + rest, d) == [p] + Split(rest, d)
  {
    FindAfter(p, d, rest);
    var s := p + [d] + rest;
    assert s[..|p|] == p && s[|p| + 1..] == rest;
  }

  lemma SplitLast(p: string, d: char)
    requires d !in p
    ensures Split(p, d) == if p == "" then [] else [p]
  {
  }

  /** Reads one token after another from a stream that stands at position `at`. */
  method SplitLoop(s: string, d: char) returns (elems: seq<string>)
    ensures elems == Split(s, d)
  {
    hide Split;
    elems := [];
    var at := 0;
    SplitLast("", d);
    assert s[0..] == s;
    while at < |s|
      invariant at <= |s|
      invariant elems + Split(s[at..], d) == Split(s, d)
    {
      var end := at;
      while end < |s| && s[end] != d
        invariant at <= end <= |s| && d !in s[at..end]
      {
        end := end + 1;
      }
      var token := s[at..end];
      if end < |s| {
        assert s[at..] == token + [d] + s[end + 1..];
        SplitFirst(token, d, s[end + 1..]);
        at := end + 1;
      } else {
        assert s[at..] == token;
        assert s[end..] == "";
        SplitLast(token, d);
        at := end;
      }
      elems := elems + [token];
    }
    assert s[at..] == [];
  }

  function Join(ps: seq<string>, d: char): string
    requires ps != []
  {
    if |ps| == 1 then ps[0] else ps[0] + [d] + Join(ps[1..], d)
  }

  ghost predicate Clean(ps: seq<string>, d: char) {
    forall p :: p in ps ==> d !in p
  }

  /** Joining and splitting keeps clean tokens, except an empty one at the end. */
  lemma {:induction false} SplitOfJoin(ps: seq<string>, d: char)
    requires ps != [] && Clean(ps, d)
    ensures Split(Join(ps, d), d) == if ps[|ps| - 1] == "" then ps[..|ps| - 1] else ps
    decreases |ps|
  {
    hide Split;
    if |ps| == 1 {
      SplitLast(ps[0], d);
    } else {
      SplitFirst(ps[0], d, Join(ps[1..], d));
      SplitOfJoin(ps[1..], d);
      assert ps == [ps[0]] + ps[1..];
    }
  }

  lemma {:induction false} TokensAreClean(s: string, d: char)
    ensures Clean(Split(s, d), d)
    decreases |s|
  {
    if s != [] && Find(s, d) < |s| { TokensAreClean(s[Find(s, d) + 1..], d); }
  }

  /** Exactly when splitting undoes joining. */
  lemma SplitUndoesJoin(ps: seq<string>, d: char)
    requires ps != []
    ensures Split(Join(ps, d), d) == ps <==> Clean(ps, d) && ps[|ps| - 1] != ""
  {
    if Clean(ps, d) {
      SplitOfJoin(ps, d);
    } else {
      TokensAreClean(Join(ps, d), d);
    }
  }

  lemma {:induction false} JoinAppend(ps: seq<string>, qs: seq<string>, d: char)
    requires ps != [] && qs != []
    ensures Join(ps + qs, d) == Join(ps, d) + [d] + Join(qs, d)
  {
    if |ps| == 1 {
      assert (ps + qs)[1..] == qs;
    } else {
      assert (ps + qs)[1..] == ps[1..] + qs;
      JoinAppend(ps[1..], qs, d);
    }
  }

  // ---------------------------------------------------------------- numerals

  predicate IsDigit(c: char) { '0' <= c <= '9' }

  function Digit(n: nat): (c: char)
    requires n < 10
    ensures IsDigit(c) && c as int - '0' as int == n
  {
    ('0' as int + n) as char
  }

  /** The decimal numeral of a number. */
  function Numeral(n: nat): (s: string)
    ensures s != "" && forall c :: c in s ==> IsDigit(c)
  {
    if n < 10 then [Digit(n)] else Numeral(n / 10) + [Digit(n % 10)]
  }

  function Value(s: string): (v: nat)
    requires forall c :: c in s ==> IsDigit(c)
  {
    if s == [] then 0
    else
      assert IsDigit(s[|s| - 1]);
      10 * Value(s[..|s| - 1]) + (s[|s| - 1] as int - '0' as int)
  }

  lemma {:induction false} NumeralHasValue(n: nat)
    ensures Value(Numeral(n)) == n
  {
    var s := Numeral(n);
    if n < 10 {
      assert s[..|s| - 1] == [];
    } else {
      assert s[..|s| - 1] == Numeral(n / 10);
      NumeralHasValue(n / 10);
    }
  }

  function DigitsAt(s: string): (k: nat)
    ensures k <= |s| && (forall c :: c in s[..k] ==> IsDigit(c)) && (k < |s| ==> !IsDigit(s[k]))
  {
    if s == [] || !IsDigit(s[0]) then 0
    else
      var k := DigitsAt(s[1..]);
      assert s[..k + 1] == [s[0]] + s[1..][..k];
      k + 1
  }

  const INT_LIMIT: nat := 0x8000_0000

  /** The number at the start of a text, which is all that the library's conversions look at. */
  function LeadingNumber(s: string): Option<nat> {
    var k := DigitsAt(s);
    if k == 0 then None else Some(Value(s[..k]))
  }

  /** `stoi` on text that starts with a digit or is not a number: the number must fit an int. */
  function Stoi(s: string): Option<nat> {
    var n := LeadingNumber(s);
    if n.Some? && n.value < INT_LIMIT then n else None
  }

  lemma NumeralReadBack(n: nat)
    ensures LeadingNumber(Numeral(n)) == Some(n)
  {
    NumeralHasValue(n);
    var s := Numeral(n);
    assert forall i :: 0 <= i < |s| ==> s[i] in s;
    assert s[..|s|] == s;
  }

  /** A numeral is read back exactly when the number fits an int. */
  lemma StoiOfNumeral(n: nat)
    ensures Stoi(Numeral(n)) == if n < INT_LIMIT then Some(n) else None
  {
    NumeralReadBack(n);
  }
}
