/**
  The word count job: mappers split their inputs into words, count them, and print one
  record for each distinct word into the object of the word's group; the reducer of a
  group parses those objects and adds the counts up.

  The order in which a mapper visits its distinct words is left open, and so is the
  function that assigns words to groups. Counts are unbounded.
 */
module WordCount {
  import opened Options
  import opened Text

  type Table = map<string, seq<nat>>

  // ---------------------------------------------------------------- mapper

  function Words(input: string): seq<string> { Split(input, ' ') }

  function Total(values: seq<nat>): nat {
    if values == [] then 0 else Total(values[..|values| - 1]) + values[|values| - 1]
  }

  method Sum(values: seq<nat>) returns (sum: nat)
    ensures sum == Total(values)
  {
    sum := 0;
    var i := 0;
    while i < |values|
      invariant i <= |values| && sum == Total(values[..i])
    {
      assert values[..i + 1][..i] == values[..i];
      sum := sum + values[i];
      i := i + 1;
    }
    assert values[..i] == values;
  }

  function Ones(n: nat): seq<nat> { seq(n, _ => 1) }

  lemma {:induction false} TotalOnes(n: nat)
    ensures Total(Ones(n)) == n
  {
    if n > 0 {
      assert Ones(n)[..n - 1] == Ones(n - 1);
      TotalOnes(n - 1);
    }
  }

  function Get(table: Table, w: string): seq<nat> {
    if w in table then table[w] else []
  }

  /** Each distinct word has as many ones as it has occurrences. */
  ghost predicate Grouped(keyValues: Table, words: seq<string>) {
    && (forall w :: w in keyValues <==> w in words)
    && (forall w :: w in keyValues ==> keyValues[w] == Ones(multiset(words)[w]))
  }

  lemma NoWords()
    ensures Grouped(map[], [])
  {
  }

  lemma OneMoreWord(keyValues: Table, words: seq<string>, w: string)
    requires Grouped(keyValues, words)
    ensures Grouped(keyValues[w := Get(keyValues, w) + [1]], words + [w])
  {
    assert Ones(multiset(words)[w]) + [1] == Ones(multiset(words)[w] + 1);
    assert multiset(words + [w]) == multiset(words) + multiset{w};
  }

  /** Emits a one for each word. */
  method MapWords(input: string) returns (keyValues: Table)
    ensures Grouped(keyValues, Words(input))
  {
    hide Grouped;
    var words := SplitLoop(input, ' ');
    keyValues := map[];
    NoWords();
    var i := 0;
    while i < |words|
      invariant i <= |words| && Grouped(keyValues, words[..i])
    {
      var w := words[i];
      assert words[..i + 1] == words[..i] + [w];
      OneMoreWord(keyValues, words[..i], w);
      keyValues := keyValues[w := Get(keyValues, w) + [1]];
      i := i + 1;
    }
    assert words[..i] == words;
  }

  datatype Rec = Rec(key: string, count: nat)

  function Print(r: Rec): string {
    r.key + "," + Numeral(r.count) + ";"
  }

  function Printout(rs: seq<Rec>): string {
    if rs == [] then "" else Printout(rs[..|rs| - 1]) + Print(rs[|rs| - 1])
  }

  /** The records for group `g`: the words of that group in the order they are visited, with their numbers. */
  function Records(words: seq<string>, order: seq<string>, part: string -> int, g: int): seq<Rec> {
    if order == [] then []
    else
      var w := order[|order| - 1];
      Records(words, order[..|order| - 1], part, g) + if part(w) == g then [Rec(w, multiset(words)[w])] else []
  }

  /** `order` lists each distinct word once. */
  ghost predicate Enumerates(order: seq<string>, words: seq<string>) {
    && (forall w :: w in order <==> w in words)
    && (forall i, j :: 0 <= i < j < |order| ==> order[i] != order[j])
  }

  ghost predicate Written(objects: map<int, string>, words: seq<string>, order: seq<string>, part: string -> int) {
    forall g :: (g in objects <==> Records(words, order, part, g) != [])
             && (g in objects ==> objects[g] == Printout(Records(words, order, part, g)))
  }

  /** Combines the counts of each word and appends the record to the object of its group. */
  method Mapper(input: string, order: seq<string>, part: string -> int) returns (objects: map<int, string>)
    requires Enumerates(order, Words(input))
    ensures Written(objects, Words(input), order, part)
  {
    var keyValues := MapWords(input);
    objects := map[];
    var i := 0;
    while i < |order|
      invariant i <= |order| && Written(objects, Words(input), order[..i], part)
    {
      var w := order[i];
      assert w in order;
      var sum := Sum(keyValues[w]);
      assert sum == multiset(Words(input))[w] by {
        TotalOnes(multiset(Words(input))[w]);
      }
      var g := part(w);
      OneMoreRecord(objects, Words(input), order, i, part);
      objects := objects[g := (if g in objects then objects[g] else "") + Print(Rec(w, sum))];
      i := i + 1;
    }
    assert order[..i] == order;
  }

  lemma OneMorePrinted(rs: seq<Rec>, r: Rec)
    ensures Printout(rs + [r]) == Printout(rs) + Print(r)
  {
    assert (rs + [r])[..|rs|] == rs;
  }

  lemma RecordsNext(words: seq<string>, order: seq<string>, i: nat, part: string -> int, g: int)
    requires i < |order|
    ensures Records(words, order[..i + 1], part, g) ==
      Records(words, order[..i], part, g) + if part(order[i]) == g then [Rec(order[i], multiset(words)[order[i]])] else []
  {
    assert order[..i + 1][..i] == order[..i];
  }

  lemma OneMoreRecord(objects: map<int, string>, words: seq<string>, order: seq<string>, i: nat, part: string -> int)
    requires i < |order| && Written(objects, words, order[..i], part)
    ensures var w := order[i]; var g := part(w);
      Written(objects[g := (if g in objects then objects[g] else "") + Print(Rec(w, multiset(words)[w]))], words, order[..i + 1], part)
  {
    hide Records, Print, Printout;
    var w := order[i];
    var r := Rec(w, multiset(words)[w]);
    var next := objects[part(w) := (if part(w) in objects then objects[part(w)] else "") + Print(r)];
    forall g ensures
      && (g in next <==> Records(words, order[..i + 1], part, g) != [])
      && (g in next ==> next[g] == Printout(Records(words, order[..i + 1], part, g)))
    {
      var rs := Records(words, order[..i], part, g);
      RecordsNext(words, order, i, part, g);
      OneMorePrinted(rs, r);
      NothingPrinted();
      assert rs + [] == rs;
    }
  }

  lemma NothingPrinted()
    ensures Printout([]) == ""
  {
  }

  // ---------------------------------------------------------------- reducer

  /** The state of the scan: where the current key and value start, the key read so far in this record, the table. */
  datatype Scan = Scan(keyStart: nat, valStart: nat, key: string, table: Table) | Failed

  /** What a record adds to the table; a value that is not a number stops the function. */
  function Add(table: Table, key: string, val: string): Option<Table> {
    if key == "" then Some(table)
    else if val == "" then Some(table[key := []])
    else if LeadingNumber(val).None? then None
    else Some(table[key := Get(table, key) + [LeadingNumber(val).value]])
  }

  function Step(text: string, pos: nat, s: Scan): (r: Scan)
    requires pos < |text| && (s.Scan? ==> s.keyStart <= pos && s.valStart <= pos)
    ensures r.Scan? ==> r.keyStart <= pos + 1 && r.valStart <= pos + 1
  {
    if s.Failed? then Failed
    else if text[pos] == ',' then s.(key := text[s.keyStart..pos], valStart := pos + 1)
    else if text[pos] == ';' then
      var added := Add(s.table, s.key, text[s.valStart..pos]);
      if added.None? then Failed else Scan(pos + 1, s.valStart, "", added.value)
    else s
  }

  /** The scan of the first `n` characters. */
  function Scanned(text: string, table: Table, n: nat): (r: Scan)
    requires n <= |text|
    ensures r.Scan? ==> r.keyStart <= n && r.valStart <= n
  {
    if n == 0 then Scan(0, 0, "", table) else Step(text, n - 1, Scanned(text, table, n - 1))
  }

  function Parsed(text: string, table: Table): Option<Table> {
    var s := Scanned(text, table, |text|);
    if s.Failed? then None else Some(s.table)
  }

  method Parse(text: string, table: Table) returns (r: Option<Table>)
    ensures r == Parsed(text, table)
  {
    var keyStart, valStart, key, input := 0, 0, "", table;
    var pos := 0;
    while pos < |text|
      invariant pos <= |text| && keyStart <= pos && valStart <= pos
      invariant Scanned(text, table, pos) == Scan(keyStart, valStart, key, input)
    {
      if text[pos] == ',' {
        key := text[keyStart..pos];
        valStart := pos + 1;
      } else if text[pos] == ';' {
        var val := text[valStart..pos];
        if key != "" {
          if val == "" {
            input := input[key := []];
          } else {
            var n := LeadingNumber(val);
            if n.None? {
              FailsForGood(text, table, pos + 1);
              return None;
            }
            input := input[key := Get(input, key) + [n.value]];
          }
        }
        keyStart := pos + 1;
        key := "";
      }
      pos := pos + 1;
    }
    return Some(input);
  }

  lemma {:induction false} FailsForGood(text: string, table: Table, n: nat)
    requires n <= |text| && Scanned(text, table, n).Failed?
    ensures Scanned(text, table, |text|).Failed?
    decreases |text| - n
  {
    if n < |text| { FailsForGood(text, table, n + 1); }
  }

  /** Parses one object after the other into one table. */
  function ParsedAll(texts: seq<string>): Option<Table> {
    if texts == [] then Some(map[])
    else
      var before := ParsedAll(texts[..|texts| - 1]);
      if before.None? then None else Parsed(texts[|texts| - 1], before.value)
  }

  function Reduced(texts: seq<string>): Option<map<string, nat>> {
    var table := ParsedAll(texts);
    if table.None? then None else Some(Sums(table.value))
  }

  function Sums(table: Table): map<string, nat> {
    map w | w in table :: Total(table[w])
  }

  method Reducer(texts: seq<string>) returns (r: Option<map<string, nat>>)
    ensures r == Reduced(texts)
  {
    var table: Table := map[];
    var i := 0;
    while i < |texts|
      invariant i <= |texts| && ParsedAll(texts[..i]) == Some(table)
    {
      assert texts[..i + 1][..i] == texts[..i];
      var next := Parse(texts[i], table);
      if next.None? {
        NoneForGood(texts, i + 1);
        return None;
      }
      table := next.value;
      i := i + 1;
    }
    assert texts[..i] == texts;
    var out := SumAll(table);
    return Some(out);
  }

  method SumAll(table: Table) returns (out: map<string, nat>)
    ensures out == Sums(table)
  {
    out := map[];
    var keys := table.Keys;
    while keys != {}
      invariant keys <= table.Keys
      invariant out == map w | w in table && w !in keys :: Total(table[w])
      decreases |keys|
    {
      var w :| w in keys;
      var sum := Sum(table[w]);
      out := out[w := sum];
      keys := keys - {w};
    }
    assert out == Sums(table);
  }

  lemma {:induction false} NoneForGood(texts: seq<string>, i: nat)
    requires i <= |texts| && ParsedAll(texts[..i]).None?
    ensures ParsedAll(texts).None?
    decreases |texts| - i
  {
    if i < |texts| {
      assert texts[..i + 1][..i] == texts[..i];
      NoneForGood(texts, i + 1);
    } else {
      assert texts[..i] == texts;
    }
  }

  // ---------------------------------------------------------------- parsing undoes printing

  /** The table after the records `rs`; records of the empty word are dropped. */
  function Entered(table: Table, rs: seq<Rec>): Table {
    if rs == [] then table
    else
      var t, r := Entered(table, rs[..|rs| - 1]), rs[|rs| - 1];
      if r.key == "" then t else t[r.key := Get(t, r.key) + [r.count]]
  }

  lemma ScannedNext(text: string, table: Table, n: nat)
    requires n < |text|
    ensures Scanned(text, table, n + 1) == Step(text, n, Scanned(text, table, n))
  {
  }

  lemma SliceOfPrefix(text: string, more: string, i: nat, j: nat)
    requires i <= j <= |text|
    ensures (text + more)[i..j] == text[i..j]
  {
  }

  lemma StepPrefix(text: string, more: string, pos: nat, s: Scan)
    requires pos < |text| && (s.Scan? ==> s.keyStart <= pos && s.valStart <= pos)
    ensures Step(text + more, pos, s) == Step(text, pos, s)
  {
    hide Add;
    if s.Scan? {
      SliceOfPrefix(text, more, s.keyStart, pos);
      SliceOfPrefix(text, more, s.valStart, pos);
    }
  }

  lemma {:induction false} ScannedPrefix(text: string, more: string, table: Table, n: nat)
    requires n <= |text|
    ensures Scanned(text + more, table, n) == Scanned(text, table, n)
  {
    hide Step;
    if n > 0 {
      ScannedPrefix(text, more, table, n - 1);
      StepPrefix(text, more, n - 1, Scanned(text, table, n - 1));
    }
  }

  /** Characters other than ';' leave the table and the start of the key alone. */
  lemma {:induction false} ScanKey(text: string, table: Table, from: nat, n: nat)
    requires from <= n <= |text| && ';' !in text[from..n] && Scanned(text, table, from).Scan?
    ensures var a, b := Scanned(text, table, from), Scanned(text, table, n);
      b.Scan? && b.keyStart == a.keyStart && b.table == a.table
  {
    hide Add;
    if from < n {
      assert text[from..n - 1] == text[from..n][..n - 1 - from] && text[n - 1] == text[from..n][n - 1 - from];
      ScanKey(text, table, from, n - 1);
    }
  }

  /** Characters that are neither ',' nor ';' change nothing. */
  lemma {:induction false} ScanPlain(text: string, table: Table, from: nat, n: nat)
    requires from <= n <= |text| && ';' !in text[from..n] && ',' !in text[from..n]
    ensures Scanned(text, table, n) == Scanned(text, table, from)
  {
    hide Add;
    if from < n {
      assert text[from..n - 1] == text[from..n][..n - 1 - from] && text[n - 1] == text[from..n][n - 1 - from];
      ScanPlain(text, table, from, n - 1);
    }
  }

  lemma RecordLayout(before: string, r: Rec)
    ensures var text, a, n := before + Print(r), |before|, |Numeral(r.count)|;
      var comma := a + |r.key|; var semi := comma + 1 + n;
      && |text| == semi + 1 && text[a..comma] == r.key && text[comma] == ','
      && text[comma + 1..semi] == Numeral(r.count) && text[semi] == ';'
  {
  }

  /** Scanning one printed record enters it. */
  lemma ScanRecord(before: string, table: Table, r: Rec, t: Table)
    requires ';' !in r.key
    requires var s := Scanned(before, table, |before|); s.Scan? && s.keyStart == |before| && s.key == "" && s.table == t
    ensures var text := before + Print(r); var s := Scanned(text, table, |text|);
      s.Scan? && s.keyStart == |text| && s.key == "" && s.table == Entered(t, [r])
  {
    hide Print, Numeral, LeadingNumber, Scanned, Entered;
    var text := before + Print(r);
    var a := |before|;
    var comma := a + |r.key|;
    var semi := comma + 1 + |Numeral(r.count)|;
    RecordLayout(before, r);
    ScannedPrefix(before, Print(r), table, a);
    ScanKey(text, table, a, comma);
    ScannedNext(text, table, comma);
    ScanPlain(text, table, comma + 1, semi);
    ScannedNext(text, table, semi);
    NumeralReadBack(r.count);
    EnteredOne(t, r);
  }

  lemma EnteredOne(t: Table, r: Rec)
    ensures Entered(t, [r]) == if r.key == "" then t else t[r.key := Get(t, r.key) + [r.count]]
  {
    assert [r][..0] == [];
  }

  ghost predicate CleanKeys(rs: seq<Rec>) {
    forall i :: 0 <= i < |rs| ==> ';' !in rs[i].key
  }

  lemma {:induction false} ScanRecords(rs: seq<Rec>, table: Table)
    requires CleanKeys(rs)
    ensures var text := Printout(rs); var s := Scanned(text, table, |text|);
      s.Scan? && s.keyStart == |text| && s.key == "" && s.table == Entered(table, rs)
  {
    if rs != [] {
      var init, r := rs[..|rs| - 1], rs[|rs| - 1];
      ScanRecords(init, table);
      ScanRecord(Printout(init), table, r, Entered(table, init));
      EnteredOne(Entered(table, init), r);
    }
  }

  /** Parsing what a mapper printed enters its records, as long as no word holds a ';'. */
  lemma ParseUndoesPrint(rs: seq<Rec>, table: Table)
    requires CleanKeys(rs)
    ensures Parsed(Printout(rs), table) == Some(Entered(table, rs))
  {
    ScanRecords(rs, table);
  }

  // ---------------------------------------------------------------- the whole job

  /** The mappers' inputs, with the order each mapper visits its words in. */
  datatype Job = Job(inputs: seq<string>, orders: seq<seq<string>>, part: string -> int)

  ghost predicate Proper(job: Job) {
    |job.orders| == |job.inputs| && forall i :: 0 <= i < |job.inputs| ==> Enumerates(job.orders[i], Words(job.inputs[i]))
  }

  ghost function RecordsOf(job: Job, i: nat, g: int): seq<Rec>
    requires Proper(job) && i < |job.inputs|
  {
    Records(Words(job.inputs[i]), job.orders[i], job.part, g)
  }

  /** The objects of group `g` of the first `n` mappers; a mapper without a word of the group makes none. */
  ghost function Objects(job: Job, n: nat, g: int): seq<string>
    requires Proper(job) && n <= |job.inputs|
  {
    if n == 0 then []
    else
      var rs := RecordsOf(job, n - 1, g);
      Objects(job, n - 1, g) + if rs == [] then [] else [Printout(rs)]
  }

  /** What the reducer of group `g` computes, or none if it stops on a value that is not a number. */
  ghost function Output(job: Job, g: int): Option<map<string, nat>>
    requires Proper(job)
  {
    Reduced(Objects(job, |job.inputs|, g))
  }

  /** Runs all mappers, hands the objects of one group to its reducer, and returns what it computes. */
  method CountGroup(job: Job, g: int) returns (r: Option<map<string, nat>>)
    requires Proper(job)
    ensures r == Output(job, g)
  {
    hide Reduced, Printout, Records;
    var texts: seq<string> := [];
    var i := 0;
    while i < |job.inputs|
      invariant i <= |job.inputs| && texts == Objects(job, i, g)
    {
      var objects := Mapper(job.inputs[i], job.orders[i], job.part);
      if g in objects {
        texts := texts + [objects[g]];
      }
      i := i + 1;
    }
    r := Reducer(texts);
  }

  /** How often `w` occurs in the first `n` inputs. */
  ghost function Occurrences(job: Job, n: nat, w: string): nat
    requires n <= |job.inputs|
  {
    if n == 0 then 0 else Occurrences(job, n - 1, w) + multiset(Words(job.inputs[n - 1]))[w]
  }

  ghost predicate NoSemicolons(job: Job) {
    forall i, w :: 0 <= i < |job.inputs| && w in Words(job.inputs[i]) ==> ';' !in w
  }

  ghost function Listed(table: Table, w: string): nat { Total(Get(table, w)) }

  /** Records of one mapper add to each word of the group its number of occurrences in that input. */
  lemma {:induction false} EnterMapper(table: Table, words: seq<string>, order: seq<string>, part: string -> int, g: int, w: string)
    requires forall i, j :: 0 <= i < j < |order| ==> order[i] != order[j]
    requires w != ""
    ensures var t := Entered(table, Records(words, order, part, g)); var here := w in order && part(w) == g;
      Listed(t, w) == Listed(table, w) + (if here then multiset(words)[w] else 0) && (w in t <==> w in table || here)
  {
    hide Entered, Listed;
    if order == [] {
      EnterNothing(table);
    } else {
      var init, v := order[..|order| - 1], order[|order| - 1];
      EnterMapper(table, words, init, part, g, w);
      var rs := Records(words, init, part, g);
      if part(v) == g {
        EnterRecord(table, rs, Rec(v, multiset(words)[v]), w);
      } else {
        assert rs + [] == rs;
      }
      assert w in order <==> w in init || w == v;
    }
  }

  lemma EnterNothing(table: Table)
    ensures Entered(table, []) == table
  {
  }

  lemma EnterRecord(table: Table, rs: seq<Rec>, r: Rec, w: string)
    requires w != ""
    ensures var t, t' := Entered(table, rs), Entered(table, rs + [r]);
      Listed(t', w) == Listed(t, w) + (if r.key == w then r.count else 0) && (w in t' <==> w in t || r.key == w)
  {
    assert (rs + [r])[..|rs|] == rs;
    var t := Entered(table, rs);
    assert (Get(t, w) + [r.count])[..|Get(t, w)|] == Get(t, w);
  }

  lemma RecordsAreClean(words: seq<string>, order: seq<string>, part: string -> int, g: int)
    requires forall w :: w in order ==> ';' !in w
    ensures CleanKeys(Records(words, order, part, g))
  {
    if order != [] { RecordsAreClean(words, order[..|order| - 1], part, g); }
  }

  /** After the first `n` mappers the table of group `g` holds exactly the group's words, with their numbers. */
  lemma {:induction false} TableIsExact(job: Job, n: nat, g: int, w: string)
    requires Proper(job) && NoSemicolons(job) && n <= |job.inputs| && w != ""
    ensures var t := ParsedAll(Objects(job, n, g)); var here := job.part(w) == g;
      && t.Some?
      && Listed(t.value, w) == (if here then Occurrences(job, n, w) else 0)
      && (w in t.value <==> here && Occurrences(job, n, w) > 0)
  {
    hide ParsedAll, Objects, Entered, Records, Listed, RecordsOf;
    if n == 0 {
      NothingListed(job, g, w);
    } else {
      TableIsExact(job, n - 1, g, w);
      var words, order := Words(job.inputs[n - 1]), job.orders[n - 1];
      var t := ParsedAll(Objects(job, n - 1, g)).value;
      assert Enumerates(order, words);
      OneMoreMapper(job, n - 1, g, t);
      EnterMapper(t, words, order, job.part, g, w);
      assert w in words <==> multiset(words)[w] > 0;
    }
  }

  lemma OneMoreMapper(job: Job, n: nat, g: int, t: Table)
    requires Proper(job) && NoSemicolons(job) && n < |job.inputs| && ParsedAll(Objects(job, n, g)) == Some(t)
    ensures ParsedAll(Objects(job, n + 1, g)) == Some(Entered(t, Records(Words(job.inputs[n]), job.orders[n], job.part, g)))
  {
    hide Parsed, Entered, Records, Printout;
    var words, order, rs, before := Words(job.inputs[n]), job.orders[n], RecordsOf(job, n, g), Objects(job, n, g);
    assert Enumerates(order, words);
    RecordsAreClean(words, order, job.part, g);
    ParseUndoesPrint(rs, t);
    EnterNothing(t);
    if rs != [] {
      assert (before + [Printout(rs)])[..|before|] == before;
    } else {
      assert before + [] == before;
    }
  }

  lemma NothingListed(job: Job, g: int, w: string)
    requires Proper(job)
    ensures ParsedAll(Objects(job, 0, g)) == Some(map[]) && Listed(map[], w) == 0
  {
  }

  /** The reducer of group `g` has `w` exactly if it is a word of that group, and then with its number. */
  ghost predicate ExactAt(job: Job, g: int, w: string)
    requires Proper(job)
  {
    var out, n := Output(job, g), Occurrences(job, |job.inputs|, w);
    && out.Some?
    && (w in out.value <==> w != "" && job.part(w) == g && n > 0)
    && (w in out.value ==> out.value[w] == n)
  }

  /** Every reducer counts exactly the words of its group. */
  ghost predicate Exact(job: Job)
    requires Proper(job)
  {
    forall g, w :: ExactAt(job, g, w)
  }

  // ---------------------------------------------------------------- words with a ';'

  ghost predicate CleanTable(table: Table) {
    forall w :: w in table ==> ';' !in w && w != ""
  }

  ghost predicate CleanScan(text: string, n: nat, s: Scan)
    requires n <= |text| && (s.Scan? ==> s.keyStart <= n)
  {
    s.Scan? ==> CleanTable(s.table) && ';' !in text[s.keyStart..n] && ';' !in s.key
  }

  lemma StepStaysClean(text: string, pos: nat, s: Scan)
    requires pos < |text| && (s.Scan? ==> s.keyStart <= pos && s.valStart <= pos) && CleanScan(text, pos, s)
    ensures CleanScan(text, pos + 1, Step(text, pos, s))
  {
    hide LeadingNumber;
    if s.Scan? && text[pos] != ';' {
      assert text[s.keyStart..pos + 1] == text[s.keyStart..pos] + [text[pos]];
    }
  }

  /** The scan never takes a key across a ';', whatever the text. */
  lemma {:induction false} KeysAreClean(text: string, table: Table, n: nat)
    requires n <= |text| && CleanTable(table)
    ensures CleanScan(text, n, Scanned(text, table, n))
  {
    hide Step;
    if n > 0 {
      KeysAreClean(text, table, n - 1);
      StepStaysClean(text, n - 1, Scanned(text, table, n - 1));
    }
  }

  lemma {:induction false} AllKeysAreClean(texts: seq<string>)
    ensures var t := ParsedAll(texts); t.Some? ==> CleanTable(t.value)
  {
    if texts != [] {
      AllKeysAreClean(texts[..|texts| - 1]);
      var before := ParsedAll(texts[..|texts| - 1]);
      if before.Some? {
        var text := texts[|texts| - 1];
        KeysAreClean(text, before.value, |text|);
      }
    }
  }

  lemma {:induction false} Occurs(job: Job, n: nat, i: nat, w: string)
    requires i < n <= |job.inputs| && w in Words(job.inputs[i])
    ensures Occurrences(job, n, w) > 0
  {
    if i < n - 1 { Occurs(job, n - 1, i, w); }
  }

  /** The job counts every non-empty word exactly if and only if no word of any input holds a ';'. */
  lemma ExactIff(job: Job)
    requires Proper(job)
    ensures Exact(job) <==> NoSemicolons(job)
  {
    if NoSemicolons(job) {
      forall g, w ensures ExactAt(job, g, w) {
        ExactFor(job, g, w);
      }
    } else {
      var i, w :| 0 <= i < |job.inputs| && w in Words(job.inputs[i]) && ';' in w;
      Occurs(job, |job.inputs|, i, w);
      AllKeysAreClean(Objects(job, |job.inputs|, job.part(w)));
      assert !ExactAt(job, job.part(w), w);
    }
  }

  lemma ExactFor(job: Job, g: int, w: string)
    requires Proper(job) && NoSemicolons(job)
    ensures ExactAt(job, g, w)
  {
    hide ParsedAll, Objects;
    AllKeysAreClean(Objects(job, |job.inputs|, g));
    TableIsExact(job, |job.inputs|, g, if w == "" then "x" else w);
  }

  /** The word `a;b` adds to the count of the word `b`. */
  lemma WrongCount(part: string -> int)
    ensures var job := Job(["a;b b"], [["a;b", "b"]], part);
      && Proper(job) && Occurrences(job, 1, "b") == 1
      && (part("a;b") == part("b") ==>
        Output(job, part("b")).Some? && "b" in Output(job, part("b")).value && Output(job, part("b")).value["b"] == 2)
  {
    hide Reduced, Records, Printout, Words, Enumerates;
    var ws := ["a;b", "b"];
    var job := Job(["a;b b"], [ws], part);
    TwoWords(ws);
    if part("a;b") == part("b") {
      var g := part("b");
      WrongRecords(ws, part, g);
      assert Objects(job, 0, g) == [];
      WrongSums(Objects(job, 1, g));
    }
  }

  lemma WrongSums(texts: seq<string>)
    requires texts == ["a;b,1;b,1;"]
    ensures Reduced(texts) == Some(map["b" := 2])
  {
    hide Parsed, Total;
    var empty: Table := map[];
    var two: Table := empty["b" := [1]]["b" := [1, 1]];
    ScanWrong(empty, empty["b" := [1]], two);
    assert texts[..0] == [];
    assert ParsedAll(texts) == Some(two);
    assert Total([1, 1]) == 2 by {
      assert Ones(2) == [1, 1];
      TotalOnes(2);
    }
    assert Sums(two) == map["b" := 2];
  }

  lemma NoKey(table: Table, val: string)
    ensures Add(table, "", val) == Some(table)
  {
  }

  lemma AddOne(table: Table)
    ensures Add(table, "b", "1") == Some(table["b" := Get(table, "b") + [1]])
  {
    One();
  }

  lemma WrongRecords(ws: seq<string>, part: string -> int, g: int)
    requires ws == ["a;b", "b"] && part("a;b") == g && part("b") == g
    ensures Records(ws, ws, part, g) == [Rec("a;b", 1), Rec("b", 1)]
    ensures Printout(Records(ws, ws, part, g)) == "a;b,1;b,1;"
  {
    hide Records, Printout;
    TwoWords(ws);
    RecordsNext(ws, ws, 0, part, g);
    RecordsNext(ws, ws, 1, part, g);
    assert ws[..0 + 1] == ws[..1] && ws[..1 + 1] == ws;
    NoRecords(ws, part, g);
    WrongText([Rec("a;b", 1), Rec("b", 1)]);
  }

  lemma WrongText(rs: seq<Rec>)
    requires rs == [Rec("a;b", 1), Rec("b", 1)]
    ensures Printout(rs) == "a;b,1;b,1;"
  {
    hide Printout;
    OneMorePrinted([], rs[0]);
    OneMorePrinted([rs[0]], rs[1]);
    NothingPrinted();
    One();
    assert [] + [rs[0]] == [rs[0]] && [rs[0]] + [rs[1]] == rs;
  }

  lemma NoRecords(words: seq<string>, part: string -> int, g: int)
    ensures Records(words, words[..0], part, g) == []
  {
  }

  lemma TwoWords(ws: seq<string>)
    requires ws == ["a;b", "b"]
    ensures Words("a;b b") == ws && Enumerates(ws, ws) && multiset(ws)["b"] == 1 && multiset(ws)["a;b"] == 1
  {
    assert Join(ws, ' ') == "a;b b" by { assert ws[1..] == ["b"]; }
    SplitOfJoin(ws, ' ');
    assert ws == ["a;b"] + ["b"];
  }

  lemma ScanWrong(empty: Table, one: Table, two: Table)
    requires empty == map[] && one == empty["b" := [1]] && two == one["b" := [1, 1]]
    ensures Parsed("a;b,1;b,1;", empty) == Some(two)
  {
    hide Add;
    var text := "a;b,1;b,1;";
    assert Scanned(text, empty, 1) == Scan(0, 0, "", empty);
    NoKey(empty, text[0..1]);
    assert Scanned(text, empty, 2) == Scan(2, 0, "", empty);
    assert Scanned(text, empty, 3) == Scan(2, 0, "", empty);
    assert text[2..3] == "b";
    assert Scanned(text, empty, 4) == Scan(2, 4, "b", empty);
    assert Scanned(text, empty, 5) == Scan(2, 4, "b", empty);
    AddOne(empty);
    assert text[4..5] == "1" && Get(empty, "b") + [1] == [1];
    assert Scanned(text, empty, 6) == Scan(6, 4, "", one);
    assert Scanned(text, empty, 7) == Scan(6, 4, "", one);
    assert text[6..7] == "b";
    assert Scanned(text, empty, 8) == Scan(6, 8, "b", one);
    assert Scanned(text, empty, 9) == Scan(6, 8, "b", one);
    AddOne(one);
    assert text[8..9] == "1" && Get(one, "b") + [1] == [1, 1];
    assert Scanned(text, empty, 10) == Scan(10, 8, "", two);
  }

  lemma One()
    ensures Numeral(1) == "1" && LeadingNumber("1") == Some(1)
  {
    NumeralReadBack(1);
  }
}
