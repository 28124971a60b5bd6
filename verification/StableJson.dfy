/**
 * The canonical text behind request fingerprints. Two values have the same text
 * exactly when they are equal up to the order of object keys, at any depth; an
 * undefined value counts as null and a date as its ISO string.
 *
 * Numbers are integers. Strings are sequences of Unicode scalar values, quoted and
 * escaped as in section 7 of RFC 8259. Keys are ordered by code point.
 */
module StableJson {
  import opened Collections
  import opened Decimals

  datatype Json =
    | Null
    | Undefined
    | Bool(b: bool)
    | Number(n: int)
    | Str(s: string)
    | Date(iso: string)
    | Arr(items: seq<Json>)
    | Obj(fields: seq<Field>)

  datatype Field = Field(key: string, value: Json)

  /** An object has each key once. */
  predicate WellFormed(j: Json) {
    match j
    case Arr(items) => forall i :: 0 <= i < |items| ==> WellFormed(items[i])
    case Obj(fields) =>
      && (forall i, k :: 0 <= i < k < |fields| ==> fields[i].key != fields[k].key)
      && (forall i :: 0 <= i < |fields| ==> WellFormed(fields[i].value))
    case _ => true
  }

  /** Equality up to key order. */
  predicate Same(a: Json, b: Json) {
    match a
    case Null => b.Null? || b.Undefined?
    case Undefined => b.Null? || b.Undefined?
    case Bool(v) => b == Bool(v)
    case Number(v) => b == Number(v)
    case Str(s) => b == Str(s) || b == Date(s)
    case Date(s) => b == Str(s) || b == Date(s)
    case Arr(items) =>
      b.Arr? && |items| == |b.items| && forall i :: 0 <= i < |items| ==> Same(items[i], b.items[i])
    case Obj(fields) =>
      && b.Obj? && |fields| == |b.fields|
      && forall i :: 0 <= i < |fields| ==>
           exists k :: 0 <= k < |b.fields| && fields[i].key == b.fields[k].key && Same(fields[i].value, b.fields[k].value)
  }

  // ---------------------------------------------------------------- text

  /** The characters with a two-character escape. */
  predicate Short(c: char) {
    c == '\"' || c == '\\' || c == '\n' || c == '\r' || c == '\t' || c as int == 8 || c as int == 12
  }

  function Letter(c: char): char
    requires Short(c)
  {
    if c == '\n' then 'n' else if c == '\r' then 'r' else if c == '\t' then 't'
    else if c as int == 8 then 'b' else if c as int == 12 then 'f' else c
  }

  function Escape(c: char): string {
    if Short(c) then ['\\', Letter(c)]
    else if c as int < 32 then ['\\', 'u', '0', '0', Hex(c as int / 16), Hex(c as int % 16)]
    else [c]
  }

  function EscapeAll(s: string): string {
    if s == [] then [] else Escape(s[0]) + EscapeAll(s[1..])
  }

  function Quote(s: string): string {
    "\"" + EscapeAll(s) + "\""
  }

  function JoinItems(texts: seq<string>): string {
    if texts == [] then "" else if |texts| == 1 then texts[0] else texts[0] + "," + JoinItems(texts[1..])
  }

  /** A key with the text of its value. */
  datatype Entry = Entry(key: string, text: string)

  predicate Before(a: string, b: string) {
    if b == "" then false
    else if a == "" then true
    else a[0] < b[0] || (a[0] == b[0] && Before(a[1..], b[1..]))
  }

  function Insert(e: Entry, sorted: seq<Entry>): seq<Entry> {
    if sorted == [] || !Before(sorted[0].key, e.key) then [e] + sorted
    else [sorted[0]] + Insert(e, sorted[1..])
  }

  function SortByKey(entries: seq<Entry>): seq<Entry> {
    if entries == [] then [] else Insert(entries[0], SortByKey(entries[1..]))
  }

  function EntryText(e: Entry): string {
    Quote(e.key) + ":" + e.text
  }

  function EntryTexts(entries: seq<Entry>): (texts: seq<string>)
    ensures |texts| == |entries| && forall i :: 0 <= i < |texts| ==> texts[i] == EntryText(entries[i])
  {
    if entries == [] then [] else [EntryText(entries[0])] + EntryTexts(entries[1..])
  }

  function StableStringify(j: Json): string
    decreases j, 1
  {
    match j
    case Null => "null"
    case Undefined => "null"
    case Bool(b) => if b then "true" else "false"
    case Number(n) => NumberText(n)
    case Str(s) => Quote(s)
    case Date(iso) => Quote(iso)
    case Arr(items) => "[" + JoinItems(ItemTexts(j, 0)) + "]"
    case Obj(fields) => "{" + JoinItems(EntryTexts(SortByKey(Entries(j, 0)))) + "}"
  }

  function ItemTexts(j: Json, from: nat): (texts: seq<string>)
    requires j.Arr? && from <= |j.items|
    ensures |texts| == |j.items| - from
    ensures forall i :: 0 <= i < |texts| ==> texts[i] == StableStringify(j.items[from + i])
    decreases j, 0, |j.items| - from
  {
    if from == |j.items| then [] else [StableStringify(j.items[from])] + ItemTexts(j, from + 1)
  }

  function Entries(j: Json, from: nat): (entries: seq<Entry>)
    requires j.Obj? && from <= |j.fields|
    ensures |entries| == |j.fields| - from
    ensures forall i :: 0 <= i < |entries| ==>
              entries[i] == Entry(j.fields[from + i].key, StableStringify(j.fields[from + i].value))
    decreases j, 0, |j.fields| - from
  {
    if from == |j.fields| then []
    else [Entry(j.fields[from].key, StableStringify(j.fields[from].value))] + Entries(j, from + 1)
  }

  // ---------------------------------------------------------------- texts that end by themselves

  /** What may follow a value inside a larger text. */
  predicate Stop(rest: string) {
    rest == "" || rest[0] in {',', ']', '}'}
  }

  /** No escape is the beginning of another. */
  lemma EscapePrefixFree(c: char, d: char)
    requires forall i :: 0 <= i < |Escape(c)| && i < |Escape(d)| ==> Escape(c)[i] == Escape(d)[i]
    ensures c == d
  {
    assert Escape(c)[0] == Escape(d)[0];
    if Escape(c)[0] == '\\' {
      assert Escape(c)[1] == Escape(d)[1];
      if Escape(c)[1] == 'u' {
        assert Escape(c)[4] == Escape(d)[4] && Escape(c)[5] == Escape(d)[5];
      }
    }
  }

  lemma EscapeUnique(c: char, d: char, x: string, y: string)
    requires Escape(c) + x == Escape(d) + y
    ensures c == d && x == y
  {
    forall i | 0 <= i < |Escape(c)| && i < |Escape(d)|
      ensures Escape(c)[i] == Escape(d)[i]
    {
      assert (Escape(c) + x)[i] == (Escape(d) + y)[i];
    }
    EscapePrefixFree(c, d);
    Split(Escape(c), x, Escape(d), y);
  }

  lemma EscapeStarts(s: string, x: string)
    ensures var text := EscapeAll(s) + ("\"" + x);
            && text != []
            && (text[0] == '\"' <==> s == [])
            && (s == [] ==> text == "\"" + x)
            && (s != [] ==> text == Escape(s[0]) + (EscapeAll(s[1..]) + ("\"" + x)))
  {
    if s == [] {
      assert EscapeAll(s) + ("\"" + x) == "\"" + x;
    } else {
      Regroup(Escape(s[0]), EscapeAll(s[1..]), "\"" + x);
      assert Escape(s[0])[0] != '\"';
    }
  }

  lemma {:induction false} EscapeAllUnique(s: string, t: string, x: string, y: string)
    requires EscapeAll(s) + ("\"" + x) == EscapeAll(t) + ("\"" + y)
    ensures s == t && x == y
  {
    EscapeStarts(s, x);
    EscapeStarts(t, y);
    if s == [] {
      Split("\"", x, "\"", y);
    } else {
      EscapeUnique(s[0], t[0], EscapeAll(s[1..]) + ("\"" + x), EscapeAll(t[1..]) + ("\"" + y));
      EscapeAllUnique(s[1..], t[1..], x, y);
      assert s == [s[0]] + s[1..] && t == [t[0]] + t[1..];
    }
  }

  lemma QuoteRegroup(s: string, x: string)
    ensures Quote(s) + x == "\"" + (EscapeAll(s) + ("\"" + x))
  {
    Regroup("\"" + EscapeAll(s), "\"", x);
    Regroup("\"", EscapeAll(s), "\"" + x);
  }

  lemma QuoteUnique(s: string, t: string, x: string, y: string)
    requires Quote(s) + x == Quote(t) + y
    ensures s == t && x == y
  {
    QuoteRegroup(s, x);
    QuoteRegroup(t, y);
    Split("\"", EscapeAll(s) + ("\"" + x), "\"", EscapeAll(t) + ("\"" + y));
    EscapeAllUnique(s, t, x, y);
  }

  predicate DigitAt(text: string, k: nat) {
    k < |text| && Digit(text[k])
  }

  /** A number's digits are told from what follows it. */
  lemma DigitRun(n: nat, x: string)
    requires Stop(x)
    ensures !DigitAt(NatText(n) + x, |NatText(n)|)
    ensures forall k :: 0 <= k < |NatText(n)| ==> DigitAt(NatText(n) + x, k)
  {
    NatDigits(n);
  }

  lemma NatUnique(m: nat, n: nat, x: string, y: string)
    requires Stop(x) && Stop(y) && NatText(m) + x == NatText(n) + y
    ensures m == n && x == y
  {
    DigitRun(m, x);
    DigitRun(n, y);
    assert |NatText(m)| == |NatText(n)|;
    Split(NatText(m), x, NatText(n), y);
    NatInjective(m, n);
  }

  lemma NumberStarts(n: int, x: string)
    ensures NumberText(n) + x != "" && ((NumberText(n) + x)[0] == '-' <==> n < 0)
    ensures n < 0 ==> NumberText(n) + x == "-" + (NatText(-n) + x)
  {
    if n < 0 {
      Regroup("-", NatText(-n), x);
    } else {
      NatDigits(n);
    }
  }

  lemma NumberUnique(m: int, n: int, x: string, y: string)
    requires Stop(x) && Stop(y) && NumberText(m) + x == NumberText(n) + y
    ensures m == n && x == y
  {
    NumberStarts(m, x);
    NumberStarts(n, y);
    if m < 0 {
      Split("-", NatText(-m) + x, "-", NatText(-n) + y);
      NatUnique(-m, -n, x, y);
    } else {
      NatUnique(m, n, x, y);
    }
  }

  // ---------------------------------------------------------------- equal texts come from equal values

  /** The first character tells the kinds apart that `Same` tells apart. */
  function Head(j: Json): char {
    match j
    case Null => 'n'
    case Undefined => 'n'
    case Bool(b) => if b then 't' else 'f'
    case Number(n) => if n < 0 then '-' else '0'
    case Str(_) => '\"'
    case Date(_) => '\"'
    case Arr(_) => '['
    case Obj(_) => '{'
  }

  lemma TextHead(j: Json)
    ensures var text := StableStringify(j);
            text != "" && (if j.Number? && j.n >= 0 then Digit(text[0]) else text[0] == Head(j))
  {
    if j.Number? && j.n >= 0 {
      NatDigits(j.n);
    }
  }

  lemma SameHeads(a: Json, b: Json, x: string, y: string)
    requires StableStringify(a) + x == StableStringify(b) + y
    ensures Head(a) == Head(b)
  {
    TextHead(a);
    TextHead(b);
    assert (StableStringify(a) + x)[0] == StableStringify(a)[0];
    assert (StableStringify(b) + y)[0] == StableStringify(b)[0];
  }

  lemma {:induction false} TextUnique(a: Json, b: Json, x: string, y: string)
    requires WellFormed(a) && WellFormed(b) && Stop(x) && Stop(y)
    requires StableStringify(a) + x == StableStringify(b) + y
    ensures Same(a, b) && x == y
    decreases a, 2
  {
    SameHeads(a, b, x, y);
    match a
    case Null => Split("null", x, "null", y);
    case Undefined => Split("null", x, "null", y);
    case Bool(v) => Split(StableStringify(a), x, StableStringify(b), y);
    case Number(n) => NumberUnique(n, b.n, x, y);
    case Str(s) => QuoteUnique(s, if b.Str? then b.s else b.iso, x, y);
    case Date(s) => QuoteUnique(s, if b.Str? then b.s else b.iso, x, y);
    case Arr(_) => ArrUnique(a, b, x, y);
    case Obj(_) => ObjUnique(a, b, x, y);
  }

  lemma Bracketed(open: string, inner: string, close: string, x: string)
    ensures open + inner + close + x == open + (inner + (close + x))
  {
    Regroup(open + inner, close, x);
    Regroup(open, inner, close + x);
  }

  lemma {:induction false} ArrUnique(a: Json, b: Json, x: string, y: string)
    requires WellFormed(a) && WellFormed(b) && a.Arr? && b.Arr?
    requires StableStringify(a) + x == StableStringify(b) + y
    ensures Same(a, b) && x == y
    decreases a, 1
  {
    var ta, tb := JoinItems(ItemTexts(a, 0)), JoinItems(ItemTexts(b, 0));
    Bracketed("[", ta, "]", x);
    Bracketed("[", tb, "]", y);
    Split("[", ta + ("]" + x), "[", tb + ("]" + y));
    ItemsUnique(a, b, 0, x, y);
  }

  lemma {:induction false} ObjUnique(a: Json, b: Json, x: string, y: string)
    requires WellFormed(a) && WellFormed(b) && a.Obj? && b.Obj?
    requires StableStringify(a) + x == StableStringify(b) + y
    ensures Same(a, b) && x == y
    decreases a, 1
  {
    var pa, pb := SortByKey(Entries(a, 0)), SortByKey(Entries(b, 0));
    var ta, tb := JoinItems(EntryTexts(pa)), JoinItems(EntryTexts(pb));
    Bracketed("{", ta, "}", x);
    Bracketed("{", tb, "}", y);
    Split("{", ta + ("}" + x), "{", tb + ("}" + y));
    SortedComeFrom(a);
    SortedComeFrom(b);
    EntriesUnique(a, b, pa, pb, x, y);
    MatchedFields(a, b, pa, pb);
  }

  lemma SortedComeFrom(j: Json)
    requires j.Obj?
    ensures AllFrom(j, SortByKey(Entries(j, 0))) && |SortByKey(Entries(j, 0))| == |j.fields|
    ensures forall e :: e in SortByKey(Entries(j, 0)) <==> e in Entries(j, 0)
  {
    SortKeeps(Entries(j, 0));
    var sorted := SortByKey(Entries(j, 0));
    forall p | 0 <= p < |sorted|
      ensures ComesFrom(j, sorted[p])
    {
      assert sorted[p] in Entries(j, 0);
      var i :| 0 <= i < |Entries(j, 0)| && Entries(j, 0)[i] == sorted[p];
      assert EntryOf(j, i, sorted[p]);
    }
  }

  /** What follows the first text of a list: its closing, or a comma and the rest. */
  function Tail(texts: seq<string>, close: string): string
    requires texts != []
  {
    if |texts| == 1 then close else "," + (JoinItems(texts[1..]) + close)
  }

  lemma JoinSplits(texts: seq<string>, close: string)
    requires texts != []
    ensures JoinItems(texts) + close == texts[0] + Tail(texts, close)
  {
    if |texts| > 1 {
      Regroup(texts[0] + ",", JoinItems(texts[1..]), close);
      Regroup(texts[0], ",", JoinItems(texts[1..]) + close);
    }
  }

  /** Equal tails: both lists end here, or both go on. */
  lemma TailsAgree(ta: seq<string>, tb: seq<string>, bracket: char, x: string, y: string)
    requires ta != [] && tb != [] && bracket != ','
    requires Tail(ta, [bracket] + x) == Tail(tb, [bracket] + y)
    ensures |ta| == 1 <==> |tb| == 1
    ensures |ta| == 1 ==> x == y
    ensures |ta| > 1 ==> JoinItems(ta[1..]) + ([bracket] + x) == JoinItems(tb[1..]) + ([bracket] + y)
  {
    assert Tail(ta, [bracket] + x)[0] == (if |ta| == 1 then bracket else ',');
    assert Tail(tb, [bracket] + y)[0] == (if |tb| == 1 then bracket else ',');
    if |ta| == 1 {
      Split([bracket], x, [bracket], y);
    } else {
      Split(",", JoinItems(ta[1..]) + ([bracket] + x), ",", JoinItems(tb[1..]) + ([bracket] + y));
    }
  }

  /** Lists whose texts never start with the bracket end together. */
  lemma EndsAgree(ta: seq<string>, tb: seq<string>, bracket: char, x: string, y: string)
    requires JoinItems(ta) + ([bracket] + x) == JoinItems(tb) + ([bracket] + y)
    requires ta != [] ==> ta[0] != "" && ta[0][0] != bracket
    requires tb != [] ==> tb[0] != "" && tb[0][0] != bracket
    ensures ta == [] <==> tb == []
    ensures ta == [] ==> x == y
    ensures ta != [] ==> ta[0] + Tail(ta, [bracket] + x) == tb[0] + Tail(tb, [bracket] + y)
  {
    if ta != [] { JoinSplits(ta, [bracket] + x); } else { assert JoinItems(ta) + ([bracket] + x) == [bracket] + x; }
    if tb != [] { JoinSplits(tb, [bracket] + y); } else { assert JoinItems(tb) + ([bracket] + y) == [bracket] + y; }
    assert ta == [] <==> (JoinItems(ta) + ([bracket] + x))[0] == bracket;
    assert tb == [] <==> (JoinItems(tb) + ([bracket] + y))[0] == bracket;
    if ta == [] {
      Split([bracket], x, [bracket], y);
    }
  }

  lemma ItemStart(j: Json, from: nat)
    requires j.Arr? && from <= |j.items|
    ensures var texts := ItemTexts(j, from);
            from < |j.items| ==>
              && texts[0] == StableStringify(j.items[from]) && texts[1..] == ItemTexts(j, from + 1)
              && texts[0] != "" && texts[0][0] != ']'
  {
    if from < |j.items| {
      TextHead(j.items[from]);
    }
  }

  lemma {:induction false} ItemsUnique(a: Json, b: Json, from: nat, x: string, y: string)
    requires a.Arr? && b.Arr? && WellFormed(a) && WellFormed(b)
    requires from <= |a.items| && from <= |b.items|
    requires JoinItems(ItemTexts(a, from)) + ("]" + x) == JoinItems(ItemTexts(b, from)) + ("]" + y)
    ensures |a.items| == |b.items| && x == y
    ensures forall i :: from <= i < |a.items| ==> Same(a.items[i], b.items[i])
    decreases a, 0, |a.items| - from
  {
    var ta, tb := ItemTexts(a, from), ItemTexts(b, from);
    ItemStart(a, from);
    ItemStart(b, from);
    EndsAgree(ta, tb, ']', x, y);
    if ta != [] {
      TextUnique(a.items[from], b.items[from], Tail(ta, "]" + x), Tail(tb, "]" + y));
      TailsAgree(ta, tb, ']', x, y);
      if |ta| > 1 {
        ItemsUnique(a, b, from + 1, x, y);
      }
    }
  }

  predicate EntryOf(j: Json, i: int, e: Entry)
    requires j.Obj?
  {
    0 <= i < |j.fields| && e == Entry(j.fields[i].key, StableStringify(j.fields[i].value))
  }

  ghost predicate ComesFrom(j: Json, e: Entry)
    requires j.Obj?
  {
    exists i :: EntryOf(j, i, e)
  }

  ghost predicate AllFrom(j: Json, entries: seq<Entry>)
    requires j.Obj?
  {
    forall p :: 0 <= p < |entries| ==> ComesFrom(j, entries[p])
  }

  /** Two entries that come from fields with the same key and the same value. */
  ghost predicate Matched(a: Json, b: Json, e: Entry, f: Entry)
    requires a.Obj? && b.Obj?
  {
    exists i, k :: EntryOf(a, i, e) && EntryOf(b, k, f)
                   && a.fields[i].key == b.fields[k].key && Same(a.fields[i].value, b.fields[k].value)
  }

  lemma EntryTextsTail(entries: seq<Entry>)
    requires entries != []
    ensures EntryTexts(entries)[1..] == EntryTexts(entries[1..])
  {
  }

  lemma {:induction false} EntriesUnique(a: Json, b: Json, pa: seq<Entry>, pb: seq<Entry>, x: string, y: string)
    requires a.Obj? && b.Obj? && WellFormed(a) && WellFormed(b) && AllFrom(a, pa) && AllFrom(b, pb)
    requires JoinItems(EntryTexts(pa)) + ("}" + x) == JoinItems(EntryTexts(pb)) + ("}" + y)
    ensures |pa| == |pb| && x == y
    ensures forall p :: 0 <= p < |pa| ==> Matched(a, b, pa[p], pb[p])
    decreases a, 0, |pa|
  {
    var ta, tb := EntryTexts(pa), EntryTexts(pb);
    EndsAgree(ta, tb, '}', x, y);
    if ta != [] {
      EntryUnique(a, b, pa[0], pb[0], Tail(ta, "}" + x), Tail(tb, "}" + y));
      TailsAgree(ta, tb, '}', x, y);
      EntryTextsTail(pa);
      EntryTextsTail(pb);
      if |ta| > 1 {
        EntriesUnique(a, b, pa[1..], pb[1..], x, y);
        MatchedCons(a, b, pa, pb);
      }
    }
  }

  lemma MatchedCons(a: Json, b: Json, pa: seq<Entry>, pb: seq<Entry>)
    requires a.Obj? && b.Obj? && pa != [] && |pa| == |pb| && Matched(a, b, pa[0], pb[0])
    requires forall p :: 0 <= p < |pa[1..]| ==> Matched(a, b, pa[1..][p], pb[1..][p])
    ensures forall p :: 0 <= p < |pa| ==> Matched(a, b, pa[p], pb[p])
  {
    forall p | 0 <= p < |pa|
      ensures Matched(a, b, pa[p], pb[p])
    {
      if p > 0 {
        assert pa[p] == pa[1..][p - 1] && pb[p] == pb[1..][p - 1];
      }
    }
  }

  lemma EntryRegroup(e: Entry, x: string)
    ensures EntryText(e) + x == Quote(e.key) + (":" + (e.text + x))
  {
    Regroup(Quote(e.key) + ":", e.text, x);
    Regroup(Quote(e.key), ":", e.text + x);
  }

  lemma {:induction false} EntryUnique(a: Json, b: Json, e: Entry, f: Entry, x: string, y: string)
    requires a.Obj? && b.Obj? && WellFormed(a) && WellFormed(b) && Stop(x) && Stop(y)
    requires ComesFrom(a, e) && ComesFrom(b, f)
    requires EntryText(e) + x == EntryText(f) + y
    ensures Matched(a, b, e, f) && x == y
    decreases a, 0, 0
  {
    var i :| EntryOf(a, i, e);
    var k :| EntryOf(b, k, f);
    EntryRegroup(e, x);
    EntryRegroup(f, y);
    QuoteUnique(e.key, f.key, ":" + (e.text + x), ":" + (f.text + y));
    Split(":", e.text + x, ":", f.text + y);
    TextUnique(a.fields[i].value, b.fields[k].value, x, y);
  }

  /** Sorting keeps the entries: same number, same members. */
  lemma {:induction false} SortKeeps(entries: seq<Entry>)
    ensures |SortByKey(entries)| == |entries|
    ensures forall e :: e in SortByKey(entries) <==> e in entries
  {
    if entries != [] {
      SortKeeps(entries[1..]);
      InsertKeeps(entries[0], SortByKey(entries[1..]));
      assert forall e :: e in entries <==> e == entries[0] || e in entries[1..];
    }
  }

  lemma {:induction false} InsertKeeps(e: Entry, sorted: seq<Entry>)
    ensures |Insert(e, sorted)| == |sorted| + 1
    ensures forall f :: f in Insert(e, sorted) <==> f == e || f in sorted
  {
    if sorted != [] && Before(sorted[0].key, e.key) {
      InsertKeeps(e, sorted[1..]);
      assert forall f :: f in sorted <==> f == sorted[0] || f in sorted[1..];
    }
  }

  lemma MatchedFields(a: Json, b: Json, pa: seq<Entry>, pb: seq<Entry>)
    requires a.Obj? && b.Obj? && WellFormed(a) && |pa| == |pb| == |a.fields| == |b.fields|
    requires forall e :: e in pa <==> e in Entries(a, 0)
    requires forall p :: 0 <= p < |pa| ==> Matched(a, b, pa[p], pb[p])
    ensures Same(a, b)
  {
    forall i | 0 <= i < |a.fields|
      ensures exists k :: 0 <= k < |b.fields| && a.fields[i].key == b.fields[k].key
                          && Same(a.fields[i].value, b.fields[k].value)
    {
      var e := Entries(a, 0)[i];
      assert e in pa;
      var p :| 0 <= p < |pa| && pa[p] == e;
      var i', k :| EntryOf(a, i', e) && EntryOf(b, k, pb[p])
                   && a.fields[i'].key == b.fields[k].key && Same(a.fields[i'].value, b.fields[k].value);
      assert i' == i;
    }
  }

  // ---------------------------------------------------------------- equal values have equal texts

  lemma {:induction false} BeforeTotal(a: string, b: string)
    ensures !Before(a, a)
    ensures a == b || Before(a, b) || Before(b, a)
    ensures !(Before(a, b) && Before(b, a))
  {
    if a != "" {
      BeforeTotal(a[1..], if b == "" then "" else b[1..]);
      assert b != "" && a[0] == b[0] && a[1..] == b[1..] ==> a == [a[0]] + a[1..] == b;
    }
  }

  lemma {:induction false} BeforeChains(a: string, b: string, c: string)
    requires Before(a, b) && Before(b, c)
    ensures Before(a, c)
  {
    if a != "" && a[0] == b[0] && b[0] == c[0] {
      BeforeChains(a[1..], b[1..], c[1..]);
    }
  }

  ghost predicate Sorted(entries: seq<Entry>) {
    forall i, k :: 0 <= i < k < |entries| ==> Before(entries[i].key, entries[k].key)
  }

  ghost predicate DistinctKeys(entries: seq<Entry>) {
    forall i, k :: 0 <= i < k < |entries| ==> entries[i].key != entries[k].key
  }

  lemma {:induction false} InsertSorts(e: Entry, sorted: seq<Entry>)
    requires Sorted(sorted) && forall f :: f in sorted ==> f.key != e.key
    ensures Sorted(Insert(e, sorted))
  {
    if sorted == [] {
    } else if Before(sorted[0].key, e.key) {
      InsertSorts(e, sorted[1..]);
      InsertKeeps(e, sorted[1..]);
      var rest := Insert(e, sorted[1..]);
      forall k | 0 <= k < |rest|
        ensures Before(sorted[0].key, rest[k].key)
      {
        assert rest[k] in rest;
        if rest[k] != e {
          var i :| 0 <= i < |sorted[1..]| && sorted[1..][i] == rest[k];
          assert Before(sorted[0].key, sorted[i + 1].key);
        }
      }
    } else {
      BeforeTotal(sorted[0].key, e.key);
      assert sorted[0] in sorted;
      forall k | 0 <= k < |sorted|
        ensures Before(e.key, sorted[k].key)
      {
        if k > 0 { BeforeChains(e.key, sorted[0].key, sorted[k].key); }
      }
    }
  }

  lemma {:induction false} SortSorts(entries: seq<Entry>)
    requires DistinctKeys(entries)
    ensures Sorted(SortByKey(entries))
  {
    if entries != [] {
      SortSorts(entries[1..]);
      SortKeeps(entries[1..]);
      InsertSorts(entries[0], SortByKey(entries[1..]));
    }
  }

  lemma HasMember(q: seq<Entry>)
    ensures q != [] ==> exists e :: e in q
  {
    if q != [] {
      assert q[0] in q;
    }
  }

  /** There is one sorted order of a set of entries. */
  lemma {:induction false} SortedUnique(p: seq<Entry>, q: seq<Entry>)
    requires Sorted(p) && Sorted(q) && forall e :: e in p <==> e in q
    ensures p == q
  {
    if p == [] {
      HasMember(q);
    } else {
      assert p[0] in q;
      assert q[0] in p;
      var i :| 0 <= i < |q| && q[i] == p[0];
      var k :| 0 <= k < |p| && p[k] == q[0];
      BeforeTotal(p[0].key, q[0].key);
      assert p[0] == q[0];
      forall e
        ensures e in p[1..] <==> e in q[1..]
      {
        if e in p[1..] { DropHead(p, q, e); }
        if e in q[1..] { DropHead(q, p, e); }
      }
      SortedUnique(p[1..], q[1..]);
    }
  }

  lemma DropHead(p: seq<Entry>, q: seq<Entry>, e: Entry)
    requires Sorted(p) && p != [] && q != [] && p[0] == q[0] && e in p[1..] && e in q
    ensures e in q[1..]
  {
    var i :| 0 <= i < |p[1..]| && p[1..][i] == e;
    BeforeTotal(p[0].key, p[i + 1].key);
    assert Before(p[0].key, p[i + 1].key);
    var k :| 0 <= k < |q| && q[k] == e;
    assert k > 0;
    assert q[1..][k - 1] == e;
  }

  function Keys(fields: seq<Field>, upTo: nat): set<string>
    requires upTo <= |fields|
  {
    set i | 0 <= i < upTo :: fields[i].key
  }

  lemma {:induction false} CountKeys(fields: seq<Field>, upTo: nat)
    requires upTo <= |fields| && forall i, k :: 0 <= i < k < |fields| ==> fields[i].key != fields[k].key
    ensures |Keys(fields, upTo)| == upTo
  {
    if upTo > 0 {
      CountKeys(fields, upTo - 1);
      assert Keys(fields, upTo) == Keys(fields, upTo - 1) + {fields[upTo - 1].key};
    }
  }

  ghost predicate FieldMatch(a: Json, b: Json, i: int, k: int)
    requires a.Obj? && b.Obj?
  {
    0 <= i < |a.fields| && 0 <= k < |b.fields| && a.fields[i].key == b.fields[k].key
    && Same(a.fields[i].value, b.fields[k].value)
  }

  lemma MatchOf(a: Json, b: Json, i: nat) returns (k: nat)
    requires a.Obj? && Same(a, b) && i < |a.fields|
    ensures b.Obj? && FieldMatch(a, b, i, k)
  {
    k :| 0 <= k < |b.fields| && a.fields[i].key == b.fields[k].key && Same(a.fields[i].value, b.fields[k].value);
  }

  lemma KeysInBoth(a: Json, b: Json)
    requires a.Obj? && Same(a, b)
    ensures b.Obj? && |a.fields| == |b.fields| && Keys(a.fields, |a.fields|) <= Keys(b.fields, |b.fields|)
  {
    forall key | key in Keys(a.fields, |a.fields|)
      ensures key in Keys(b.fields, |b.fields|)
    {
      var j :| 0 <= j < |a.fields| && a.fields[j].key == key;
      var l := MatchOf(a, b, j);
    }
  }

  /** Every field of the other object has its match too. */
  lemma MatchBack(a: Json, b: Json, k: nat) returns (i: nat)
    requires a.Obj? && b.Obj? && WellFormed(a) && WellFormed(b) && Same(a, b) && k < |b.fields|
    ensures FieldMatch(a, b, i, k)
  {
    var n := |a.fields|;
    CountKeys(a.fields, n);
    CountKeys(b.fields, n);
    KeysInBoth(a, b);
    SubsetOfSameSize(Keys(a.fields, n), Keys(b.fields, n));
    assert b.fields[k].key in Keys(a.fields, n);
    i :| 0 <= i < n && a.fields[i].key == b.fields[k].key;
    var l := MatchOf(a, b, i);
    assert l == k;
  }

  lemma {:induction false} SameText(a: Json, b: Json)
    requires WellFormed(a) && WellFormed(b) && Same(a, b)
    ensures StableStringify(a) == StableStringify(b)
    decreases a
  {
    match a
    case Arr(items) =>
      forall i | 0 <= i < |items|
        ensures StableStringify(items[i]) == StableStringify(b.items[i])
      {
        SameText(items[i], b.items[i]);
      }
      assert ItemTexts(a, 0) == ItemTexts(b, 0);
    case Obj(fields) =>
      var ea, eb := Entries(a, 0), Entries(b, 0);
      forall i, k | FieldMatch(a, b, i, k)
        ensures ea[i] == eb[k]
      {
        SameText(fields[i].value, b.fields[k].value);
      }
      SameEntries(a, b);
    case _ =>
  }

  lemma SameEntries(a: Json, b: Json)
    requires a.Obj? && b.Obj? && WellFormed(a) && WellFormed(b) && Same(a, b)
    requires forall i, k :: FieldMatch(a, b, i, k) ==> Entries(a, 0)[i] == Entries(b, 0)[k]
    ensures StableStringify(a) == StableStringify(b)
  {
    var ea, eb := Entries(a, 0), Entries(b, 0);
    forall e
      ensures e in ea <==> e in eb
    {
      if e in ea {
        var i :| 0 <= i < |ea| && ea[i] == e;
        var k := MatchOf(a, b, i);
        assert eb[k] == e;
      }
      if e in eb {
        var k :| 0 <= k < |eb| && eb[k] == e;
        var i := MatchBack(a, b, k);
        assert ea[i] == e;
      }
    }
    SameSorted(ea, eb);
  }

  lemma SameSorted(ea: seq<Entry>, eb: seq<Entry>)
    requires DistinctKeys(ea) && DistinctKeys(eb) && forall e :: e in ea <==> e in eb
    ensures SortByKey(ea) == SortByKey(eb)
  {
    SortKeeps(ea);
    SortKeeps(eb);
    SortSorts(ea);
    SortSorts(eb);
    SortedUnique(SortByKey(ea), SortByKey(eb));
  }

  // ---------------------------------------------------------------- theorem

  /** The text is canonical: equal exactly for values equal up to key order. */
  lemma TextIsCanonical(a: Json, b: Json)
    requires WellFormed(a) && WellFormed(b)
    ensures StableStringify(a) == StableStringify(b) <==> Same(a, b)
  {
    if StableStringify(a) == StableStringify(b) {
      TextUnique(a, b, "", "");
    }
    if Same(a, b) {
      SameText(a, b);
    }
  }
}
