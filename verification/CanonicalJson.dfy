/**
 The canonical printer of JSON values: object keys sorted at every depth,
 strings escaped as in section 7 of RFC 8259. Its output is the same for two
 values exactly when they differ in key order alone.

 Models canonical_json and write_canonical of crates/openbad-harness/src/prompt.rs. Each token, string and
 nested value is shown to be told from whatever follows it, which makes the whole text injective.
 */
module CanonicalJson {
  import opened Wrappers

  // Numbers are the tokens they print as.
  datatype Json =
    | Null
    | Bool(flag: bool)
    | Number(token: string)
    | Str(text: string)
    | Array(items: seq<Json>)
    | Object(fields: seq<Field>)

  datatype Field = Field(key: string, value: Json)

  // ---------------------------------------------------------------------
  // Strings
  // ---------------------------------------------------------------------

  const HEX := "0123456789abcdef"

  function Escape(c: char): (s: string)
    ensures s != "" && s[0] != '"'
  {
    if c == '"' then "\\\""
    else if c == '\\' then "\\\\"
    else if c == 8 as char then "\\b"
    else if c == 12 as char then "\\f"
    else if c == '\n' then "\\n"
    else if c == '\r' then "\\r"
    else if c == '\t' then "\\t"
    else if c < ' ' then "\\u00" + [HEX[c as int / 16], HEX[c as int % 16]]
    else [c]
  }

  function EscapeAll(text: string): string {
    if text == "" then "" else Escape(text[0]) + EscapeAll(text[1..])
  }

  function Quote(text: string): string {
    "\"" + EscapeAll(text) + "\""
  }

  // ---------------------------------------------------------------------
  // Printing in the given order
  // ---------------------------------------------------------------------

  /** A value's text, its fields as they stand. */
  function Print(v: Json): string
    decreases v
  {
    match v
    case Null => "null"
    case Bool(flag) => if flag then "true" else "false"
    case Number(token) => token
    case Str(text) => Quote(text)
    case Array(items) => "[" + ItemsFrom(items, true)
    case Object(fields) => "{" + FieldsFrom(fields, true)
  }

  function Separator(first: bool): string {
    if first then "" else ","
  }

  /** The items still to come and the closing bracket. */
  function ItemsFrom(items: seq<Json>, first: bool): string
    decreases items
  {
    if items == [] then "]" else Separator(first) + (Print(items[0]) + ItemsFrom(items[1..], false))
  }

  function FieldsFrom(fields: seq<Field>, first: bool): string
    decreases fields
  {
    if fields == [] then "}"
    else Separator(first) + (Quote(fields[0].key) + (":" + (Print(fields[0].value) + FieldsFrom(fields[1..], false))))
  }

  // ---------------------------------------------------------------------
  // Sorting keys
  // ---------------------------------------------------------------------

  function InsertField(f: Field, sorted: seq<Field>): seq<Field> {
    if sorted == [] || !Less(sorted[0].key, f.key) then [f] + sorted
    else [sorted[0]] + InsertField(f, sorted[1..])
  }

  function SortByKey(fields: seq<Field>): (r: seq<Field>)
    ensures |r| == |fields|
  {
    if fields == [] then []
    else
      InsertLength(fields[0], SortByKey(fields[1..]));
      InsertField(fields[0], SortByKey(fields[1..]))
  }

  lemma {:induction false} InsertLength(f: Field, sorted: seq<Field>)
    ensures |InsertField(f, sorted)| == |sorted| + 1
  {
    if sorted != [] {
      InsertLength(f, sorted[1..]);
    }
  }

  /** The value with every object's fields in key order. */
  function Sorted(v: Json): Json
    decreases v
  {
    match v
    case Array(items) => Array(SortedItems(items))
    case Object(fields) => Object(SortByKey(SortedFields(fields)))
    case _ => v
  }

  function SortedItems(items: seq<Json>): (r: seq<Json>)
    ensures |r| == |items|
    decreases items
  {
    if items == [] then [] else [Sorted(items[0])] + SortedItems(items[1..])
  }

  function SortedFields(fields: seq<Field>): (r: seq<Field>)
    ensures |r| == |fields|
    decreases fields
  {
    if fields == [] then [] else [Field(fields[0].key, Sorted(fields[0].value))] + SortedFields(fields[1..])
  }

  function Canonical(v: Json): string {
    Print(Sorted(v))
  }

  // ---------------------------------------------------------------------
  // Prefixes
  // ---------------------------------------------------------------------

  lemma CutFront(p: string, u: string, v: string)
    requires p + u == p + v
    ensures u == v
  {
    assert u == (p + u)[|p|..] && v == (p + v)[|p|..];
  }

  lemma Regroup(a: string, b: string, c: string)
    ensures (a + b) + c == a + (b + c)
  {
  }

  /** Escapes are told apart by their length and text. */
  lemma EscapeInjective(c: char, d: char)
    requires Escape(c) == Escape(d)
    ensures c == d
  {
    if |Escape(c)| == 6 {
      HexDistinct(Escape(c)[4], c as int / 16, d as int / 16);
      HexDistinct(Escape(c)[5], c as int % 16, d as int % 16);
    }
  }

  lemma EscapeLength(c: char)
    ensures |Escape(c)| == if Escape(c)[0] != '\\' then 1 else if |Escape(c)| > 1 && Escape(c)[1] != 'u' then 2 else 6
  {
  }

  lemma EscapePrefixFree(c: char, u: string, d: char, v: string)
    requires Escape(c) + u == Escape(d) + v
    ensures c == d && u == v
  {
    EscapeLength(c);
    EscapeLength(d);
    var e, f := Escape(c), Escape(d);
    hide Escape;
    assert (e + u)[0] == e[0] && (f + v)[0] == f[0];
    if |e| > 1 && |f| > 1 {
      assert (e + u)[1] == e[1] && (f + v)[1] == f[1];
    }
    assert |e| == |f|;
    assert e == (e + u)[..|e|] && f == (f + v)[..|f|];
    EscapeInjective(c, d);
    CutFront(e, u, v);
  }

  lemma HexDistinct(digit: char, i: nat, j: nat)
    ensures i < 16 && j < 16 && HEX[i] == digit == HEX[j] ==> i == j
  {
  }

  /** Only the closing quote reads as a quote. */
  lemma {:induction false} EscapedFirst(a: string, x: string)
    ensures (EscapeAll(a) + ("\"" + x))[0] == '"' <==> a == ""
  {
    hide Escape;
  }

  lemma {:induction false} EscapedPrefixFree(a: string, x: string, b: string, y: string)
    requires EscapeAll(a) + ("\"" + x) == EscapeAll(b) + ("\"" + y)
    ensures a == b && x == y
  {
    EscapedFirst(a, x);
    EscapedFirst(b, y);
    if a == "" && b == "" {
      assert "" + ("\"" + x) == "\"" + x && "" + ("\"" + y) == "\"" + y;
      CutFront("\"", x, y);
    } else if a != "" && b != "" {
      Regroup(Escape(a[0]), EscapeAll(a[1..]), "\"" + x);
      Regroup(Escape(b[0]), EscapeAll(b[1..]), "\"" + y);
      EscapePrefixFree(a[0], EscapeAll(a[1..]) + ("\"" + x), b[0], EscapeAll(b[1..]) + ("\"" + y));
      EscapedPrefixFree(a[1..], x, b[1..], y);
      assert a == [a[0]] + a[1..] && b == [b[0]] + b[1..];
    }
  }

  lemma {:induction false} QuoteRegroup(a: string, x: string)
    ensures Quote(a) + x == "\"" + (EscapeAll(a) + ("\"" + x))
  {
    var e := EscapeAll(a);
    hide EscapeAll;
    assert ("\"" + e + "\"") + x == "\"" + (e + ("\"" + x));
  }

  lemma QuotePrefixFree(a: string, x: string, b: string, y: string)
    requires Quote(a) + x == Quote(b) + y
    ensures a == b && x == y
  {
    QuoteRegroup(a, x);
    QuoteRegroup(b, y);
    CutFront("\"", EscapeAll(a) + ("\"" + x), EscapeAll(b) + ("\"" + y));
    EscapedPrefixFree(a, x, b, y);
  }

  // ---------------------------------------------------------------------
  // Numbers end where a delimiter stands
  // ---------------------------------------------------------------------

  predicate IsNumberChar(c: char) {
    '0' <= c <= '9' || c == '-' || c == '+' || c == '.' || c == 'e' || c == 'E'
  }

  predicate IsToken(token: string) {
    && token != "" && ('0' <= token[0] <= '9' || token[0] == '-')
    && forall i :: 0 <= i < |token| ==> IsNumberChar(token[i])
  }

  predicate Delimited(x: string) {
    x == "" || !IsNumberChar(x[0])
  }

  lemma LongerToken(a: string, x: string, b: string, y: string)
    requires a + x == b + y && |a| < |b|
    ensures x != "" && x[0] == b[|a|]
  {
    assert (a + x)[|a|] == (b + y)[|a|];
  }

  lemma TokenPrefixFree(a: string, x: string, b: string, y: string)
    requires a + x == b + y && Delimited(x) && Delimited(y)
    requires forall i :: 0 <= i < |a| ==> IsNumberChar(a[i])
    requires forall i :: 0 <= i < |b| ==> IsNumberChar(b[i])
    ensures a == b && x == y
  {
    if |a| < |b| {
      LongerToken(a, x, b, y);
    } else if |b| < |a| {
      LongerToken(b, y, a, x);
    }
    assert a == (a + x)[..|a|] && b == (b + y)[..|b|];
    CutFront(a, x, y);
  }

  /** Every number in the value prints as a number token. */
  ghost predicate Plain(v: Json)
    decreases v
  {
    match v
    case Number(token) => IsToken(token)
    case Array(items) => forall i :: 0 <= i < |items| ==> Plain(items[i])
    case Object(fields) => forall i :: 0 <= i < |fields| ==> Plain(fields[i].value)
    case _ => true
  }

  ghost predicate AllPlain(items: seq<Json>) {
    forall i :: 0 <= i < |items| ==> Plain(items[i])
  }

  ghost predicate FieldsPlain(fields: seq<Field>) {
    forall i :: 0 <= i < |fields| ==> Plain(fields[i].value)
  }

  /** The first character tells the kind of value. */
  function Lead(v: Json): char {
    match v
    case Null => 'n'
    case Bool(flag) => if flag then 't' else 'f'
    case Number(token) => if token == "" then '0' else token[0]
    case Str(_) => '"'
    case Array(_) => '['
    case Object(_) => '{'
  }

  lemma {:induction false} PrintLead(v: Json)
    ensures Plain(v) ==> Print(v) != "" && Print(v)[0] == Lead(v)
  {
  }

  lemma {:induction false} LeadKind(a: Json, b: Json)
    ensures Plain(a) && Plain(b) && Lead(a) == Lead(b) ==>
      a.Null? == b.Null? && a.Bool? == b.Bool? && a.Number? == b.Number?
    ensures Plain(a) && Plain(b) && Lead(a) == Lead(b) ==>
      a.Str? == b.Str? && a.Array? == b.Array? && a.Object? == b.Object?
    ensures Plain(a) && Plain(b) && Lead(a) == Lead(b) ==> (a.Bool? ==> a == b)
  {
  }

  lemma {:induction false} SameLead(a: Json, x: string, b: Json, y: string)
    requires Plain(a) && Plain(b) && Print(a) + x == Print(b) + y
    ensures Lead(a) == Lead(b)
  {
    PrintLead(a);
    PrintLead(b);
    hide Print;
    assert (Print(a) + x)[0] == Print(a)[0] && (Print(b) + y)[0] == Print(b)[0];
  }

  // ---------------------------------------------------------------------
  // The printer is a prefix code
  // ---------------------------------------------------------------------

  lemma {:induction false} ItemsRegroup(items: seq<Json>, first: bool, x: string)
    requires items != []
    ensures ItemsFrom(items, first) + x
      == Separator(first) + (Print(items[0]) + (ItemsFrom(items[1..], false) + x))
  {
    hide Print;
    var head, tail := Print(items[0]), ItemsFrom(items[1..], false);
    hide ItemsFrom, Separator;
    assert (Separator(first) + (head + tail)) + x == Separator(first) + (head + (tail + x));
  }

  lemma {:induction false} FieldsRegroup(fields: seq<Field>, first: bool, x: string)
    requires fields != []
    ensures FieldsFrom(fields, first) + x
      == Separator(first)
           + (Quote(fields[0].key) + (":" + (Print(fields[0].value) + (FieldsFrom(fields[1..], false) + x))))
  {
    hide Print, Quote;
    var key, head, tail := Quote(fields[0].key), Print(fields[0].value), FieldsFrom(fields[1..], false);
    hide FieldsFrom, Separator;
    assert (Separator(first) + (key + (":" + (head + tail)))) + x
      == Separator(first) + (key + (":" + (head + (tail + x))));
  }

  lemma {:induction false} ItemsDelimited(items: seq<Json>, x: string)
    ensures Delimited(ItemsFrom(items, false) + x)
    ensures (ItemsFrom(items, false) + x)[0] == if items == [] then ']' else ','
  {
    hide Print;
  }

  lemma {:induction false} FieldsDelimited(fields: seq<Field>, x: string)
    ensures Delimited(FieldsFrom(fields, false) + x)
    ensures (FieldsFrom(fields, false) + x)[0] == if fields == [] then '}' else ','
  {
    hide Print, Quote;
  }

  lemma {:induction false} ItemsEmptiness(xs: seq<Json>, x: string, ys: seq<Json>, y: string, first: bool)
    requires AllPlain(xs) && AllPlain(ys)
    requires ItemsFrom(xs, first) + x == ItemsFrom(ys, first) + y
    ensures xs == [] <==> ys == []
  {
    ItemsFirst(xs, x, first);
    ItemsFirst(ys, y, first);
  }

  lemma {:induction false} ItemsFirst(xs: seq<Json>, x: string, first: bool)
    requires AllPlain(xs)
    ensures ItemsFrom(xs, first) + x != "" && ((ItemsFrom(xs, first) + x)[0] == ']' <==> xs == [])
  {
    if xs != [] {
      ItemsRegroup(xs, first, x);
      PrintLead(xs[0]);
    }
  }

  lemma {:induction false} FieldsFirst(fs: seq<Field>, x: string, first: bool)
    ensures FieldsFrom(fs, first) + x != "" && ((FieldsFrom(fs, first) + x)[0] == '}' <==> fs == [])
  {
    if fs != [] {
      FieldsRegroup(fs, first, x);
      assert Quote(fs[0].key)[0] == '"';
    }
  }

  /** Wherever two printed values meet the same text, they are the same value. */
  lemma {:induction false} PrintPrefixFree(a: Json, x: string, b: Json, y: string)
    requires Plain(a) && Plain(b) && Delimited(x) && Delimited(y)
    requires Print(a) + x == Print(b) + y
    ensures a == b && x == y
    decreases a
  {
    SameLead(a, x, b, y);
    LeadKind(a, b);
    hide ItemsFrom, FieldsFrom, Quote, Lead;
    match a {
      case Null => CutFront("null", x, y);
      case Bool(_) => CutFront(Print(a), x, y);
      case Number(token) => TokenPrefixFree(token, x, b.token, y);
      case Str(text) => QuotePrefixFree(text, x, b.text, y);
      case Array(items) =>
        Regroup("[", ItemsFrom(items, true), x);
        Regroup("[", ItemsFrom(b.items, true), y);
        CutFront("[", ItemsFrom(items, true) + x, ItemsFrom(b.items, true) + y);
        ItemsPrefixFree(items, x, b.items, y, true);
      case Object(fields) =>
        Regroup("{", FieldsFrom(fields, true), x);
        Regroup("{", FieldsFrom(b.fields, true), y);
        CutFront("{", FieldsFrom(fields, true) + x, FieldsFrom(b.fields, true) + y);
        FieldsPrefixFree(fields, x, b.fields, y, true);
    }
  }

  lemma {:induction false} ItemsPrefixFree(xs: seq<Json>, x: string, ys: seq<Json>, y: string, first: bool)
    requires AllPlain(xs) && AllPlain(ys)
    requires ItemsFrom(xs, first) + x == ItemsFrom(ys, first) + y
    ensures xs == ys && x == y
    decreases xs
  {
    ItemsEmptiness(xs, x, ys, y, first);
    if xs == [] {
      CutFront("]", x, y);
    } else {
      ItemsRegroup(xs, first, x);
      ItemsRegroup(ys, first, y);
      ItemsDelimited(xs[1..], x);
      ItemsDelimited(ys[1..], y);
      hide Print, ItemsFrom;
      var u, v := ItemsFrom(xs[1..], false) + x, ItemsFrom(ys[1..], false) + y;
      CutFront(Separator(first), Print(xs[0]) + u, Print(ys[0]) + v);
      PrintPrefixFree(xs[0], u, ys[0], v);
      ItemsPrefixFree(xs[1..], x, ys[1..], y, false);
      assert xs == [xs[0]] + xs[1..] && ys == [ys[0]] + ys[1..];
    }
  }

  lemma {:induction false} FieldsPrefixFree(fs: seq<Field>, x: string, gs: seq<Field>, y: string, first: bool)
    requires FieldsPlain(fs) && FieldsPlain(gs)
    requires FieldsFrom(fs, first) + x == FieldsFrom(gs, first) + y
    ensures fs == gs && x == y
    decreases fs
  {
    FieldsFirst(fs, x, first);
    FieldsFirst(gs, y, first);
    if fs == [] {
      CutFront("}", x, y);
    } else {
      FieldsRegroup(fs, first, x);
      FieldsRegroup(gs, first, y);
      FieldsDelimited(fs[1..], x);
      FieldsDelimited(gs[1..], y);
      hide Print, Quote, FieldsFrom;
      var f, g := fs[0], gs[0];
      var u, v := FieldsFrom(fs[1..], false) + x, FieldsFrom(gs[1..], false) + y;
      CutFront(Separator(first), Quote(f.key) + (":" + (Print(f.value) + u)), Quote(g.key) + (":" + (Print(g.value) + v)));
      QuotePrefixFree(f.key, ":" + (Print(f.value) + u), g.key, ":" + (Print(g.value) + v));
      CutFront(":", Print(f.value) + u, Print(g.value) + v);
      PrintPrefixFree(f.value, u, g.value, v);
      FieldsPrefixFree(fs[1..], x, gs[1..], y, false);
      assert fs == [fs[0]] + fs[1..] && gs == [gs[0]] + gs[1..];
    }
  }

  /** Equal text, equal value: key order included, since this printer keeps it. */
  lemma {:induction false} PrintInjective(a: Json, b: Json)
    requires Plain(a) && Plain(b) && Print(a) == Print(b)
    ensures a == b
  {
    hide *;
    assert Print(a) + "" == Print(a) && Print(b) + "" == Print(b);
    NothingDelimited();
    PrintPrefixFree(a, "", b, "");
  }

  lemma NothingDelimited()
    ensures Delimited("")
  {
  }

  // ---------------------------------------------------------------------
  // Values equal up to key order
  // ---------------------------------------------------------------------

  ghost predicate KeysDistinct(fields: seq<Field>) {
    forall i, j :: 0 <= i < j < |fields| ==> fields[i].key != fields[j].key
  }

  /** A JSON value: number tokens, and no object names a key twice. */
  ghost predicate WellFormed(v: Json)
    decreases v
  {
    match v
    case Number(token) => IsToken(token)
    case Array(items) => forall i :: 0 <= i < |items| ==> WellFormed(items[i])
    case Object(fields) => KeysDistinct(fields) && forall i :: 0 <= i < |fields| ==> WellFormed(fields[i].value)
    case _ => true
  }

  ghost predicate HasKey(fields: seq<Field>, key: string) {
    exists i :: 0 <= i < |fields| && fields[i].key == key
  }

  /** Equal as JSON values: members are matched by key, wherever they stand. */
  ghost predicate Same(a: Json, b: Json)
    decreases a
  {
    match a
    case Array(items) =>
      && b.Array? && |items| == |b.items|
      && forall i :: 0 <= i < |items| ==> Same(items[i], b.items[i])
    case Object(fields) =>
      && b.Object? && (forall k: string :: HasKey(fields, k) <==> HasKey(b.fields, k))
      && forall i, j :: 0 <= i < |fields| && 0 <= j < |b.fields| && fields[i].key == b.fields[j].key ==>
           Same(fields[i].value, b.fields[j].value)
    case _ => a == b
  }

  // ---------------------------------------------------------------------
  // Sorting changes order alone
  // ---------------------------------------------------------------------

  function Lookup(fields: seq<Field>, key: string): seq<Json> {
    if fields == [] then []
    else (if fields[0].key == key then [fields[0].value] else []) + Lookup(fields[1..], key)
  }

  lemma {:induction false} LookupAbsent(fields: seq<Field>, key: string)
    requires !HasKey(fields, key)
    ensures Lookup(fields, key) == []
  {
    if fields != [] {
      assert forall i :: 0 <= i < |fields[1..]| ==> fields[1..][i] == fields[i + 1];
      LookupAbsent(fields[1..], key);
    }
  }

  lemma TailKeys(fields: seq<Field>)
    requires fields != [] && KeysDistinct(fields)
    ensures KeysDistinct(fields[1..]) && !HasKey(fields[1..], fields[0].key)
    ensures forall k :: HasKey(fields, k) <==> k == fields[0].key || HasKey(fields[1..], k)
  {
    assert forall i :: 0 <= i < |fields[1..]| ==> fields[1..][i] == fields[i + 1];
    forall k
      ensures HasKey(fields, k) <==> k == fields[0].key || HasKey(fields[1..], k)
    {
      if HasKey(fields[1..], k) {
        var i :| 0 <= i < |fields[1..]| && fields[1..][i].key == k;
        assert fields[i + 1].key == k;
      }
    }
  }

  lemma {:induction false} LookupPresent(fields: seq<Field>, i: nat)
    requires i < |fields| && KeysDistinct(fields)
    ensures Lookup(fields, fields[i].key) == [fields[i].value]
  {
    TailKeys(fields);
    if i == 0 {
      LookupAbsent(fields[1..], fields[0].key);
    } else {
      assert fields[1..][i - 1] == fields[i];
      LookupPresent(fields[1..], i - 1);
    }
  }

  lemma {:induction false} LookupHas(fields: seq<Field>, key: string)
    ensures HasKey(fields, key) <==> Lookup(fields, key) != []
  {
    if fields != [] {
      LookupHas(fields[1..], key);
      HasTail(fields, key);
    }
  }

  lemma HasTail(fields: seq<Field>, key: string)
    requires fields != []
    ensures HasKey(fields, key) <==> key == fields[0].key || HasKey(fields[1..], key)
  {
    assert forall i :: 0 <= i < |fields[1..]| ==> fields[1..][i] == fields[i + 1];
    if HasKey(fields[1..], key) {
      var i :| 0 <= i < |fields[1..]| && fields[1..][i].key == key;
      assert fields[i + 1].key == key;
    }
  }

  lemma {:induction false} LookupCons(f: Field, rest: seq<Field>, key: string)
    ensures Lookup([f] + rest, key) == (if f.key == key then [f.value] else []) + Lookup(rest, key)
  {
    assert ([f] + rest)[1..] == rest;
  }

  lemma {:induction false} InsertLookup(f: Field, sorted: seq<Field>, key: string)
    requires !HasKey(sorted, f.key)
    ensures Lookup(InsertField(f, sorted), key) == (if f.key == key then [f.value] else []) + Lookup(sorted, key)
  {
    LookupCons(f, sorted, key);
    if sorted != [] && Less(sorted[0].key, f.key) {
      HasTail(sorted, f.key);
      InsertLookup(f, sorted[1..], key);
      LookupCons(sorted[0], InsertField(f, sorted[1..]), key);
      LookupCons(sorted[0], sorted[1..], key);
      assert [sorted[0]] + sorted[1..] == sorted;
      hide Lookup;
      if f.key != key {
        assert [] + Lookup(sorted[1..], key) == Lookup(sorted[1..], key);
        assert [] + Lookup(sorted, key) == Lookup(sorted, key);
      } else {
        assert [] + ([f.value] + Lookup(sorted[1..], key)) == [f.value] + ([] + Lookup(sorted[1..], key));
      }
    }
  }

  /** Sorting keeps what each key names. */
  lemma {:induction false} SortLookup(fields: seq<Field>, key: string)
    requires KeysDistinct(fields)
    ensures Lookup(SortByKey(fields), key) == Lookup(fields, key)
  {
    if fields != [] {
      var f, rest := fields[0], fields[1..];
      TailKeys(fields);
      SortLookup(rest, key);
      SortLookup(rest, f.key);
      LookupHas(rest, f.key);
      LookupHas(SortByKey(rest), f.key);
      InsertLookup(f, SortByKey(rest), key);
    }
  }

  ghost predicate Ascending(fields: seq<Field>) {
    forall i, j :: 0 <= i < j < |fields| ==> Less(fields[i].key, fields[j].key)
  }

  ghost predicate AllAfter(fields: seq<Field>, key: string) {
    forall i :: 0 <= i < |fields| ==> Less(key, fields[i].key)
  }

  lemma {:induction false} InsertAfter(f: Field, sorted: seq<Field>, key: string)
    requires AllAfter(sorted, key) && Less(key, f.key)
    ensures AllAfter(InsertField(f, sorted), key)
  {
    if sorted != [] && Less(sorted[0].key, f.key) {
      assert forall i :: 0 <= i < |sorted[1..]| ==> sorted[1..][i] == sorted[i + 1];
      InsertAfter(f, sorted[1..], key);
    }
  }

  lemma {:induction false} InsertAscending(f: Field, sorted: seq<Field>)
    requires Ascending(sorted) && !HasKey(sorted, f.key)
    ensures Ascending(InsertField(f, sorted))
  {
    if sorted != [] {
      HasTail(sorted, f.key);
      if Less(sorted[0].key, f.key) {
        InsertAscending(f, sorted[1..]);
        InsertAfter(f, sorted[1..], sorted[0].key);
      } else {
        LessTotal(f.key, sorted[0].key);
        forall i | 0 < i < |sorted|
          ensures Less(f.key, sorted[i].key)
        {
          LessTransitive(f.key, sorted[0].key, sorted[i].key);
        }
      }
    }
  }

  lemma {:induction false} SortAscending(fields: seq<Field>)
    requires KeysDistinct(fields)
    ensures Ascending(SortByKey(fields))
  {
    if fields != [] {
      var f, rest := fields[0], fields[1..];
      TailKeys(fields);
      SortAscending(rest);
      SortLookup(rest, f.key);
      LookupHas(rest, f.key);
      LookupHas(SortByKey(rest), f.key);
      InsertAscending(f, SortByKey(rest));
    }
  }

  lemma AscendingDistinct(fields: seq<Field>)
    requires Ascending(fields)
    ensures KeysDistinct(fields)
  {
    forall i, j | 0 <= i < j < |fields|
      ensures fields[i].key != fields[j].key
    {
      LessIrreflexive(fields[i].key);
    }
  }

  lemma FirstKey(a: seq<Field>, b: seq<Field>)
    requires a != [] && b != [] && Ascending(b) && HasKey(b, a[0].key)
    ensures b[0].key == a[0].key || Less(b[0].key, a[0].key)
  {
    var i :| 0 <= i < |b| && b[i].key == a[0].key;
  }

  lemma {:induction false} SameFirst(a: seq<Field>, b: seq<Field>)
    requires a != [] && b != [] && Ascending(a) && Ascending(b)
    requires forall k :: Lookup(a, k) == Lookup(b, k)
    ensures a[0] == b[0]
  {
    LookupHas(b, a[0].key);
    LookupHas(a, b[0].key);
    AscendingDistinct(a);
    AscendingDistinct(b);
    LookupPresent(a, 0);
    LookupPresent(b, 0);
    FirstKey(a, b);
    FirstKey(b, a);
    if a[0].key != b[0].key {
      LessTransitive(a[0].key, b[0].key, a[0].key);
      LessIrreflexive(a[0].key);
    }
  }

  lemma {:induction false} LookupTail(fields: seq<Field>, k: string)
    requires fields != [] && k != fields[0].key
    ensures Lookup(fields, k) == Lookup(fields[1..], k)
  {
    var rest := Lookup(fields[1..], k);
    assert Lookup(fields, k) == [] + rest;
    assert [] + rest == rest;
  }

  lemma SameEmptiness(a: seq<Field>, b: seq<Field>)
    requires forall k :: Lookup(a, k) == Lookup(b, k)
    ensures a == [] <==> b == []
  {
    if a != [] {
      LookupHas(a, a[0].key);
      LookupHas(b, a[0].key);
    }
    if b != [] {
      LookupHas(a, b[0].key);
      LookupHas(b, b[0].key);
    }
  }

  /** Fields in key order are determined by what each key names. */
  lemma {:induction false} AscendingUnique(a: seq<Field>, b: seq<Field>)
    requires Ascending(a) && Ascending(b)
    requires forall k :: Lookup(a, k) == Lookup(b, k)
    ensures a == b
  {
    SameEmptiness(a, b);
    if a != [] {
      SameFirst(a, b);
      AscendingDistinct(a);
      AscendingDistinct(b);
      TailKeys(a);
      TailKeys(b);
      forall k
        ensures Lookup(a[1..], k) == Lookup(b[1..], k)
      {
        if k == a[0].key {
          LookupAbsent(a[1..], k);
          LookupAbsent(b[1..], k);
        } else {
          LookupTail(a, k);
          LookupTail(b, k);
        }
      }
      AscendingUnique(a[1..], b[1..]);
      assert a == [a[0]] + a[1..] && b == [b[0]] + b[1..];
    }
  }

  // ---------------------------------------------------------------------
  // Canonical text decides sameness
  // ---------------------------------------------------------------------

  lemma {:induction false} SortedItemsAt(items: seq<Json>, i: nat)
    requires i < |items|
    ensures SortedItems(items)[i] == Sorted(items[i])
  {
    if i > 0 {
      SortedItemsAt(items[1..], i - 1);
    }
  }

  lemma {:induction false} SortedFieldsAt(fields: seq<Field>, i: nat)
    requires i < |fields|
    ensures SortedFields(fields)[i] == Field(fields[i].key, Sorted(fields[i].value))
  {
    if i > 0 {
      SortedFieldsAt(fields[1..], i - 1);
    }
  }

  lemma {:induction false} SortedFieldsDistinct(fields: seq<Field>)
    requires KeysDistinct(fields)
    ensures KeysDistinct(SortedFields(fields))
  {
    forall i, j | 0 <= i < j < |fields|
      ensures SortedFields(fields)[i].key != SortedFields(fields)[j].key
    {
      SortedFieldsAt(fields, i);
      SortedFieldsAt(fields, j);
    }
  }

  lemma {:induction false} SortedFieldsLookup(fields: seq<Field>, i: nat)
    requires KeysDistinct(fields) && i < |fields|
    ensures Lookup(SortByKey(SortedFields(fields)), fields[i].key) == [Sorted(fields[i].value)]
  {
    SortedFieldsDistinct(fields);
    SortedFieldsAt(fields, i);
    SortLookup(SortedFields(fields), fields[i].key);
    LookupPresent(SortedFields(fields), i);
  }

  lemma {:induction false} SortedFieldsHas(fields: seq<Field>, key: string)
    requires KeysDistinct(fields)
    ensures Lookup(SortByKey(SortedFields(fields)), key) != [] <==> HasKey(fields, key)
  {
    SortedFieldsDistinct(fields);
    SortLookup(SortedFields(fields), key);
    LookupHas(SortedFields(fields), key);
    if HasKey(fields, key) {
      var i :| 0 <= i < |fields| && fields[i].key == key;
      SortedFieldsAt(fields, i);
      assert SortedFields(fields)[i].key == key;
    }
    if HasKey(SortedFields(fields), key) {
      var i :| 0 <= i < |fields| && SortedFields(fields)[i].key == key;
      SortedFieldsAt(fields, i);
    }
  }

  /** Members agree key by key, once values already agree as sorted values. */
  ghost predicate MembersMatch(fs: seq<Field>, gs: seq<Field>) {
    && (forall k: string :: HasKey(fs, k) <==> HasKey(gs, k))
    && forall i, j :: 0 <= i < |fs| && 0 <= j < |gs| && fs[i].key == gs[j].key ==>
         Sorted(fs[i].value) == Sorted(gs[j].value)
  }

  lemma {:induction false} MembersDecide(fs: seq<Field>, gs: seq<Field>)
    requires KeysDistinct(fs) && KeysDistinct(gs)
    ensures SortByKey(SortedFields(fs)) == SortByKey(SortedFields(gs)) <==> MembersMatch(fs, gs)
  {
    hide Lookup, SortByKey, SortedFields, Sorted, HasKey;
    var a, b := SortByKey(SortedFields(fs)), SortByKey(SortedFields(gs));
    if a == b {
      forall k: string
        ensures HasKey(fs, k) <==> HasKey(gs, k)
      {
        SortedFieldsHas(fs, k);
        SortedFieldsHas(gs, k);
      }
      forall i, j | 0 <= i < |fs| && 0 <= j < |gs| && fs[i].key == gs[j].key
        ensures Sorted(fs[i].value) == Sorted(gs[j].value)
      {
        SortedFieldsLookup(fs, i);
        SortedFieldsLookup(gs, j);
      }
    }
    if MembersMatch(fs, gs) {
      forall k
        ensures Lookup(a, k) == Lookup(b, k)
      {
        MatchedLookup(fs, gs, k);
      }
      SortedFieldsDistinct(fs);
      SortedFieldsDistinct(gs);
      SortAscending(SortedFields(fs));
      SortAscending(SortedFields(gs));
      AscendingUnique(a, b);
    }
  }

  lemma {:induction false} MatchedLookup(fs: seq<Field>, gs: seq<Field>, k: string)
    requires KeysDistinct(fs) && KeysDistinct(gs) && MembersMatch(fs, gs)
    ensures Lookup(SortByKey(SortedFields(fs)), k) == Lookup(SortByKey(SortedFields(gs)), k)
  {
    hide Lookup, SortByKey, SortedFields, Sorted;
    SortedFieldsHas(fs, k);
    SortedFieldsHas(gs, k);
    if HasKey(fs, k) {
      assert HasKey(gs, k);
      var i :| 0 <= i < |fs| && fs[i].key == k;
      var j :| 0 <= j < |gs| && gs[j].key == k;
      SortedFieldsLookup(fs, i);
      SortedFieldsLookup(gs, j);
    }
  }

  /** Sorting identifies exactly the values that are equal up to key order. */
  lemma {:induction false} SortedSame(a: Json, b: Json)
    requires WellFormed(a) && WellFormed(b)
    ensures Sorted(a) == Sorted(b) <==> Same(a, b)
    decreases a
  {
    if a.Array? && b.Array? && |a.items| == |b.items| {
      forall i | 0 <= i < |a.items|
        ensures SortedItems(a.items)[i] == SortedItems(b.items)[i] <==> Same(a.items[i], b.items[i])
      {
        SortedItemsAt(a.items, i);
        SortedItemsAt(b.items, i);
        SortedSame(a.items[i], b.items[i]);
      }
      ArraysSame(a, b);
    } else if a.Object? && b.Object? {
      forall i, j | 0 <= i < |a.fields| && 0 <= j < |b.fields|
        ensures Sorted(a.fields[i].value) == Sorted(b.fields[j].value) <==> Same(a.fields[i].value, b.fields[j].value)
      {
        SortedSame(a.fields[i].value, b.fields[j].value);
      }
      ObjectsSame(a, b);
    }
  }

  lemma {:induction false} ArraysSame(a: Json, b: Json)
    requires a.Array? && b.Array? && |a.items| == |b.items|
    requires forall i :: 0 <= i < |a.items| ==>
      (SortedItems(a.items)[i] == SortedItems(b.items)[i] <==> Same(a.items[i], b.items[i]))
    ensures Sorted(a) == Sorted(b) <==> Same(a, b)
  {
    hide SortedItems;
    ItemsDecide(SortedItems(a.items), SortedItems(b.items));
  }

  lemma {:induction false} ObjectsSame(a: Json, b: Json)
    requires a.Object? && b.Object? && KeysDistinct(a.fields) && KeysDistinct(b.fields)
    requires forall i, j :: 0 <= i < |a.fields| && 0 <= j < |b.fields| ==>
      (Sorted(a.fields[i].value) == Sorted(b.fields[j].value) <==> Same(a.fields[i].value, b.fields[j].value))
    ensures Sorted(a) == Sorted(b) <==> Same(a, b)
  {
    hide SortedFields, SortByKey, HasKey, KeysDistinct;
    MembersDecide(a.fields, b.fields);
  }

  lemma ItemsDecide(xs: seq<Json>, ys: seq<Json>)
    ensures |xs| == |ys| ==> (xs == ys <==> forall i :: 0 <= i < |xs| ==> xs[i] == ys[i])
  {
  }

  lemma {:induction false} InsertPlain(f: Field, sorted: seq<Field>)
    requires FieldsPlain(sorted) && Plain(f.value)
    ensures FieldsPlain(InsertField(f, sorted))
  {
    if sorted != [] {
      InsertPlain(f, sorted[1..]);
    }
  }

  lemma {:induction false} SortPlain(fields: seq<Field>)
    requires FieldsPlain(fields)
    ensures FieldsPlain(SortByKey(fields))
  {
    if fields != [] {
      SortPlain(fields[1..]);
      InsertPlain(fields[0], SortByKey(fields[1..]));
    }
  }

  lemma {:induction false} SortedPlain(v: Json)
    requires WellFormed(v)
    ensures Plain(Sorted(v))
    decreases v
  {
    match v {
      case Array(items) =>
        forall i | 0 <= i < |items|
          ensures Plain(SortedItems(items)[i])
        {
          SortedItemsAt(items, i);
          SortedPlain(items[i]);
        }
      case Object(fields) =>
        forall i | 0 <= i < |fields|
          ensures Plain(SortedFields(fields)[i].value)
        {
          SortedFieldsAt(fields, i);
          SortedPlain(fields[i].value);
        }
        SortPlain(SortedFields(fields));
      case _ =>
    }
  }

  /**
   Two values have the same canonical text if and only if they are equal up to
   the order of keys, at every depth.
   */
  lemma {:induction false} CanonicalDecides(a: Json, b: Json)
    requires WellFormed(a) && WellFormed(b)
    ensures Canonical(a) == Canonical(b) <==> Same(a, b)
  {
    hide Print, Sorted, Same;
    SortedPlain(a);
    SortedPlain(b);
    SortedSame(a, b);
    if Canonical(a) == Canonical(b) {
      PrintInjective(Sorted(a), Sorted(b));
    }
  }

  /** And the text is a prefix code: a following delimiter can be told apart from the value. */
  lemma {:induction false} CanonicalPrefixFree(a: Json, x: string, b: Json, y: string)
    requires WellFormed(a) && WellFormed(b) && Delimited(x) && Delimited(y)
    requires Canonical(a) + x == Canonical(b) + y
    ensures Same(a, b) && x == y
  {
    hide Print, Sorted, Same, Delimited;
    SortedPlain(a);
    SortedPlain(b);
    SortedSame(a, b);
    PrintPrefixFree(Sorted(a), x, Sorted(b), y);
  }

  // ---------------------------------------------------------------------
  // The writer
  // ---------------------------------------------------------------------

  method SortFields(fields: seq<Field>) returns (sorted: seq<Field>)
    ensures sorted == SortByKey(fields)
  {
    sorted := [];
    var i := |fields|;
    while i > 0
      invariant 0 <= i <= |fields|
      invariant sorted == SortByKey(fields[i..])
    {
      i := i - 1;
      assert fields[i..][1..] == fields[i + 1..];
      sorted := Insert(fields[i], sorted);
    }
    assert fields[0..] == fields;
  }

  method Insert(f: Field, sorted: seq<Field>) returns (r: seq<Field>)
    ensures r == InsertField(f, sorted)
  {
    var i := 0;
    assert sorted[0..] == sorted;
    while i < |sorted| && Less(sorted[i].key, f.key)
      invariant 0 <= i <= |sorted|
      invariant InsertField(f, sorted) == sorted[..i] + InsertField(f, sorted[i..])
    {
      InsertStep(f, sorted, i);
      i := i + 1;
    }
    r := sorted[..i] + ([f] + sorted[i..]);
  }

  lemma {:induction false} InsertStep(f: Field, sorted: seq<Field>, i: nat)
    requires i < |sorted| && Less(sorted[i].key, f.key)
    ensures sorted[..i] + InsertField(f, sorted[i..]) == sorted[..i + 1] + InsertField(f, sorted[i + 1..])
  {
    assert sorted[i..][1..] == sorted[i + 1..];
    var rest := InsertField(f, sorted[i + 1..]);
    assert sorted[..i] + ([sorted[i]] + rest) == sorted[..i + 1] + rest;
  }

  lemma {:induction false} InsertMember(f: Field, sorted: seq<Field>, x: Field)
    requires x in InsertField(f, sorted)
    ensures x == f || x in sorted
  {
    if sorted != [] && Less(sorted[0].key, f.key) && x != sorted[0] {
      InsertMember(f, sorted[1..], x);
    }
  }

  lemma {:induction false} SortMember(fields: seq<Field>, x: Field)
    requires x in SortByKey(fields)
    ensures x in fields
  {
    if fields != [] {
      InsertMember(fields[0], SortByKey(fields[1..]), x);
      if x != fields[0] {
        SortMember(fields[1..], x);
      }
    }
  }

  /** Sorting the keys first, or the values first, gives the same. */
  lemma {:induction false} SortCommutes(fields: seq<Field>)
    ensures SortByKey(SortedFields(fields)) == SortedFields(SortByKey(fields))
  {
    if fields != [] {
      var f := Field(fields[0].key, Sorted(fields[0].value));
      assert SortedFields(fields)[1..] == SortedFields(fields[1..]);
      SortCommutes(fields[1..]);
      InsertCommutes(fields[0], SortByKey(fields[1..]));
    }
  }

  lemma {:induction false} InsertCommutes(f: Field, sorted: seq<Field>)
    ensures InsertField(Field(f.key, Sorted(f.value)), SortedFields(sorted)) == SortedFields(InsertField(f, sorted))
  {
    if sorted != [] && Less(sorted[0].key, f.key) {
      InsertCommutes(f, sorted[1..]);
      assert SortedFields(sorted)[1..] == SortedFields(sorted[1..]);
      assert ([sorted[0]] + InsertField(f, sorted[1..]))[1..] == InsertField(f, sorted[1..]);
    } else {
      assert ([f] + sorted)[1..] == sorted;
    }
  }

  /** Appends the canonical text of a value to the output. */
  method WriteCanonical(v: Json, output: string) returns (out: string)
    ensures out == output + Canonical(v)
    decreases v, 1
  {
    match v {
      case Object(fields) =>
        SortCommutes(fields);
        out := WriteFields(v, fields, output + "{");
        Regroup(output, "{", FieldsFrom(SortedFields(SortByKey(fields)), true));
      case Array(items) =>
        out := WriteItems(v, items, output + "[");
        Regroup(output, "[", ItemsFrom(SortedItems(items), true));
      case Str(text) => out := output + Quote(text);
      case Number(token) => out := output + token;
      case Bool(flag) => out := output + if flag then "true" else "false";
      case Null => out := output + "null";
    }
  }

  /** Moving one item out of what is still to be written. */
  lemma {:induction false} ItemsStep(all: seq<Json>, i: nat, before: string)
    requires i < |all|
    ensures before + ItemsFrom(all[i..], i == 0)
      == ((before + Separator(i == 0)) + Print(all[i])) + ItemsFrom(all[i + 1..], false)
  {
    var rest := all[i..];
    assert rest != [] && rest[0] == all[i] && rest[1..] == all[i + 1..];
    hide Print, Separator;
    var text, tail := Print(all[i]), ItemsFrom(all[i + 1..], false);
    assert ItemsFrom(rest, i == 0) == Separator(i == 0) + (text + tail);
    hide ItemsFrom;
    assert before + (Separator(i == 0) + (text + tail)) == ((before + Separator(i == 0)) + text) + tail;
  }

  method WriteItems(ghost owner: Json, items: seq<Json>, output: string) returns (out: string)
    requires owner == Array(items)
    ensures out == output + ItemsFrom(SortedItems(items), true)
    decreases owner, 0
  {
    hide Print, Sorted;
    ghost var all := SortedItems(items);
    ghost var goal := output + ItemsFrom(all, true);
    assert all[0..] == all && all[|items|..] == [];
    hide ItemsFrom, SortedItems;
    out := output;
    for i := 0 to |items|
      invariant out + ItemsFrom(all[i..], i == 0) == goal
    {
      SortedItemsAt(items, i);
      ItemsStep(all, i, out);
      ghost var before := out;
      if i > 0 {
        out := out + ",";
      }
      assert out == before + Separator(i == 0);
      out := WriteCanonical(items[i], out);
    }
    NoItems(|items| == 0);
    out := out + "]";
  }

  lemma {:induction false} NoItems(first: bool)
    ensures ItemsFrom([], first) == "]"
  {
  }

  method WriteFields(ghost owner: Json, fields: seq<Field>, output: string) returns (out: string)
    requires owner == Object(fields)
    ensures out == output + FieldsFrom(SortedFields(SortByKey(fields)), true)
    decreases owner, 0
  {
    hide Print, Sorted, Quote;
    var sorted := SortFields(fields);
    ghost var all := SortedFields(sorted);
    ghost var goal := output + FieldsFrom(all, true);
    assert all[0..] == all;
    out := output;
    for i := 0 to |sorted|
      invariant out + FieldsFrom(all[i..], i == 0) == goal
    {
      SortedFieldsAt(sorted, i);
      assert all[i..][1..] == all[i + 1..];
      SmallerMember(fields, i);
      ghost var before := out;
      if i > 0 {
        out := out + ",";
      }
      assert out == before + Separator(i == 0);
      out := out + Quote(sorted[i].key) + ":";
      ghost var headed := out;
      out := WriteCanonical(sorted[i].value, out);
      FieldText(before, Separator(i == 0), Quote(sorted[i].key), Print(all[i].value), FieldsFrom(all[i + 1..], false));
    }
    assert all[|sorted|..] == [];
    out := out + "}";
  }

  lemma FieldText(before: string, sep: string, key: string, value: string, rest: string)
    ensures before + (sep + (key + (":" + (value + rest)))) == ((((before + sep) + key) + ":") + value) + rest
  {
  }

  lemma {:induction false} SmallerMember(fields: seq<Field>, i: nat)
    requires i < |fields|
    ensures SortByKey(fields)[i] in fields
  {
    SortMember(fields, SortByKey(fields)[i]);
  }
}
