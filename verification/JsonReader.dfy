/**
 A reader of JSON texts without insignificant white space, after RFC 8259, that knows nothing of the printer: it
 reads every canonical text back as the value it was printed from.
 */
module JsonReader {
  import opened Wrappers
  import opened CanonicalJson

  // ---------------------------------------------------------------------
  // Strings, section 7
  // ---------------------------------------------------------------------

  function HexValue(c: char): Option<nat> {
    if '0' <= c <= '9' then Some(c as int - '0' as int)
    else if 'a' <= c <= 'f' then Some(c as int - 'a' as int + 10)
    else if 'A' <= c <= 'F' then Some(c as int - 'A' as int + 10)
    else None
  }

  /** The four digits behind a `\u`; surrogates are not read. */
  function ReadUnit(t: string): Option<char>
    requires |t| >= 4
  {
    var a, b, c, d := HexValue(t[0]), HexValue(t[1]), HexValue(t[2]), HexValue(t[3]);
    if a.None? || b.None? || c.None? || d.None? then None
    else
      var code := 4096 * a.value + 256 * b.value + 16 * c.value + d.value;
      if 0xD800 <= code < 0xE000 then None else if code < 0x10000 then Some(code as char) else None
  }

  function ReadEscape(c: char): Option<char> {
    if c == '"' || c == '\\' || c == '/' then Some(c)
    else if c == 'b' then Some(8 as char)
    else if c == 'f' then Some(12 as char)
    else if c == 'n' then Some(10 as char)
    else if c == 'r' then Some(13 as char)
    else if c == 't' then Some(9 as char)
    else None
  }

  /** One character of a string and what follows it. */
  function ReadChar(t: string): (r: Option<(char, string)>)
    ensures r.Some? ==> |r.value.1| < |t|
  {
    if t == "" || t[0] == '"' || t[0] < ' ' then None
    else if t[0] != '\\' then Some((t[0], t[1..]))
    else if |t| >= 6 && t[1] == 'u' then
      match ReadUnit(t[2..6])
      case None => None
      case Some(c) => Some((c, t[6..]))
    else if |t| >= 2 then
      match ReadEscape(t[1])
      case None => None
      case Some(c) => Some((c, t[2..]))
    else None
  }

  /** The characters up to the closing quote. */
  function ReadChars(t: string): (r: Option<(string, string)>)
    ensures r.Some? ==> |r.value.1| < |t|
    decreases |t|
  {
    if t == "" then None
    else if t[0] == '"' then Some(("", t[1..]))
    else
      match ReadChar(t)
      case None => None
      case Some((c, rest)) =>
        match ReadChars(rest)
        case None => None
        case Some((text, after)) => Some(([c] + text, after))
  }

  function ReadString(t: string): (r: Option<(string, string)>)
    ensures r.Some? ==> |r.value.1| < |t|
  {
    if t == "" || t[0] != '"' then None else ReadChars(t[1..])
  }

  // ---------------------------------------------------------------------
  // Values, section 3
  // ---------------------------------------------------------------------

  /** The longest front that can be a number. */
  function NumberEnd(t: string, i: nat): (e: nat)
    requires i <= |t|
    ensures i <= e <= |t|
    decreases |t| - i
  {
    if i < |t| && IsNumberChar(t[i]) then NumberEnd(t, i + 1) else i
  }

  function ReadValue(t: string): (r: Option<(Json, string)>)
    ensures r.Some? ==> |r.value.1| < |t|
    decreases |t|, 1
  {
    if t == "" then None
    else if t[0] == 'n' then if "null" <= t then Some((Null, t[4..])) else None
    else if t[0] == 't' then if "true" <= t then Some((Bool(true), t[4..])) else None
    else if t[0] == 'f' then if "false" <= t then Some((Bool(false), t[5..])) else None
    else if t[0] == '"' then
      match ReadString(t)
      case None => None
      case Some((text, rest)) => Some((Str(text), rest))
    else if t[0] == '[' then
      match ReadItems(t[1..], true)
      case None => None
      case Some((items, rest)) => Some((Array(items), rest))
    else if t[0] == '{' then
      match ReadFields(t[1..], true)
      case None => None
      case Some((fields, rest)) => Some((Object(fields), rest))
    else
      var e := NumberEnd(t, 0);
      if IsToken(t[..e]) then Some((Number(t[..e]), t[e..])) else None
  }

  /** The items up to the closing bracket; all but the first stand behind a comma. */
  function ReadItems(t: string, first: bool): (r: Option<(seq<Json>, string)>)
    ensures r.Some? ==> |r.value.1| < |t|
    decreases |t|, 2
  {
    if t == "" then None
    else if t[0] == ']' then Some(([], t[1..]))
    else if !first && t[0] != ',' then None
    else
      match ReadValue(if first then t else t[1..])
      case None => None
      case Some((item, rest)) =>
        match ReadItems(rest, false)
        case None => None
        case Some((items, after)) => Some(([item] + items, after))
  }

  function ReadFields(t: string, first: bool): (r: Option<(seq<Field>, string)>)
    ensures r.Some? ==> |r.value.1| < |t|
    decreases |t|, 2
  {
    if t == "" then None
    else if t[0] == '}' then Some(([], t[1..]))
    else if !first && t[0] != ',' then None
    else
      match ReadString(if first then t else t[1..])
      case None => None
      case Some((key, named)) =>
        if named == "" || named[0] != ':' then None
        else
          match ReadValue(named[1..])
          case None => None
          case Some((value, rest)) =>
            match ReadFields(rest, false)
            case None => None
            case Some((fields, after)) => Some(([Field(key, value)] + fields, after))
  }

  // ---------------------------------------------------------------------
  // Printed text is read back
  // ---------------------------------------------------------------------

  lemma HexRead(i: nat)
    requires i < 16
    ensures HexValue(HEX[i]) == Some(i)
  {
  }

  lemma ControlRead(c: char, x: string)
    requires c < ' '
    ensures ReadUnit(("\\u00" + [HEX[c as int / 16], HEX[c as int % 16]])[2..6]) == Some(c)
  {
    HexRead(c as int / 16);
    HexRead(c as int % 16);
  }

  /** An escaped character is read as itself. */
  lemma EscapeRead(c: char, x: string)
    ensures ReadChar(Escape(c) + x) == Some((c, x))
    ensures (Escape(c) + x)[0] != '"'
  {
    var e := Escape(c);
    EscapeLength(c);
    assert (e + x)[|e|..] == x && (e + x)[0] == e[0];
    if |e| == 6 {
      assert (e + x)[2..6] == e[2..6] && (e + x)[1] == e[1];
      ControlRead(c, x);
    } else if |e| == 2 {
      assert (e + x)[1] == e[1];
    }
  }

  lemma {:induction false} CharsRead(text: string, x: string)
    ensures ReadChars(EscapeAll(text) + ("\"" + x)) == Some((text, x))
  {
    if text == "" {
      assert "" + ("\"" + x) == "\"" + x && ("\"" + x)[1..] == x;
    } else {
      var rest := EscapeAll(text[1..]) + ("\"" + x);
      Regroup(Escape(text[0]), EscapeAll(text[1..]), "\"" + x);
      CharsRead(text[1..], x);
      EscapeRead(text[0], rest);
      assert [text[0]] + text[1..] == text;
      hide Escape, ReadChar;
    }
  }

  lemma {:induction false} QuoteRead(text: string, x: string)
    ensures Quote(text) + x != "" && (Quote(text) + x)[0] == '"'
    ensures ReadString(Quote(text) + x) == Some((text, x))
  {
    QuoteRegroup(text, x);
    CharsRead(text, x);
    var body := EscapeAll(text) + ("\"" + x);
    hide EscapeAll, ReadChars, Quote;
    assert ("\"" + body)[1..] == body;
  }

  lemma {:induction false} NumberEndIs(token: string, x: string, i: nat)
    requires i <= |token| && Delimited(x) && forall j :: 0 <= j < |token| ==> IsNumberChar(token[j])
    ensures NumberEnd(token + x, i) == |token|
    decreases |token| - i
  {
    if i < |token| {
      assert (token + x)[i] == token[i];
      NumberEndIs(token, x, i + 1);
    } else if x != "" {
      assert (token + x)[i] == x[0];
    }
  }

  lemma {:induction false} NumberRead(token: string, x: string)
    requires IsToken(token) && Delimited(x)
    ensures ReadValue(token + x) == Some((Number(token), x))
  {
    NumberEndIs(token, x, 0);
    assert (token + x)[..|token|] == token && (token + x)[|token|..] == x && (token + x)[0] == token[0];
    hide ReadItems, ReadFields, ReadString, NumberEnd;
  }

  lemma {:induction false} WordRead(x: string)
    ensures ReadValue("null" + x) == Some((Null, x))
    ensures ReadValue("true" + x) == Some((Bool(true), x))
    ensures ReadValue("false" + x) == Some((Bool(false), x))
  {
    assert ("null" + x)[4..] == x && ("true" + x)[4..] == x && ("false" + x)[5..] == x;
    hide ReadItems, ReadFields, ReadString, NumberEnd;
  }

  lemma {:induction false} StringRead(text: string, x: string)
    ensures ReadValue(Quote(text) + x) == Some((Str(text), x))
  {
    QuoteRead(text, x);
    hide ReadItems, ReadFields, ReadString, NumberEnd, Quote;
  }

  lemma {:induction false} ArrayRead(items: seq<Json>, t: string, x: string)
    requires ReadItems(t, true) == Some((items, x))
    ensures ReadValue("[" + t) == Some((Array(items), x))
  {
    hide ReadItems, ReadFields, ReadString, NumberEnd;
    assert ("[" + t)[1..] == t;
  }

  lemma {:induction false} ObjectRead(fields: seq<Field>, t: string, x: string)
    requires ReadFields(t, true) == Some((fields, x))
    ensures ReadValue("{" + t) == Some((Object(fields), x))
  {
    hide ReadItems, ReadFields, ReadString, NumberEnd;
    assert ("{" + t)[1..] == t;
  }

  lemma {:induction false} ItemsEnd(first: bool, x: string)
    ensures ReadItems("]" + x, first) == Some(([], x))
    ensures ReadFields("}" + x, first) == Some(([], x))
  {
    assert ("]" + x)[1..] == x && ("}" + x)[1..] == x;
  }

  lemma {:induction false} ItemsNext(t: string, first: bool, item: Json, rest: string, items: seq<Json>, x: string)
    requires t != "" && t[0] != ']' && ReadValue(t) == Some((item, rest)) && ReadItems(rest, false) == Some((items, x))
    ensures ReadItems(Separator(first) + t, first) == Some(([item] + items, x))
  {
    hide ReadValue;
    if first {
      assert "" + t == t;
    } else {
      assert ("," + t)[1..] == t;
    }
  }

  lemma {:induction false} FieldsNext(t: string, first: bool, key: string, named: string, value: Json, rest: string,
                                      fields: seq<Field>, x: string)
    requires t != "" && t[0] == '"' && ReadString(t) == Some((key, ":" + named))
    requires ReadValue(named) == Some((value, rest)) && ReadFields(rest, false) == Some((fields, x))
    ensures ReadFields(Separator(first) + t, first) == Some(([Field(key, value)] + fields, x))
  {
    hide ReadValue, ReadString;
    assert (":" + named)[1..] == named;
    if first {
      assert "" + t == t;
    } else {
      assert ("," + t)[1..] == t;
    }
  }

  /** What stands behind an item starts with a comma or the bracket, and is therefore no part of a number. */
  lemma {:induction false} ValueLead(v: Json, x: string)
    requires Plain(v)
    ensures Print(v) + x != "" && (Print(v) + x)[0] != ']'
  {
    PrintLead(v);
    LeadsOpen(v);
    hide Print, Lead;
  }

  lemma {:induction false} LeadsOpen(v: Json)
    ensures Plain(v) ==> Lead(v) != ']'
  {
  }

  /** Whatever follows, a printed value is read back, and what follows is left. */
  lemma {:induction false} PrintRead(v: Json, x: string)
    requires Plain(v) && Delimited(x)
    ensures ReadValue(Print(v) + x) == Some((v, x))
    decreases v
  {
    hide ReadValue, ReadItems, ReadFields, ItemsFrom, FieldsFrom, Quote, Delimited;
    match v {
      case Null => WordRead(x);
      case Bool(_) => WordRead(x);
      case Number(token) => NumberRead(token, x);
      case Str(text) => StringRead(text, x);
      case Array(items) =>
        ItemsRead(items, true, x);
        ArrayRead(items, ItemsFrom(items, true) + x, x);
        Regroup("[", ItemsFrom(items, true), x);
      case Object(fields) =>
        FieldsRead(fields, true, x);
        ObjectRead(fields, FieldsFrom(fields, true) + x, x);
        Regroup("{", FieldsFrom(fields, true), x);
    }
  }

  lemma {:induction false} ItemsRead(items: seq<Json>, first: bool, x: string)
    requires AllPlain(items)
    ensures ReadItems(ItemsFrom(items, first) + x, first) == Some((items, x))
    decreases items
  {
    if items == [] {
      ItemsEnd(first, x);
    } else {
      var tail := ItemsFrom(items[1..], false) + x;
      ItemsRegroup(items, first, x);
      ItemsDelimited(items[1..], x);
      ValueLead(items[0], tail);
      ItemsRead(items[1..], false, x);
      PrintRead(items[0], tail);
      assert [items[0]] + items[1..] == items;
      hide *;
      ItemsNext(Print(items[0]) + tail, first, items[0], tail, items[1..], x);
    }
  }

  lemma {:induction false} FieldsRead(fields: seq<Field>, first: bool, x: string)
    requires FieldsPlain(fields)
    ensures ReadFields(FieldsFrom(fields, first) + x, first) == Some((fields, x))
    decreases fields
  {
    if fields == [] {
      ItemsEnd(first, x);
    } else {
      var f := fields[0];
      var tail := FieldsFrom(fields[1..], false) + x;
      var named := Print(f.value) + tail;
      FieldsRegroup(fields, first, x);
      FieldsDelimited(fields[1..], x);
      FieldsRead(fields[1..], false, x);
      PrintRead(f.value, tail);
      QuoteRead(f.key, ":" + named);
      assert [Field(f.key, f.value)] + fields[1..] == fields;
      hide *;
      FieldsNext(Quote(f.key) + (":" + named), first, f.key, named, f.value, tail, fields[1..], x);
    }
  }

  // ---------------------------------------------------------------------
  // Canonical text
  // ---------------------------------------------------------------------

  /** Every object's keys ascend, at every depth. */
  ghost predicate KeysAscend(v: Json)
    decreases v
  {
    match v
    case Array(items) => forall i :: 0 <= i < |items| ==> KeysAscend(items[i])
    case Object(fields) => Ascending(fields) && forall i :: 0 <= i < |fields| ==> KeysAscend(fields[i].value)
    case _ => true
  }

  lemma {:induction false} InsertAscend(f: Field, sorted: seq<Field>)
    requires KeysAscend(f.value) && forall i :: 0 <= i < |sorted| ==> KeysAscend(sorted[i].value)
    ensures forall i :: 0 <= i < |InsertField(f, sorted)| ==> KeysAscend(InsertField(f, sorted)[i].value)
  {
    if sorted != [] {
      InsertAscend(f, sorted[1..]);
    }
  }

  lemma {:induction false} SortAscend(fields: seq<Field>)
    requires forall i :: 0 <= i < |fields| ==> KeysAscend(fields[i].value)
    ensures forall i :: 0 <= i < |SortByKey(fields)| ==> KeysAscend(SortByKey(fields)[i].value)
  {
    if fields != [] {
      SortAscend(fields[1..]);
      InsertAscend(fields[0], SortByKey(fields[1..]));
    }
  }

  lemma {:induction false} SortedAscend(v: Json)
    requires WellFormed(v)
    ensures KeysAscend(Sorted(v))
    decreases v
  {
    match v {
      case Array(items) =>
        forall i | 0 <= i < |items|
          ensures KeysAscend(SortedItems(items)[i])
        {
          SortedItemsAt(items, i);
          SortedAscend(items[i]);
        }
      case Object(fields) =>
        forall i | 0 <= i < |fields|
          ensures KeysAscend(SortedFields(fields)[i].value)
        {
          SortedFieldsAt(fields, i);
          SortedAscend(fields[i].value);
        }
        SortAscend(SortedFields(fields));
        SortedFieldsDistinct(fields);
        SortAscending(SortedFields(fields));
        hide SortByKey, SortedFields;
      case _ =>
    }
  }

  lemma {:induction false} SortedMember(fields: seq<Field>, i: nat, j: nat)
    requires KeysDistinct(fields) && i < |fields|
    requires var sorted := SortByKey(SortedFields(fields)); j < |sorted| && sorted[j].key == fields[i].key
    ensures SortByKey(SortedFields(fields))[j].value == Sorted(fields[i].value)
  {
    SortedFieldsLookup(fields, i);
    SortedFieldsDistinct(fields);
    SortAscending(SortedFields(fields));
    AscendingDistinct(SortByKey(SortedFields(fields)));
    LookupPresent(SortByKey(SortedFields(fields)), j);
    hide *;
  }

  /** Sorting leaves the value the same but for key order. */
  lemma {:induction false} SortedIsSame(v: Json)
    requires WellFormed(v)
    ensures Same(v, Sorted(v))
    decreases v
  {
    match v {
      case Array(items) =>
        forall i | 0 <= i < |items|
          ensures Same(items[i], SortedItems(items)[i])
        {
          SortedItemsAt(items, i);
          SortedIsSame(items[i]);
        }
      case Object(fields) =>
        var sorted := SortByKey(SortedFields(fields));
        forall k: string
          ensures HasKey(fields, k) <==> HasKey(sorted, k)
        {
          SortedFieldsHas(fields, k);
          LookupHas(sorted, k);
        }
        forall i, j | 0 <= i < |fields| && 0 <= j < |sorted| && fields[i].key == sorted[j].key
          ensures Same(fields[i].value, sorted[j].value)
        {
          SortedMember(fields, i, j);
          SortedIsSame(fields[i].value);
        }
        hide SortByKey, SortedFields, HasKey, KeysDistinct;
      case _ =>
    }
  }

  /**
   The canonical text of a value is a JSON text, without white space: read on its own it gives a value that differs
   from the printed one in key order alone and has its keys in ascending order at every depth, and nothing is left.
   */
  lemma {:induction false} CanonicalReads(v: Json)
    requires WellFormed(v)
    ensures var r := ReadValue(Canonical(v));
      r.Some? && r.value.1 == "" && Same(v, r.value.0) && KeysAscend(r.value.0)
  {
    hide *;
    SortedPlain(v);
    SortedIsSame(v);
    SortedAscend(v);
    NothingDelimited();
    PrintRead(Sorted(v), "");
    CanonicalIs(v);
    assert Print(Sorted(v)) + "" == Print(Sorted(v));
  }

  lemma {:induction false} CanonicalIs(v: Json)
    ensures Canonical(v) == Print(Sorted(v))
  {
  }
}
