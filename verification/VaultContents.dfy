/**
 What each vault operation writes, lists, returns and leaves behind: entries with all their fields, value files,
 the errors of operations that do nothing, and files no entry names.
 */
module VaultContents {
  import opened Wrappers
  import opened Vault

  // ---------------------------------------------------------------------
  // Names, ids and value files
  // ---------------------------------------------------------------------

  /** The so many characters from this one on. */
  function Alphabet(first: char, n: nat): (s: string)
    requires first as int + n < 128
    ensures forall c :: c in s <==> first <= c && (c as int) < first as int + n
  {
    var s := seq(n, i requires 0 <= i < n => (first as int + i) as char);
    assert forall c :: first <= c && (c as int) < first as int + n ==> c == s[c as int - first as int] && c in s;
    s
  }

  const LETTERS_DIGITS := Alphabet('a', 26) + Alphabet('A', 26) + Alphabet('0', 10)

  /** Names are 1 to 128 letters, digits, dots, underlines and dashes, and begin with a letter or digit. */
  lemma {:induction false} NameMeaning(name: string)
    ensures ValidName(name) <==>
      && (exists head, tail :: name == [head] + tail && |tail| <= 127 && head in LETTERS_DIGITS)
      && forall c :: c in name ==> c in LETTERS_DIGITS + "._-"
  {
    assert forall c: char :: IsAlphanumeric(c) <==> c in LETTERS_DIGITS;
    hide IsAlphanumeric, LETTERS_DIGITS, Alphabet;
    assert forall c :: c in LETTERS_DIGITS + "._-" <==> c in LETTERS_DIGITS || c in "._-";
    assert (forall c :: c in name ==> c in LETTERS_DIGITS + "._-")
        <==> forall i :: 0 <= i < |name| ==> IsAlphanumeric(name[i]) || name[i] in "._-";
    if 0 < |name| <= 128 {
      assert name == [name[0]] + name[1..];
    }
  }

  /** The character with its letter A to F made small. */
  function Small(c: char): char {
    if 'A' <= c <= 'F' then (c as int + 32) as char else c
  }

  lemma HexAt(v: nat)
    requires v < 16
    ensures HEX[v] == (if v < 10 then (48 + v) as char else (87 + v) as char)
  {
  }

  function DigitValue(c: char): (v: nat)
    requires IsHexDigit(c)
    ensures v < 16 && HEX[v] == Small(c)
  {
    var v := if c <= '9' then c as int - 48 else if c <= 'F' then c as int - 55 else c as int - 87;
    HexAt(v);
    v
  }

  function Pack(high: nat, low: nat): (b: Byte)
    requires high < 16 && low < 16
    ensures b as int / 16 == high && b as int % 16 == low
  {
    (16 * high + low) as Byte
  }

  function FromHex(id: string): (bytes: seq<Byte>)
    requires |id| % 2 == 0 && forall i :: 0 <= i < |id| ==> IsHexDigit(id[i])
    ensures |bytes| == |id| / 2
  {
    if id == "" then [] else [Pack(DigitValue(id[0]), DigitValue(id[1]))] + FromHex(id[2..])
  }

  lemma {:induction false} FromHexSpells(id: string)
    requires |id| % 2 == 0 && forall i :: 0 <= i < |id| ==> IsHexDigit(id[i])
    ensures forall i :: 0 <= i < |id| ==> HexLower(FromHex(id))[i] == Small(id[i])
  {
    if id != "" {
      FromHexSpells(id[2..]);
      var v, w := DigitValue(id[0]), DigitValue(id[1]);
      var rest := HexLower(FromHex(id[2..]));
      assert FromHex(id)[1..] == FromHex(id[2..]);
      var spelt := [HEX[v], HEX[w]] + rest;
      assert HexLower(FromHex(id)) == spelt;
      hide HexLower, FromHex, DigitValue, Small, HEX;
      forall i | 0 <= i < |id|
        ensures spelt[i] == Small(id[i])
      {
        if 2 <= i {
          assert spelt[i] == rest[i - 2] && id[i] == id[2..][i - 2];
        }
      }
    }
  }

  lemma SmallHex(c: char)
    ensures IsHexDigit(Small(c)) ==> IsHexDigit(c)
  {
  }

  /** Whether the id spells these bytes, in letters of either size. */
  ghost predicate Spells(id: string, bytes: seq<Byte>) {
    |id| == |HexLower(bytes)| && forall i :: 0 <= i < |id| ==> Small(id[i]) == HexLower(bytes)[i]
  }

  /** Ids are what spells sixteen bytes. */
  lemma {:induction false} IdMeaning(id: string)
    ensures ValidId(id) <==> exists bytes: Draw :: Spells(id, bytes)
  {
    if ValidId(id) {
      FromHexSpells(id);
      var bytes: Draw := FromHex(id);
      assert Spells(id, bytes);
    }
    if bytes: Draw :| Spells(id, bytes) {
      forall i | 0 <= i < |id|
        ensures IsHexDigit(id[i])
      {
        SmallHex(id[i]);
      }
    }
  }

  /** A value file opens to a value exactly when it is the mark, a nonce and what opens to it under that nonce. */
  lemma {:induction false} DecryptMeaning(c: Cipher, e: Entry, bytes: seq<Byte>, value: seq<Byte>)
    ensures DecryptValue(c, e, bytes) == Some(value) <==>
      exists nonce: Nonce, sealed ::
        bytes == MAGIC + nonce + sealed && c.open(nonce, AssociatedData(e), sealed) == Some(value)
  {
    hide AssociatedData;
    if DecryptValue(c, e, bytes) == Some(value) {
      var nonce: Nonce := bytes[|MAGIC|..HEADER_LEN];
      assert bytes == MAGIC + nonce + bytes[HEADER_LEN..];
    }
    if nonce: Nonce, sealed :| bytes == MAGIC + nonce + sealed && c.open(nonce, AssociatedData(e), sealed) == Some(value) {
      assert bytes[..|MAGIC|] == MAGIC && bytes[|MAGIC|..HEADER_LEN] == nonce && bytes[HEADER_LEN..] == sealed;
    }
  }

  // ---------------------------------------------------------------------
  // Fresh ids
  // ---------------------------------------------------------------------

  lemma HexDistinct(a: Byte, b: Byte)
    requires HEX[a as int / 16] == HEX[b as int / 16] && HEX[a as int % 16] == HEX[b as int % 16]
    ensures a == b
  {
    DigitDistinct(a as int / 16, b as int / 16);
    DigitDistinct(a as int % 16, b as int % 16);
  }

  lemma DigitDistinct(i: nat, j: nat)
    requires i < 16 && j < 16 && HEX[i] == HEX[j]
    ensures i == j
  {
  }

  /** Different draws give different ids. */
  lemma {:induction false} HexInjective(a: seq<Byte>, b: seq<Byte>)
    requires |a| == |b| && HexLower(a) == HexLower(b)
    ensures a == b
  {
    if a != [] {
      var x, y := HexLower(a), HexLower(b);
      assert x[0] == HEX[a[0] as int / 16] && x[1] == HEX[a[0] as int % 16] && x[2..] == HexLower(a[1..]);
      assert y[0] == HEX[b[0] as int / 16] && y[1] == HEX[b[0] as int % 16] && y[2..] == HexLower(b[1..]);
      HexDistinct(a[0], b[0]);
      HexInjective(a[1..], b[1..]);
      assert a == [a[0]] + a[1..] && b == [b[0]] + b[1..];
    }
  }

  /** Draw k is the first of eight whose id is free, and no draw before it failed. */
  ghost predicate FirstFree(entries: seq<Entry>, random: Draws, k: nat, id: string) {
    && k < 8 && random(k).Some? && id == HexLower(random(k).value) && !IdTaken(entries, id)
    && forall j: nat :: j < k ==> random(j).Some? && IdTaken(entries, HexLower(random(j).value))
  }

  lemma {:induction false} FreeFrom(entries: seq<Entry>, random: Draws, attempt: nat)
    requires attempt <= 8
    requires forall j: nat :: j < attempt ==> random(j).Some? && IdTaken(entries, HexLower(random(j).value))
    ensures var r := NewId(entries, random, attempt);
      && (r.Ok? ==> exists k: nat :: FirstFree(entries, random, k, r.value))
      && (r.Err? ==> r == Err(Random) && forall k: nat, id: string :: !FirstFree(entries, random, k, id))
    decreases 8 - attempt
  {
    hide IdTaken, HexLower;
    if attempt < 8 && random(attempt).Some? {
      if IdTaken(entries, HexLower(random(attempt).value)) {
        FreeFrom(entries, random, attempt + 1);
      } else {
        assert FirstFree(entries, random, attempt, HexLower(random(attempt).value));
      }
    }
  }

  /** An id is found exactly when one of the eight draws up to the first failed one is free: the first such. */
  lemma {:induction false} NewIdMeaning(entries: seq<Entry>, random: Draws)
    ensures var r := NewId(entries, random, 0);
      && (r.Ok? <==> exists k: nat, id: string :: FirstFree(entries, random, k, id))
      && (r.Ok? ==> exists k: nat :: FirstFree(entries, random, k, r.value))
      && (r.Err? ==> r == Err(Random))
  {
    FreeFrom(entries, random, 0);
    hide NewId;
  }

  // ---------------------------------------------------------------------
  // Storing
  // ---------------------------------------------------------------------

  ghost predicate Named(entries: seq<Entry>, name: string) {
    exists e :: e in entries && e.name == name
  }

  /** The entry a store lists: the name's own with a new time, or a new one under the first free id. */
  ghost predicate ListedAs(entries: seq<Entry>, name: string, w: World, e: Entry) {
    && e.name == name && e.updated == w.now && e.algorithm == "XChaCha20-Poly1305"
    && if Named(entries, name) then
         exists past :: past in entries && past.name == name && e.id == past.id && e.created == past.created
       else e.created == w.now && exists k: nat :: FirstFree(entries, w.draws, k, e.id)
  }

  /** The index lists this entry for its name, and all others unchanged, in the order of their names. */
  ghost predicate Indexed(before: seq<Entry>, after: seq<Entry>, e: Entry) {
    && (forall x :: x in after <==> x == e || (x in before && x.name != e.name))
    && |after| == |before| + (if Named(before, e.name) then 0 else 1)
    && ByName(after)
  }

  /** The file steps and the result of a store that gets as far as its value file. */
  ghost predicate StoreTold(c: Cipher, d: Disk, value: seq<Byte>, w: World, steps: seq<Disk>, r: Result<Entry>,
                            e: Entry, bytes: seq<Byte>)
  {
    && DecryptValue(c, e, bytes) == Some(value)
    && steps != [] && steps[0] == Disk(d.entries, d.values[e.id := bytes])
    && if w.indexWrite then
         && r == Ok(e) && |steps| == 2
         && steps[1].values == steps[0].values && Indexed(d.entries, steps[1].entries, e)
       else
         && r == Err(Io)
         && if !Named(d.entries, e.name) && w.delete then
              steps == [steps[0], Disk(d.entries, steps[0].values - {e.id})]
            else |steps| == 1
  }

  lemma {:induction false} PositionNamed(entries: seq<Entry>, name: string)
    ensures Position(entries, name) < |entries| <==> Named(entries, name)
  {
    PositionAbsent(entries, name);
  }

  lemma {:induction false} TargetListed(d: Disk, name: string, w: World)
    ensures TargetEntry(d, name, w).Some? ==> ListedAs(d.entries, name, w, TargetEntry(d, name, w).value)
    ensures TargetEntry(d, name, w).None? ==>
      !Named(d.entries, name) && forall k: nat, id: string :: !FirstFree(d.entries, w.draws, k, id)
  {
    PositionNamed(d.entries, name);
    NewIdMeaning(d.entries, w.draws);
    var i := Position(d.entries, name);
    if i < |d.entries| {
      assert d.entries[i] in d.entries;
    }
    hide Position, NewId;
  }

  lemma {:induction false} ReplaceMember(entries: seq<Entry>, i: nat, e: Entry, x: Entry)
    requires Unique(entries) && i < |entries| && entries[i].name == e.name
    ensures x in entries[i := e] <==> x == e || (x in entries && x.name != e.name)
  {
    var listed := entries[i := e];
    assert listed[i] == e;
    if x in listed {
      var j :| 0 <= j < |listed| && listed[j] == x;
      assert j != i ==> entries[j] == x;
    }
    if x in entries && x.name != e.name {
      var j :| 0 <= j < |entries| && entries[j] == x;
      assert listed[j] == x;
    }
  }

  lemma {:induction false} ReplaceIndexed(entries: seq<Entry>, i: nat, e: Entry)
    requires Unique(entries) && i < |entries| && entries[i].name == e.name
    ensures Indexed(entries, SortByName(entries[i := e]), e)
  {
    var listed := entries[i := e];
    hide *;
    SortOrdered(listed);
    SortLength(listed);
    NamedAt(entries, i);
    forall x
      ensures x in SortByName(listed) <==> x == e || (x in entries && x.name != e.name)
    {
      SortMember(listed, x);
      ReplaceMember(entries, i, e, x);
    }
    IndexedHere(entries, SortByName(listed), e);
  }

  lemma {:induction false} NamedAt(entries: seq<Entry>, i: nat)
    requires i < |entries|
    ensures Named(entries, entries[i].name)
  {
    assert entries[i] in entries;
  }

  lemma {:induction false} IndexedHere(before: seq<Entry>, after: seq<Entry>, e: Entry)
    requires forall x :: x in after <==> x == e || (x in before && x.name != e.name)
    requires |after| == |before| + (if Named(before, e.name) then 0 else 1) && ByName(after)
    ensures Indexed(before, after, e)
  {
    hide ByName, Named;
  }

  lemma {:induction false} AddIndexed(entries: seq<Entry>, e: Entry)
    requires !Named(entries, e.name)
    ensures Indexed(entries, SortByName(entries + [e]), e)
  {
    var listed := entries + [e];
    SortOrdered(listed);
    SortLength(listed);
    hide ByName, SortByName;
    forall x
      ensures x in SortByName(listed) <==> x == e || (x in entries && x.name != e.name)
    {
      SortMember(listed, x);
    }
  }

  lemma {:induction false} FileOpens(c: Cipher, e: Entry, value: seq<Byte>, w: World)
    requires Correct(c) && Seals(c, e, value, w.nonce)
    ensures EncryptValue(c, e, value, w.nonce).Ok?
    ensures DecryptValue(c, e, EncryptValue(c, e, value, w.nonce).value) == Some(value)
  {
    EncryptedOpens(c, e, value, w.nonce.value);
  }

  lemma {:induction false} StoreIs(c: Cipher, d: Disk, entries: seq<Entry>, e: Entry, value: seq<Byte>, isNew: bool, w: World)
    requires EncryptValue(c, e, value, w.nonce).Ok? && w.valueWrite
    ensures var (steps, r) := StoreSteps(c, d, entries, e, value, isNew, w);
      var stored := Disk(d.entries, d.values[e.id := EncryptValue(c, e, value, w.nonce).value]);
      && steps != [] && steps[0] == stored
      && (w.indexWrite ==> r == Ok(e) && |steps| == 2 && steps[1] == Disk(SortByName(entries), stored.values))
      && (!w.indexWrite ==>
           && r == Err(Io)
           && steps == if isNew && w.delete then [stored, Disk(d.entries, stored.values - {e.id})] else [stored])
  {
    hide EncryptValue, SortByName;
  }

  lemma {:induction false} StoreTells(c: Cipher, d: Disk, entries: seq<Entry>, e: Entry, value: seq<Byte>, w: World)
    requires Correct(c) && Seals(c, e, value, w.nonce) && w.valueWrite
    requires Indexed(d.entries, SortByName(entries), e)
    ensures var (steps, r) := StoreSteps(c, d, entries, e, value, !Named(d.entries, e.name), w);
      exists bytes :: StoreTold(c, d, value, w, steps, r, e, bytes)
  {
    FileOpens(c, e, value, w);
    StoreIs(c, d, entries, e, value, !Named(d.entries, e.name), w);
    hide Correct, Seals, EncryptValue, DecryptValue, StoreSteps, SortByName, Named, Indexed;
    var (steps, r) := StoreSteps(c, d, entries, e, value, !Named(d.entries, e.name), w);
    assert StoreTold(c, d, value, w, steps, r, e, EncryptValue(c, e, value, w.nonce).value);
  }

  lemma {:induction false} PutIs(c: Cipher, d: Disk, name: string, value: seq<Byte>, w: World)
    requires WritesValue(c, d, name, value, w)
    ensures var e := TargetEntry(d, name, w).value;
      var i := Position(d.entries, name);
      PutSteps(c, d, name, value, w)
        == if i < |d.entries| then StoreSteps(c, d, d.entries[i := e], e, value, false, w)
           else StoreSteps(c, d, d.entries + [e], e, value, true, w)
  {
    hide StoreSteps, Readable, ValidName, Seals, NewId;
  }

  lemma {:induction false} ReadableUnique(entries: seq<Entry>)
    ensures Readable(entries) ==> Unique(entries)
  {
  }

  lemma {:induction false} WritesParts(c: Cipher, d: Disk, name: string, value: seq<Byte>, w: World)
    requires WritesValue(c, d, name, value, w)
    ensures TargetEntry(d, name, w).Some? && Seals(c, TargetEntry(d, name, w).value, value, w.nonce)
    ensures w.valueWrite && Unique(d.entries) && TargetEntry(d, name, w).value.name == name
  {
    hide Seals, ValidName;
  }

  /** A store writes the sealed value first, then the index, and takes the value back if it is new and unlisted. */
  lemma {:induction false} PutWrites(c: Cipher, d: Disk, name: string, value: seq<Byte>, w: World)
    requires Correct(c) && WritesValue(c, d, name, value, w)
    ensures var (steps, r) := PutSteps(c, d, name, value, w);
      exists e, bytes :: ListedAs(d.entries, name, w, e) && StoreTold(c, d, value, w, steps, r, e, bytes)
  {
    hide *;
    WritesParts(c, d, name, value, w);
    TargetListed(d, name, w);
    PositionNamed(d.entries, name);
    PutIs(c, d, name, value, w);
    var e := TargetEntry(d, name, w).value;
    var i := Position(d.entries, name);
    if i < |d.entries| {
      ReplaceIndexed(d.entries, i, e);
      StoreTells(c, d, d.entries[i := e], e, value, w);
    } else {
      AddIndexed(d.entries, e);
      StoreTells(c, d, d.entries + [e], e, value, w);
    }
  }

  /** A store that gets no further than its checks writes nothing and says why. */
  lemma {:induction false} PutRefused(c: Cipher, d: Disk, name: string, value: seq<Byte>, w: World)
    ensures var (steps, r) := PutSteps(c, d, name, value, w);
      var sound := ValidName(name) && |value| <= 1048576;
      var loaded := sound && w.directory && w.indexRead;
      var target := TargetEntry(d, name, w);
      && (steps == [] <==> !WritesValue(c, d, name, value, w)) && (steps == [] ==> r.Err?)
      && (r == Err(InvalidName) <==> !ValidName(name))
      && (r == Err(ValueTooLarge) <==> ValidName(name) && |value| > 1048576)
      && (r == Err(InvalidIndex) <==> loaded && !Readable(d.entries))
      && (r == Err(Random) <==> loaded && Readable(d.entries) && (target.None? || w.nonce.None?))
      && (r == Err(Encryption) <==>
           loaded && Readable(d.entries) && target.Some? && w.nonce.Some? && !Seals(c, target.value, value, w.nonce))
      && (r == Err(Io) <==>
           (sound && !loaded)
           || (loaded && Readable(d.entries) && target.Some? && Seals(c, target.value, value, w.nonce)
               && (!w.valueWrite || !w.indexWrite)))
  {
    PutOutcome(c, d, name, value, w);
    NewIdMeaning(d.entries, w.draws);
    hide Readable, ValidName, Position, NewId, AssociatedData, SortByName;
  }

  // ---------------------------------------------------------------------
  // Removing
  // ---------------------------------------------------------------------

  /** The index goes on without the entry; then its value file goes, if it can be deleted. */
  ghost predicate RemoveTold(d: Disk, name: string, w: World, steps: seq<Disk>, r: Result<Option<Entry>>, e: Entry) {
    && e in d.entries && e.name == name && r == Ok(Some(e)) && steps != []
    && steps[0].values == d.values
    && (forall x :: x in steps[0].entries <==> x in d.entries && x != e)
    && |steps[0].entries| == |d.entries| - 1 && ByName(steps[0].entries)
    && steps == if w.delete then [steps[0], Disk(steps[0].entries, d.values - {e.id})] else [steps[0]]
  }

  ghost predicate Removes(d: Disk, name: string, w: World) {
    && ValidName(name) && w.indexRead && Readable(d.entries) && Named(d.entries, name)
    && w.directory && w.indexWrite
  }

  lemma {:induction false} CutKeeps(entries: seq<Entry>, i: nat, j: nat)
    requires i < |entries| && j < |entries| && j != i
    ensures entries[j] in entries[..i] + entries[i + 1..]
  {
    if j < i {
      assert entries[j] in entries[..i];
    } else {
      assert entries[i + 1..][j - (i + 1)] == entries[j];
    }
  }

  lemma {:induction false} CutMember(entries: seq<Entry>, i: nat, x: Entry)
    requires Unique(entries) && i < |entries|
    ensures x in entries[..i] + entries[i + 1..] <==> x in entries && x != entries[i]
  {
    CutUnique(entries, i);
    hide Unique;
    if x in entries && x != entries[i] {
      var j :| 0 <= j < |entries| && entries[j] == x;
      CutKeeps(entries, i, j);
    }
  }

  lemma {:induction false} CutIndex(entries: seq<Entry>, i: nat)
    requires Unique(entries) && i < |entries|
    ensures var cut := SortByName(entries[..i] + entries[i + 1..]);
      && (forall x :: x in cut <==> x in entries && x != entries[i])
      && |cut| == |entries| - 1 && ByName(cut)
  {
    var shorter := entries[..i] + entries[i + 1..];
    SortOrdered(shorter);
    SortLength(shorter);
    hide ByName, SortByName, Unique;
    forall x
      ensures x in SortByName(shorter) <==> x in entries && x != entries[i]
    {
      SortMember(shorter, x);
      CutMember(entries, i, x);
    }
  }

  lemma {:induction false} RemoveIs(d: Disk, name: string, w: World)
    ensures var (steps, r) := RemoveSteps(d, name, w);
      var i := Position(d.entries, name);
      var there := i < |d.entries|;
      && (steps != [] <==> ValidName(name) && w.indexRead && Readable(d.entries) && there && w.directory && w.indexWrite)
      && (steps != [] ==>
           var e := d.entries[i];
           var cut := Disk(SortByName(d.entries[..i] + d.entries[i + 1..]), d.values);
           && r == Ok(Some(e))
           && steps == if w.delete then [cut, Disk(cut.entries, d.values - {e.id})] else [cut])
      && (r == Err(InvalidName) <==> !ValidName(name))
      && (r == Err(InvalidIndex) <==> ValidName(name) && w.indexRead && !Readable(d.entries))
      && (r == Ok(None) <==> ValidName(name) && w.indexRead && Readable(d.entries) && !there)
      && (r.Err? ==> r.error in {InvalidName, InvalidIndex, Io})
  {
    hide Readable, Position, SortByName, ValidName;
  }

  /** A removal takes the entry off the index first, then deletes its file; otherwise it does nothing and says why. */
  lemma {:induction false} RemoveTells(d: Disk, name: string, w: World)
    ensures var (steps, r) := RemoveSteps(d, name, w);
      && (Removes(d, name, w) ==> exists e :: RemoveTold(d, name, w, steps, r, e))
      && (!Removes(d, name, w) ==> steps == [])
      && (r == Err(InvalidName) <==> !ValidName(name))
      && (r == Err(InvalidIndex) <==> ValidName(name) && w.indexRead && !Readable(d.entries))
      && (r == Ok(None) <==> ValidName(name) && w.indexRead && Readable(d.entries) && !Named(d.entries, name))
      && (r.Err? ==> r.error in {InvalidName, InvalidIndex, Io})
  {
    PositionNamed(d.entries, name);
    RemoveIs(d, name, w);
    ReadableUnique(d.entries);
    hide Readable, Position, SortByName, ByName, ValidName, Unique, Named, RemoveSteps;
    if Removes(d, name, w) {
      var i := Position(d.entries, name);
      CutIndex(d.entries, i);
      var (steps, r) := RemoveSteps(d, name, w);
      RemovedSo(d, name, w, steps, r, i);
    }
  }

  lemma {:induction false} RemovedSo(d: Disk, name: string, w: World, steps: seq<Disk>, r: Result<Option<Entry>>, i: nat)
    requires i < |d.entries| && d.entries[i].name == name && steps != [] && r == Ok(Some(d.entries[i]))
    requires var cut := Disk(SortByName(d.entries[..i] + d.entries[i + 1..]), d.values);
      && steps == (if w.delete then [cut, Disk(cut.entries, d.values - {d.entries[i].id})] else [cut])
      && (forall x :: x in cut.entries <==> x in d.entries && x != d.entries[i])
      && |cut.entries| == |d.entries| - 1 && ByName(cut.entries)
    ensures RemoveTold(d, name, w, steps, r, d.entries[i])
  {
    hide SortByName, ByName;
    assert d.entries[i] in d.entries;
  }

  // ---------------------------------------------------------------------
  // Reading
  // ---------------------------------------------------------------------

  /** What reading the file of an entry comes to. */
  ghost predicate ReadTold(c: Cipher, d: Disk, w: World, r: Result<seq<Byte>>, e: Entry) {
    if e.algorithm != "XChaCha20-Poly1305" then r == Err(UnsupportedAlgorithm)
    else if !w.valueRead then r == Err(Io)
    else if e.id !in d.values then r == Err(MissingValue)
    else if |d.values[e.id]| > 1048576 + 48 then r == Err(TooLarge)
    else if r.Ok? then DecryptValue(c, e, d.values[e.id]) == Some(r.value)
    else DecryptValue(c, e, d.values[e.id]).None? && r == Err(Authentication)
  }

  /** Reading on any disk: the listed entry's file, opened under that entry, or the reason it is not. */
  lemma {:induction false} GetTells(c: Cipher, d: Disk, name: string, w: World)
    ensures var r := GetResult(c, d, name, w);
      && (r == Err(InvalidName) <==> !ValidName(name))
      && (ValidName(name) && !w.indexRead ==> r == Err(Io))
      && (r == Err(InvalidIndex) <==> ValidName(name) && w.indexRead && !Readable(d.entries))
      && (r == Err(NotFound) <==> ValidName(name) && w.indexRead && Readable(d.entries) && !Named(d.entries, name))
      && (ValidName(name) && w.indexRead && Readable(d.entries) && Named(d.entries, name) ==>
            exists e :: e in d.entries && e.name == name && ReadTold(c, d, w, r, e))
  {
    PositionNamed(d.entries, name);
    var i := Position(d.entries, name);
    if i < |d.entries| {
      assert d.entries[i] in d.entries;
    }
    hide Readable, Position, ValidName, DecryptValue, Named;
    if i < |d.entries| && ValidName(name) && w.indexRead && Readable(d.entries) {
      assert ReadTold(c, d, w, GetResult(c, d, name, w), d.entries[i]);
    }
  }

  // ---------------------------------------------------------------------
  // Files no entry names
  // ---------------------------------------------------------------------

  /** The value files are exactly those the index names. */
  ghost predicate Tidy(d: Disk) {
    forall id :: id in d.values <==> IdTaken(d.entries, id)
  }

  lemma {:induction false} TakenBy(entries: seq<Entry>, id: string)
    ensures IdTaken(entries, id) <==> exists e :: e in entries && e.id == id
  {
    if IdTaken(entries, id) {
      var i :| 0 <= i < |entries| && entries[i].id == id;
      assert entries[i] in entries;
    }
  }

  lemma {:induction false} IndexedIds(before: seq<Entry>, after: seq<Entry>, e: Entry, w: World, name: string, id: string)
    requires Indexed(before, after, e) && ListedAs(before, name, w, e) && Unique(before)
    ensures IdTaken(after, id) <==> IdTaken(before, id) || id == e.id
  {
    TakenBy(before, id);
    TakenBy(after, id);
    hide IdTaken, FirstFree, ByName;
    if x :| x in before && x.id == id {
      if x.name == e.name {
        var past :| past in before && past.name == name && e.id == past.id;
        SameName(before, x, past);
      } else {
        assert x in after;
      }
    }
    assert e in after;
  }

  lemma {:induction false} SameName(entries: seq<Entry>, x: Entry, y: Entry)
    requires Unique(entries) && x in entries && y in entries
    ensures x.name == y.name || x.id == y.id ==> x == y
  {
    var i :| 0 <= i < |entries| && entries[i] == x;
    var j :| 0 <= j < |entries| && entries[j] == y;
    assert i != j ==> x.name != y.name && x.id != y.id;
  }

  lemma {:induction false} OwnTaken(entries: seq<Entry>, name: string, w: World, e: Entry)
    requires ListedAs(entries, name, w, e)
    ensures IdTaken(entries, e.id) <==> Named(entries, name)
  {
    TakenBy(entries, e.id);
    hide IdTaken;
    if Named(entries, name) {
      var past :| past in entries && past.name == name && e.id == past.id;
      assert past in entries && past.id == e.id;
    } else {
      var k: nat :| FirstFree(entries, w.draws, k, e.id);
    }
  }

  lemma {:induction false} StoreTidy(c: Cipher, d: Disk, name: string, value: seq<Byte>, w: World, steps: seq<Disk>,
                                     r: Result<Entry>, e: Entry, bytes: seq<Byte>)
    requires Tidy(d) && Unique(d.entries) && ListedAs(d.entries, name, w, e)
    requires StoreTold(c, d, value, w, steps, r, e, bytes)
    ensures Tidy(Last(d, steps)) <==> w.indexWrite || Named(d.entries, name) || w.delete
  {
    OwnTaken(d.entries, name, w, e);
    ListedName(d.entries, name, w, e);
    var last := Last(d, steps);
    hide IdTaken, DecryptValue, Named, Unique, ListedAs;
    forall id
      ensures w.indexWrite ==> (IdTaken(last.entries, id) <==> IdTaken(d.entries, id) || id == e.id)
    {
      if w.indexWrite {
        IndexedIds(d.entries, last.entries, e, w, name, id);
      }
    }
    hide Indexed;
    assert e.id in d.values <==> Named(d.entries, name);
    if !w.indexWrite && !Named(d.entries, name) && !w.delete {
      assert e.id in last.values && !IdTaken(last.entries, e.id);
    }
  }

  lemma {:induction false} ListedName(entries: seq<Entry>, name: string, w: World, e: Entry)
    requires ListedAs(entries, name, w, e)
    ensures e.name == name
  {
  }

  /** A store leaves a file no entry names exactly when a new value can neither be listed nor taken back. */
  lemma {:induction false} PutTidy(c: Cipher, d: Disk, name: string, value: seq<Byte>, w: World)
    requires Correct(c) && Tidy(d) && Unique(d.entries)
    ensures Tidy(Last(d, PutSteps(c, d, name, value, w).0))
      <==> !(WritesValue(c, d, name, value, w) && !Named(d.entries, name) && !w.indexWrite && !w.delete)
  {
    hide *;
    PutOutcome(c, d, name, value, w);
    var (steps, r) := PutSteps(c, d, name, value, w);
    if WritesValue(c, d, name, value, w) {
      PutWrites(c, d, name, value, w);
      var e, bytes :| ListedAs(d.entries, name, w, e) && StoreTold(c, d, value, w, steps, r, e, bytes);
      StoreTidy(c, d, name, value, w, steps, r, e, bytes);
    } else {
      LastNone(d);
    }
  }

  lemma LastNone(d: Disk)
    ensures Last(d, []) == d
  {
  }

  /** A removal does exactly when the value file cannot be deleted. */
  lemma {:induction false} RemoveTidy(d: Disk, name: string, w: World)
    requires Tidy(d) && Unique(d.entries)
    ensures Tidy(Last(d, RemoveSteps(d, name, w).0)) <==> !(Removes(d, name, w) && !w.delete)
  {
    RemoveTells(d, name, w);
    var (steps, r) := RemoveSteps(d, name, w);
    hide RemoveSteps, Removes;
    if Removes(d, name, w) {
      var e :| RemoveTold(d, name, w, steps, r, e);
      RemovedTidy(d, name, w, steps, r, e);
    } else {
      LastNone(d);
    }
  }

  lemma {:induction false} RemovedTidy(d: Disk, name: string, w: World, steps: seq<Disk>, r: Result<Option<Entry>>, e: Entry)
    requires Tidy(d) && Unique(d.entries) && RemoveTold(d, name, w, steps, r, e)
    ensures Tidy(Last(d, steps)) <==> w.delete
  {
    var last := Last(d, steps);
    hide ByName;
    TakenBy(d.entries, e.id);
    forall id
      ensures IdTaken(last.entries, id) <==> IdTaken(d.entries, id) && id != e.id
    {
      TakenBy(d.entries, id);
      TakenBy(last.entries, id);
      hide IdTaken, Unique;
      if x :| x in d.entries && x.id == id {
        SameName(d.entries, x, e);
      }
    }
    hide IdTaken, Unique;
    assert e.id in d.values;
  }

  /** Operations that run to their end and can delete leave no such file, in any run from an empty vault. */
  lemma {:induction false} RunTidy(c: Cipher, calls: seq<Call>)
    requires Correct(c)
    requires forall i :: 0 <= i < |calls| ==> calls[i].stop.None? && calls[i].world.delete
    ensures Tidy(DiskAfter(c, calls))
  {
    if calls != [] {
      var init, call := calls[..|calls| - 1], calls[|calls| - 1];
      RunTidy(c, init);
      RunSafe(c, init);
      var d := DiskAfter(c, init);
      hide Correct, PutSteps, RemoveSteps, Tidy, Unique, WritesValue, Removes, Named;
      SafeUnique(c, d);
      match call.command {
        case Put(name, value) => PutTidy(c, d, name, value, call.world);
        case Remove(name) => RemoveTidy(d, name, call.world);
      }
    }
  }

  lemma SafeUnique(c: Cipher, d: Disk)
    ensures Safe(c, d) ==> Unique(d.entries)
  {
  }
}
