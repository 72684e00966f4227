/**
 The project vault: a plaintext index of entries and one encrypted file per
 entry, changed by atomic file writes and deletions any of which may fail, and
 after any of which the process may stop.

 Models crates/openbad-vault/src/lib.rs: put, get, remove and the two atomic writes they are made of, step
 by step. Encryption, random ids and the key store are parameters with the laws the code relies on.
 */
module Vault {
  import opened Wrappers

  datatype Entry = Entry(id: string, name: string, created: nat, updated: nat, algorithm: string)

  // What is on disk: the index file's entries, none if it is missing, and the
  // value files by id.
  datatype Disk = Disk(entries: seq<Entry>, values: map<string, seq<Byte>>)

  datatype Error =
    | InvalidName | ValueTooLarge | InvalidIndex | NotFound | UnsupportedAlgorithm
    | MissingValue | TooLarge | Encryption | Authentication | Random | Io

  datatype Result<T> = Ok(value: T) | Err(error: Error)

  const EMPTY := Disk([], map[])

  const ALGORITHM := "XChaCha20-Poly1305"
  const MAX_SECRET_BYTES := 1048576
  const MAX_INDEX_ENTRIES := 10000
  const MAX_NAME_BYTES := 128
  const MAGIC: seq<Byte> := [79, 66, 86, 65, 85, 76, 84, 49]
  const NONCE_LEN := 24
  const HEADER_LEN := 32
  const MAX_CIPHERTEXT_BYTES := HEADER_LEN + MAX_SECRET_BYTES + 16

  // ---------------------------------------------------------------------
  // The cipher, under the vault's key
  // ---------------------------------------------------------------------

  // Both take a nonce and associated data.
  datatype Cipher = Cipher(
    seal: (seq<Byte>, string, seq<Byte>) -> Option<seq<Byte>>,
    open: (seq<Byte>, string, seq<Byte>) -> Option<seq<Byte>>)

  type Nonce = s: seq<Byte> | |s| == NONCE_LEN witness seq(NONCE_LEN, _ => 0)

  // Sixteen random bytes.
  type Draw = s: seq<Byte> | |s| == 16 witness seq(16, _ => 0)

  /** Opening inverts sealing and the tag takes 16 bytes. */
  ghost predicate Correct(c: Cipher) {
    forall nonce, aad, plain :: c.seal(nonce, aad, plain).Some? ==>
      && c.open(nonce, aad, c.seal(nonce, aad, plain).value) == Some(plain)
      && |c.seal(nonce, aad, plain).value| == |plain| + 16
  }

  /** This sealed value does not open under that other associated data. */
  predicate Rejects(c: Cipher, nonce: Nonce, aad: string, plain: seq<Byte>, other: string) {
    c.seal(nonce, aad, plain).Some? && aad != other ==>
      c.open(nonce, other, c.seal(nonce, aad, plain).value).None?
  }

  const NUL := 0 as char

  function AssociatedData(e: Entry): string {
    "openbad-vault:v1" + [NUL] + e.id + [NUL] + e.name
  }

  function EncryptValue(c: Cipher, e: Entry, value: seq<Byte>, nonce: Option<Nonce>): Result<seq<Byte>> {
    if nonce.None? then Err(Random)
    else
      match c.seal(nonce.value, AssociatedData(e), value)
      case None => Err(Encryption)
      case Some(sealed) => Ok(MAGIC + nonce.value + sealed)
  }

  function DecryptValue(c: Cipher, e: Entry, bytes: seq<Byte>): Option<seq<Byte>> {
    if |bytes| < HEADER_LEN || bytes[..|MAGIC|] != MAGIC then None
    else c.open(bytes[|MAGIC|..HEADER_LEN], AssociatedData(e), bytes[HEADER_LEN..])
  }

  lemma EncryptedOpens(c: Cipher, e: Entry, value: seq<Byte>, nonce: Nonce)
    requires Correct(c) && EncryptValue(c, e, value, Some(nonce)).Ok?
    ensures var bytes := EncryptValue(c, e, value, Some(nonce)).value;
      && DecryptValue(c, e, bytes) == Some(value)
      && |bytes| == HEADER_LEN + |value| + 16
  {
    var sealed := c.seal(nonce, AssociatedData(e), value).value;
    var bytes := MAGIC + nonce + sealed;
    assert bytes[..|MAGIC|] == MAGIC;
    assert bytes[|MAGIC|..HEADER_LEN] == nonce;
    assert bytes[HEADER_LEN..] == sealed;
  }

  /** Associated data tells entries apart by id and name, whatever the name, for ids without a zero byte. */
  lemma AssociatedDataInjective(a: Entry, b: Entry)
    requires NUL !in a.id && NUL !in b.id
    ensures AssociatedData(a) == AssociatedData(b) <==> a.id == b.id && a.name == b.name
  {
    if AssociatedData(a) == AssociatedData(b) {
      var head := "openbad-vault:v1" + [NUL];
      assert AssociatedData(a)[|head|..] == a.id + [NUL] + a.name;
      assert AssociatedData(b)[|head|..] == b.id + [NUL] + b.name;
      SplitAtNul(a.id, a.name, b.id, b.name);
    }
  }

  lemma SplitAtNul(a: string, x: string, b: string, y: string)
    requires NUL !in a && NUL !in b && a + [NUL] + x == b + [NUL] + y
    ensures a == b && x == y
  {
    var s := a + [NUL] + x;
    if |a| < |b| {
      NulInside(a, x, b, y);
    } else if |b| < |a| {
      NulInside(b, y, a, x);
    }
    assert s[..|a|] == a && s[..|b|] == b;
    assert s[|a| + 1..] == x && s[|b| + 1..] == y;
  }

  lemma NulInside(a: string, x: string, b: string, y: string)
    requires a + [NUL] + x == b + [NUL] + y && |a| < |b|
    ensures NUL in b
  {
    assert (a + [NUL] + x)[|a|] == NUL;
    assert (b + [NUL] + y)[|a|] == b[|a|];
  }

  /** A value file moved to another entry does not open there. */
  lemma MovedFileRejected(c: Cipher, from: Entry, to: Entry, value: seq<Byte>, nonce: Nonce)
    requires EncryptValue(c, from, value, Some(nonce)).Ok?
    requires Rejects(c, nonce, AssociatedData(from), value, AssociatedData(to))
    requires NUL !in from.id && NUL !in to.id && (from.id != to.id || from.name != to.name)
    ensures DecryptValue(c, to, EncryptValue(c, from, value, Some(nonce)).value).None?
  {
    AssociatedDataInjective(from, to);
    var sealed := c.seal(nonce, AssociatedData(from), value).value;
    var bytes := MAGIC + nonce + sealed;
    assert bytes[|MAGIC|..HEADER_LEN] == nonce;
    assert bytes[HEADER_LEN..] == sealed;
  }

  // ---------------------------------------------------------------------
  // Names and ids
  // ---------------------------------------------------------------------

  predicate IsAlphanumeric(c: char) {
    'a' <= c <= 'z' || 'A' <= c <= 'Z' || '0' <= c <= '9'
  }

  predicate ValidName(name: string) {
    && 0 < |name| <= MAX_NAME_BYTES
    && IsAlphanumeric(name[0])
    && forall i :: 0 <= i < |name| ==> IsAlphanumeric(name[i]) || name[i] in "._-"
  }

  predicate IsHexDigit(c: char) {
    '0' <= c <= '9' || 'a' <= c <= 'f' || 'A' <= c <= 'F'
  }

  predicate ValidId(id: string) {
    |id| == 32 && forall i :: 0 <= i < |id| ==> IsHexDigit(id[i])
  }

  const HEX := "0123456789abcdef"

  function HexLower(bytes: seq<Byte>): (s: string)
    ensures |s| == 2 * |bytes|
    ensures forall i :: 0 <= i < |s| ==> IsHexDigit(s[i])
  {
    if bytes == [] then ""
    else
      HexDigits();
      [HEX[bytes[0] as int / 16], HEX[bytes[0] as int % 16]] + HexLower(bytes[1..])
  }

  lemma HexDigits()
    ensures forall i :: 0 <= i < 16 ==> IsHexDigit(HEX[i])
  {
  }

  predicate IdTaken(entries: seq<Entry>, id: string) {
    exists i :: 0 <= i < |entries| && entries[i].id == id
  }

  type Draws = nat -> Option<Draw>

  /** Up to eight tries for an id that is not taken; a failed draw ends the search. */
  function NewId(entries: seq<Entry>, random: Draws, attempt: nat): (id: Result<string>)
    requires attempt <= 8
    ensures id.Ok? ==> !IdTaken(entries, id.value) && ValidId(id.value)
    decreases 8 - attempt
  {
    if attempt == 8 || random(attempt).None? then Err(Random)
    else if IdTaken(entries, HexLower(random(attempt).value)) then NewId(entries, random, attempt + 1)
    else Ok(HexLower(random(attempt).value))
  }

  // ---------------------------------------------------------------------
  // The index
  // ---------------------------------------------------------------------

  /** No two entries share an id or a name. */
  ghost predicate Unique(entries: seq<Entry>) {
    forall i, j :: 0 <= i < j < |entries| ==> entries[i].id != entries[j].id && entries[i].name != entries[j].name
  }

  ghost predicate AllValid(entries: seq<Entry>) {
    forall i :: 0 <= i < |entries| ==>
      ValidId(entries[i].id) && ValidName(entries[i].name) && entries[i].algorithm != ""
  }

  /** What the index must be for any operation to accept it. */
  ghost predicate Readable(entries: seq<Entry>) {
    |entries| <= MAX_INDEX_ENTRIES && AllValid(entries) && Unique(entries)
  }

  function InsertByName(e: Entry, sorted: seq<Entry>): (r: seq<Entry>)
    ensures multiset(r) == multiset(sorted) + multiset{e}
  {
    if sorted == [] || !Less(sorted[0].name, e.name) then [e] + sorted
    else
      assert sorted == [sorted[0]] + sorted[1..];
      [sorted[0]] + InsertByName(e, sorted[1..])
  }

  /** The order the index is written in. */
  function SortByName(entries: seq<Entry>): (r: seq<Entry>)
    ensures multiset(r) == multiset(entries)
  {
    if entries == [] then []
    else
      assert entries == [entries[0]] + entries[1..];
      InsertByName(entries[0], SortByName(entries[1..]))
  }

  ghost predicate ByName(entries: seq<Entry>) {
    forall i, j :: 0 <= i < j < |entries| ==> !Less(entries[j].name, entries[i].name)
  }

  lemma {:induction false} InsertByNameOrdered(e: Entry, sorted: seq<Entry>)
    requires ByName(sorted)
    ensures ByName(InsertByName(e, sorted))
  {
    if sorted != [] {
      var head, rest := sorted[0], sorted[1..];
      assert sorted == [head] + rest;
      if Less(head.name, e.name) {
        InsertByNameOrdered(e, rest);
        forall x | x in InsertByName(e, rest)
          ensures !Less(x.name, head.name)
        {
          InsertMember(e, rest, x);
          LessAsymmetric(head.name, e.name);
        }
      } else {
        forall x | x in sorted
          ensures !Less(x.name, e.name)
        {
          LessIrreflexive(head.name);
          var j :| 0 <= j < |sorted| && sorted[j] == x;
          NotLessChain(x.name, head.name, e.name);
        }
      }
    }
  }

  lemma {:induction false} LessAsymmetric(a: string, b: string)
    requires Less(a, b)
    ensures !Less(b, a)
  {
    if Less(b, a) {
      LessTransitive(a, b, a);
      LessIrreflexive(a);
    }
  }

  lemma {:induction false} NotLessChain(a: string, b: string, c: string)
    requires !Less(a, b) && !Less(b, c)
    ensures !Less(a, c)
  {
    if Less(a, c) {
      LessTotal(a, b);
      LessTotal(b, c);
      if Less(b, a) {
        LessTransitive(b, a, c);
      }
    }
  }

  /** The written index lists names in order. */
  lemma {:induction false} SortOrdered(entries: seq<Entry>)
    ensures ByName(SortByName(entries))
  {
    if entries != [] {
      SortOrdered(entries[1..]);
      InsertByNameOrdered(entries[0], SortByName(entries[1..]));
    }
  }

  /** Index of the entry with this name, or the length. */
  function Position(entries: seq<Entry>, name: string): (i: nat)
    ensures i <= |entries|
    ensures i < |entries| ==> entries[i].name == name
    ensures forall j :: 0 <= j < i ==> entries[j].name != name
  {
    if entries == [] || entries[0].name == name then 0 else 1 + Position(entries[1..], name)
  }

  // ---------------------------------------------------------------------
  // Operations, file step by file step
  // ---------------------------------------------------------------------

  // What the world gives one operation: the clock, random bytes, and which of
  // the file operations succeed.
  datatype World = World(
    now: nat,
    draws: Draws,
    nonce: Option<Nonce>,
    directory: bool,
    indexRead: bool,
    valueRead: bool,
    valueWrite: bool,
    indexWrite: bool,
    delete: bool)

  function StoreSteps(c: Cipher, d: Disk, entries: seq<Entry>, e: Entry, value: seq<Byte>, isNew: bool, w: World)
    : (seq<Disk>, Result<Entry>)
  {
    match EncryptValue(c, e, value, w.nonce)
    case Err(error) => ([], Err(error))
    case Ok(bytes) =>
      if !w.valueWrite then ([], Err(Io))
      else
        var stored := d.(values := d.values[e.id := bytes]);
        if w.indexWrite then ([stored, stored.(entries := SortByName(entries))], Ok(e))
        else if isNew && w.delete then ([stored, stored.(values := stored.values - {e.id})], Err(Io))
        else ([stored], Err(Io))
  }

  ghost function PutSteps(c: Cipher, d: Disk, name: string, value: seq<Byte>, w: World)
    : (seq<Disk>, Result<Entry>)
  {
    if !ValidName(name) then ([], Err(InvalidName))
    else if |value| > MAX_SECRET_BYTES then ([], Err(ValueTooLarge))
    else if !w.directory || !w.indexRead then ([], Err(Io))
    else if !Readable(d.entries) then ([], Err(InvalidIndex))
    else
      var i := Position(d.entries, name);
      if i < |d.entries| then
        var e := d.entries[i].(updated := w.now, algorithm := ALGORITHM);
        StoreSteps(c, d, d.entries[i := e], e, value, false, w)
      else
        match NewId(d.entries, w.draws, 0)
        case Err(error) => ([], Err(error))
        case Ok(id) =>
          var e := Entry(id, name, w.now, w.now, ALGORITHM);
          StoreSteps(c, d, d.entries + [e], e, value, true, w)
  }

  ghost function RemoveSteps(d: Disk, name: string, w: World): (seq<Disk>, Result<Option<Entry>>) {
    if !ValidName(name) then ([], Err(InvalidName))
    else if !w.indexRead then ([], Err(Io))
    else if !Readable(d.entries) then ([], Err(InvalidIndex))
    else
      var i := Position(d.entries, name);
      if i == |d.entries| then ([], Ok(None))
      else if !w.directory || !w.indexWrite then ([], Err(Io))
      else
        var e := d.entries[i];
        var cut := d.(entries := SortByName(d.entries[..i] + d.entries[i + 1..]));
        if w.delete then ([cut, cut.(values := cut.values - {e.id})], Ok(Some(e)))
        else ([cut], Ok(Some(e)))
  }

  ghost function GetResult(c: Cipher, d: Disk, name: string, w: World): Result<seq<Byte>> {
    if !ValidName(name) then Err(InvalidName)
    else if !w.indexRead then Err(Io)
    else if !Readable(d.entries) then Err(InvalidIndex)
    else
      var i := Position(d.entries, name);
      if i == |d.entries| then Err(NotFound)
      else
        var e := d.entries[i];
        if e.algorithm != ALGORITHM then Err(UnsupportedAlgorithm)
        else if !w.valueRead then Err(Io)
        else if e.id !in d.values then Err(MissingValue)
        else if |d.values[e.id]| > MAX_CIPHERTEXT_BYTES then Err(TooLarge)
        else
          match DecryptValue(c, e, d.values[e.id])
          case None => Err(Authentication)
          case Some(plain) => Ok(plain)
  }

  // ---------------------------------------------------------------------
  // What is safe, and what a disk means
  // ---------------------------------------------------------------------

  ghost predicate Opens(c: Cipher, e: Entry, values: map<string, seq<Byte>>) {
    && ValidId(e.id) && ValidName(e.name) && e.algorithm == ALGORITHM
    && e.id in values
    && |values[e.id]| <= MAX_CIPHERTEXT_BYTES
    && DecryptValue(c, e, values[e.id]).Some?
  }

  /** Every indexed entry has a value file that opens under its own id and name; ids and names are unique. */
  ghost predicate Safe(c: Cipher, d: Disk) {
    Unique(d.entries) && forall e :: e in d.entries ==> Opens(c, e, d.values)
  }

  /** The secret a name stands for. */
  ghost function Secret(c: Cipher, d: Disk, name: string): Option<seq<Byte>> {
    var i := Position(d.entries, name);
    if i < |d.entries| && d.entries[i].id in d.values then
      DecryptValue(c, d.entries[i], d.values[d.entries[i].id])
    else None
  }

  /** The same secrets under every name but one. */
  ghost predicate SameBut(c: Cipher, a: Disk, b: Disk, name: string) {
    forall n: string :: n != name ==> Secret(c, b, n) == Secret(c, a, n)
  }

  ghost predicate SameSecrets(c: Cipher, a: Disk, b: Disk) {
    forall n: string :: Secret(c, b, n) == Secret(c, a, n)
  }

  // ---------------------------------------------------------------------
  // Positions
  // ---------------------------------------------------------------------

  lemma {:induction false} PositionAt(entries: seq<Entry>, i: nat)
    requires i < |entries| && Unique(entries)
    ensures Position(entries, entries[i].name) == i
  {
    var p := Position(entries, entries[i].name);
    assert entries[p].name == entries[i].name;
  }

  lemma {:induction false} PositionAbsent(entries: seq<Entry>, name: string)
    ensures Position(entries, name) == |entries| <==> forall e :: e in entries ==> e.name != name
  {
    if Position(entries, name) < |entries| {
      assert entries[Position(entries, name)] in entries;
    }
  }

  lemma SecretAt(c: Cipher, d: Disk, e: Entry)
    requires Unique(d.entries) && e in d.entries && e.id in d.values
    ensures Secret(c, d, e.name) == DecryptValue(c, e, d.values[e.id])
  {
    hide Unique, DecryptValue;
    var i :| 0 <= i < |d.entries| && d.entries[i] == e;
    PositionAt(d.entries, i);
  }

  lemma SecretAbsent(c: Cipher, d: Disk, name: string)
    requires forall e :: e in d.entries ==> e.name != name
    ensures Secret(c, d, name) == None
  {
    PositionAbsent(d.entries, name);
  }

  /** Secrets are those of the entries, in whatever order they are listed. */
  lemma ReorderedSecrets(c: Cipher, a: Disk, b: Disk)
    requires Safe(c, a) && Unique(b.entries) && a.values == b.values
    requires forall e :: e in b.entries <==> e in a.entries
    ensures Safe(c, b) && SameSecrets(c, a, b)
  {
    hide Unique, DecryptValue, Secret;
    forall n: string
      ensures Secret(c, b, n) == Secret(c, a, n)
    {
      if e :| e in a.entries && e.name == n {
        SecretAt(c, a, e);
        SecretAt(c, b, e);
      } else {
        SecretAbsent(c, a, n);
        SecretAbsent(c, b, n);
      }
    }
  }

  lemma {:induction false} InsertMember(e: Entry, sorted: seq<Entry>, x: Entry)
    ensures x in InsertByName(e, sorted) <==> x == e || x in sorted
  {
    assert x in multiset(InsertByName(e, sorted)) <==> x in multiset(sorted) + multiset{e};
  }

  lemma {:induction false} SortMember(entries: seq<Entry>, x: Entry)
    ensures x in SortByName(entries) <==> x in entries
  {
    assert x in multiset(SortByName(entries)) <==> x in multiset(entries);
  }

  ghost predicate Apart(e: Entry, x: Entry) {
    x.id != e.id && x.name != e.name
  }

  lemma UniqueCons(e: Entry, rest: seq<Entry>)
    ensures Unique([e] + rest) <==> Unique(rest) && forall x :: x in rest ==> Apart(e, x)
  {
    var all := [e] + rest;
    assert forall i :: 0 <= i < |rest| ==> all[i + 1] == rest[i];
    if Unique(all) {
      forall i, j | 0 <= i < j < |rest|
        ensures rest[i].id != rest[j].id && rest[i].name != rest[j].name
      {
        assert all[i + 1] == rest[i] && all[j + 1] == rest[j];
      }
      forall x | x in rest
        ensures Apart(e, x)
      {
        var i :| 0 <= i < |rest| && rest[i] == x;
        assert all[0] == e && all[i + 1] == x;
      }
    }
    if Unique(rest) && forall x :: x in rest ==> Apart(e, x) {
      forall i, j | 0 <= i < j < |all|
        ensures all[i].id != all[j].id && all[i].name != all[j].name
      {
        assert all[j] == rest[j - 1];
        if i == 0 {
          assert Apart(e, rest[j - 1]);
        } else {
          assert all[i] == rest[i - 1];
        }
      }
    }
  }

  lemma {:induction false} InsertUnique(e: Entry, sorted: seq<Entry>)
    requires Unique(sorted) && forall x :: x in sorted ==> Apart(e, x)
    ensures Unique(InsertByName(e, sorted))
  {
    hide Unique;
    UniqueCons(e, sorted);
    if sorted != [] && Less(sorted[0].name, e.name) {
      var head, rest := sorted[0], sorted[1..];
      assert sorted == [head] + rest;
      UniqueCons(head, rest);
      InsertUnique(e, rest);
      UniqueCons(head, InsertByName(e, rest));
      forall x | x in InsertByName(e, rest)
        ensures Apart(head, x)
      {
        InsertMember(e, rest, x);
        assert head in sorted;
      }
    }
  }

  lemma {:induction false} SortUnique(entries: seq<Entry>)
    requires Unique(entries)
    ensures Unique(SortByName(entries))
  {
    hide Unique;
    if entries == [] {
      NoneUnique();
    } else {
      var head, rest := entries[0], entries[1..];
      assert entries == [head] + rest;
      UniqueCons(head, rest);
      SortUnique(rest);
      forall x | x in SortByName(rest)
        ensures Apart(head, x)
      {
        SortMember(rest, x);
      }
      InsertUnique(head, SortByName(rest));
    }
  }

  lemma NoneUnique()
    ensures Unique([]) && SortByName([]) == []
  {
  }

  lemma SortedDisk(c: Cipher, d: Disk)
    requires Safe(c, d)
    ensures var sorted := d.(entries := SortByName(d.entries));
      Safe(c, sorted) && SameSecrets(c, d, sorted)
  {
    var sorted := d.(entries := SortByName(d.entries));
    SortUnique(d.entries);
    hide Safe, Unique, SameSecrets, SortByName;
    forall e
      ensures e in sorted.entries <==> e in d.entries
    {
      SortMember(d.entries, e);
    }
    ReorderedSecrets(c, d, sorted);
  }

  // ---------------------------------------------------------------------
  // Single steps
  // ---------------------------------------------------------------------

  /** A value file no entry names may be written or deleted freely. */
  lemma OtherFile(c: Cipher, d: Disk, values: map<string, seq<Byte>>, id: string)
    requires Safe(c, d) && !IdTaken(d.entries, id)
    requires forall k :: k != id ==> ((k in values <==> k in d.values) && (k in values ==> values[k] == d.values[k]))
    ensures Safe(c, d.(values := values)) && SameSecrets(c, d, d.(values := values))
  {
    hide DecryptValue;
    forall e | e in d.entries
      ensures e.id != id
    {
      var i :| 0 <= i < |d.entries| && d.entries[i] == e;
    }
    forall n: string
      ensures Secret(c, d.(values := values), n) == Secret(c, d, n)
    {
      var p := Position(d.entries, n);
      if p < |d.entries| {
        assert d.entries[p] in d.entries;
      }
    }
  }

  /** Overwriting an entry's own file changes that entry's secret alone. */
  lemma OwnFile(c: Cipher, d: Disk, i: nat, bytes: seq<Byte>, value: seq<Byte>)
    requires Safe(c, d) && i < |d.entries|
    requires DecryptValue(c, d.entries[i], bytes) == Some(value) && |bytes| <= MAX_CIPHERTEXT_BYTES
    ensures var e := d.entries[i];
      var stored := d.(values := d.values[e.id := bytes]);
      Safe(c, stored) && SameBut(c, d, stored, e.name) && Secret(c, stored, e.name) == Some(value)
  {
    hide DecryptValue;
    var e := d.entries[i];
    var stored := d.(values := d.values[e.id := bytes]);
    forall x | x in d.entries
      ensures x.id == e.id ==> x == e
      ensures x.name == e.name ==> x == e
    {
      var j :| 0 <= j < |d.entries| && d.entries[j] == x;
    }
    SecretAt(c, stored, e);
    forall n: string | n != e.name
      ensures Secret(c, stored, n) == Secret(c, d, n)
    {
      var p := Position(d.entries, n);
      if p < |d.entries| {
        assert d.entries[p] in d.entries;
      }
    }
  }

  lemma {:induction false} PositionSnoc(entries: seq<Entry>, e: Entry, n: string)
    ensures Position(entries + [e], n)
      == if Position(entries, n) < |entries| then Position(entries, n)
         else if e.name == n then |entries| else |entries| + 1
  {
    if entries != [] {
      assert (entries + [e])[1..] == entries[1..] + [e];
      PositionSnoc(entries[1..], e, n);
    } else {
      assert Position([], n) == 0;
      assert ([] + [e])[1..] == [];
    }
  }

  lemma UniqueSnoc(entries: seq<Entry>, e: Entry)
    requires Unique(entries) && forall x :: x in entries ==> Apart(e, x)
    ensures Unique(entries + [e])
  {
    var all := entries + [e];
    forall i, j | 0 <= i < j < |all|
      ensures all[i].id != all[j].id && all[i].name != all[j].name
    {
      assert all[i] == entries[i];
      if j < |entries| {
        assert all[j] == entries[j];
      } else {
        assert Apart(e, entries[i]);
      }
    }
  }

  /** Listing a stored value adds its secret. */
  lemma NewEntry(c: Cipher, d: Disk, e: Entry, value: seq<Byte>)
    requires Safe(c, d) && !IdTaken(d.entries, e.id) && Position(d.entries, e.name) == |d.entries|
    requires Opens(c, e, d.values) && DecryptValue(c, e, d.values[e.id]) == Some(value)
    ensures var listed := d.(entries := d.entries + [e]);
      Safe(c, listed) && SameBut(c, d, listed, e.name) && Secret(c, listed, e.name) == Some(value)
  {
    hide DecryptValue, Opens;
    var listed := d.(entries := d.entries + [e]);
    PositionAbsent(d.entries, e.name);
    forall x | x in d.entries
      ensures Apart(e, x)
    {
      var i :| 0 <= i < |d.entries| && d.entries[i] == x;
    }
    UniqueSnoc(d.entries, e);
    assert e.id in d.values by {
      OpensFile(c, e, d.values);
    }
    forall n: string
      ensures n != e.name ==> Secret(c, listed, n) == Secret(c, d, n)
    {
      PositionSnoc(d.entries, e, n);
    }
    PositionSnoc(d.entries, e, e.name);
  }

  lemma OpensFile(c: Cipher, e: Entry, values: map<string, seq<Byte>>)
    ensures Opens(c, e, values) ==> e.id in values
  {
  }

  lemma {:induction false} PositionSameNames(a: seq<Entry>, b: seq<Entry>, n: string)
    requires |a| == |b| && forall i :: 0 <= i < |a| ==> a[i].name == b[i].name
    ensures Position(a, n) == Position(b, n)
  {
    if a != [] {
      PositionSameNames(a[1..], b[1..], n);
    }
  }

  /** Refreshing an entry's times changes no secret. */
  lemma RetimedEntry(c: Cipher, d: Disk, i: nat, now: nat)
    requires Safe(c, d) && i < |d.entries|
    ensures var e := d.entries[i].(updated := now, algorithm := ALGORITHM);
      var retimed := d.(entries := d.entries[i := e]);
      Safe(c, retimed) && SameSecrets(c, d, retimed)
  {
    var past := d.entries[i];
    var e := past.(updated := now, algorithm := ALGORITHM);
    var retimed := d.(entries := d.entries[i := e]);
    assert past in d.entries && AssociatedData(e) == AssociatedData(past);
    assert forall bytes :: DecryptValue(c, e, bytes) == DecryptValue(c, past, bytes);
    hide DecryptValue, AssociatedData;
    assert Opens(c, e, d.values);
    forall x | x in retimed.entries
      ensures Opens(c, x, retimed.values)
    {
      var j :| 0 <= j < |retimed.entries| && retimed.entries[j] == x;
      assert j != i ==> d.entries[j] in d.entries;
    }
    forall n: string
      ensures Secret(c, retimed, n) == Secret(c, d, n)
    {
      PositionSameNames(d.entries, retimed.entries, n);
    }
  }

  /** Dropping an entry from the list drops its secret alone. */
  lemma DroppedEntry(c: Cipher, d: Disk, i: nat)
    requires Safe(c, d) && i < |d.entries|
    ensures var e := d.entries[i];
      var cut := d.(entries := d.entries[..i] + d.entries[i + 1..]);
      && Safe(c, cut) && !IdTaken(cut.entries, e.id)
      && SameBut(c, d, cut, e.name) && Secret(c, cut, e.name) == None
  {
    hide DecryptValue;
    var e := d.entries[i];
    var cut := d.(entries := d.entries[..i] + d.entries[i + 1..]);
    CutUnique(d.entries, i);
    hide Unique;
    SecretAbsent(c, cut, e.name);
    forall n: string | n != e.name
      ensures Secret(c, cut, n) == Secret(c, d, n)
    {
      if x :| x in d.entries && x.name == n {
        assert x in cut.entries;
        assert Opens(c, x, d.values);
        SecretAt(c, d, x);
        SecretAt(c, cut, x);
      } else {
        SecretAbsent(c, d, n);
        SecretAbsent(c, cut, n);
      }
    }
  }

  lemma CutUnique(entries: seq<Entry>, i: nat)
    requires i < |entries| && Unique(entries)
    ensures var cut := entries[..i] + entries[i + 1..];
      && Unique(cut)
      && (forall x :: x in cut ==> x in entries && Apart(entries[i], x))
      && (forall x :: x in entries && x.name != entries[i].name ==> x in cut)
      && !IdTaken(cut, entries[i].id)
  {
    var cut := entries[..i] + entries[i + 1..];
    assert forall j :: 0 <= j < |cut| ==> cut[j] == entries[if j < i then j else j + 1];
    forall x | x in entries && x.name != entries[i].name
      ensures x in cut
    {
      var j :| 0 <= j < |entries| && entries[j] == x;
      assert cut[if j < i then j else j - 1] == x;
    }
  }

  // ---------------------------------------------------------------------
  // Whole operations
  // ---------------------------------------------------------------------

  function Last(d: Disk, steps: seq<Disk>): Disk {
    if steps == [] then d else steps[|steps| - 1]
  }

  /** A visited disk: safe, no other name touched, and the name means what it did or `meant`. */
  ghost predicate Between(c: Cipher, d: Disk, name: string, meant: Option<seq<Byte>>, visited: Disk) {
    && Safe(c, visited)
    && SameBut(c, d, visited, name)
    && (Secret(c, visited, name) == Secret(c, d, name) || Secret(c, visited, name) == meant)
  }

  ghost predicate AllBetween(c: Cipher, d: Disk, name: string, meant: Option<seq<Byte>>, steps: seq<Disk>) {
    forall k :: 0 <= k < |steps| ==> Between(c, d, name, meant, steps[k])
  }

  lemma EncryptedFile(c: Cipher, e: Entry, value: seq<Byte>, w: World)
    requires Correct(c) && |value| <= MAX_SECRET_BYTES && EncryptValue(c, e, value, w.nonce).Ok?
    ensures var bytes := EncryptValue(c, e, value, w.nonce).value;
      DecryptValue(c, e, bytes) == Some(value) && |bytes| <= MAX_CIPHERTEXT_BYTES
  {
    EncryptedOpens(c, e, value, w.nonce.value);
  }

  lemma SameIsBetween(c: Cipher, d: Disk, name: string, meant: Option<seq<Byte>>, visited: Disk)
    ensures Safe(c, visited) && SameSecrets(c, d, visited) ==> Between(c, d, name, meant, visited)
  {
  }

  lemma ChangeIsBetween(c: Cipher, d: Disk, name: string, meant: Option<seq<Byte>>, visited: Disk)
    requires Safe(c, visited) && SameBut(c, d, visited, name) && Secret(c, visited, name) == meant
    ensures Between(c, d, name, meant, visited)
  {
  }

  lemma SecretsChain(c: Cipher, a: Disk, b: Disk, d: Disk, name: string)
    ensures SameSecrets(c, a, b) && SameSecrets(c, b, d) ==> SameSecrets(c, a, d)
    ensures SameBut(c, a, b, name) && SameSecrets(c, b, d) ==>
      SameBut(c, a, d, name) && Secret(c, d, name) == Secret(c, b, name)
    ensures SameSecrets(c, a, b) && SameBut(c, b, d, name) ==> SameBut(c, a, d, name)
  {
    hide Secret;
  }

  lemma {:induction false} SortLength(entries: seq<Entry>)
    ensures |SortByName(entries)| == |entries|
  {
    assert |multiset(SortByName(entries))| == |multiset(entries)|;
  }

  lemma ReplaceDisks(c: Cipher, d: Disk, i: nat, bytes: seq<Byte>, value: seq<Byte>, now: nat)
    requires Safe(c, d) && i < |d.entries|
    requires DecryptValue(c, d.entries[i], bytes) == Some(value) && |bytes| <= MAX_CIPHERTEXT_BYTES
    ensures var e := d.entries[i].(updated := now, algorithm := ALGORITHM);
      var stored := d.(values := d.values[e.id := bytes]);
      var indexed := stored.(entries := SortByName(d.entries[i := e]));
      && Safe(c, stored) && SameBut(c, d, stored, e.name) && Secret(c, stored, e.name) == Some(value)
      && Safe(c, indexed) && SameBut(c, d, indexed, e.name) && Secret(c, indexed, e.name) == Some(value)
  {
    hide Safe, SameBut, SameSecrets, Secret, DecryptValue, SortByName;
    var e := d.entries[i].(updated := now, algorithm := ALGORITHM);
    var stored := d.(values := d.values[e.id := bytes]);
    var retimed := stored.(entries := d.entries[i := e]);
    var indexed := stored.(entries := SortByName(d.entries[i := e]));
    assert retimed.(entries := SortByName(retimed.entries)) == indexed;
    OwnFile(c, d, i, bytes, value);
    RetimedEntry(c, stored, i, now);
    SortedDisk(c, retimed);
    SecretsChain(c, stored, retimed, indexed, e.name);
    SecretsChain(c, d, stored, indexed, e.name);
  }

  lemma SameNameOpens(c: Cipher, a: Entry, b: Entry, bytes: seq<Byte>)
    ensures a.id == b.id && a.name == b.name ==> DecryptValue(c, a, bytes) == DecryptValue(c, b, bytes)
  {
  }

  /** Replacing: the value changes with the first step; the index step only refreshes times. */
  lemma ReplaceAtomic(c: Cipher, d: Disk, i: nat, value: seq<Byte>, w: World)
    requires Correct(c) && Safe(c, d) && i < |d.entries| && |value| <= MAX_SECRET_BYTES
    ensures var e := d.entries[i].(updated := w.now, algorithm := ALGORITHM);
      var (steps, r) := StoreSteps(c, d, d.entries[i := e], e, value, false, w);
      && AllBetween(c, d, e.name, Some(value), steps)
      && (steps != [] ==> Secret(c, Last(d, steps), e.name) == Some(value))
      && (r.Ok? ==> steps != [])
      && |Last(d, steps).entries| == |d.entries|
  {
    hide Correct, Safe, SameBut, Secret, EncryptValue, DecryptValue, SortByName, Between;
    var e := d.entries[i].(updated := w.now, algorithm := ALGORITHM);
    if EncryptValue(c, e, value, w.nonce).Ok? && w.valueWrite {
      var bytes := EncryptValue(c, e, value, w.nonce).value;
      EncryptedFile(c, e, value, w);
      SameNameOpens(c, d.entries[i], e, bytes);
      ReplaceDisks(c, d, i, bytes, value, w.now);
      SortLength(d.entries[i := e]);
      var stored := d.(values := d.values[e.id := bytes]);
      ChangeIsBetween(c, d, e.name, Some(value), stored);
      ChangeIsBetween(c, d, e.name, Some(value), stored.(entries := SortByName(d.entries[i := e])));
    }
  }

  lemma AddDisks(c: Cipher, d: Disk, e: Entry, bytes: seq<Byte>, value: seq<Byte>)
    requires Safe(c, d) && !IdTaken(d.entries, e.id) && Position(d.entries, e.name) == |d.entries|
    requires ValidId(e.id) && ValidName(e.name) && e.algorithm == ALGORITHM
    requires DecryptValue(c, e, bytes) == Some(value) && |bytes| <= MAX_CIPHERTEXT_BYTES
    ensures var stored := d.(values := d.values[e.id := bytes]);
      var gone := stored.(values := stored.values - {e.id});
      var indexed := stored.(entries := SortByName(d.entries + [e]));
      && Safe(c, stored) && SameSecrets(c, d, stored)
      && Safe(c, gone) && SameSecrets(c, d, gone)
      && Safe(c, indexed) && SameBut(c, d, indexed, e.name) && Secret(c, indexed, e.name) == Some(value)
  {
    var stored := d.(values := d.values[e.id := bytes]);
    var gone := stored.(values := stored.values - {e.id});
    var listed := stored.(entries := d.entries + [e]);
    var indexed := stored.(entries := SortByName(d.entries + [e]));
    assert Opens(c, e, stored.values);
    hide Safe, SameBut, SameSecrets, Secret, DecryptValue, SortByName, Position, IdTaken, Opens;
    assert listed.(entries := SortByName(listed.entries)) == indexed;
    OtherFile(c, d, stored.values, e.id);
    OtherFile(c, stored, gone.values, e.id);
    SecretsChain(c, d, stored, gone, e.name);
    NewEntry(c, stored, e, value);
    SortedDisk(c, listed);
    SecretsChain(c, d, stored, listed, e.name);
    SecretsChain(c, d, listed, indexed, e.name);
  }

  /** Adding: the value file comes first, and the name appears with the index. */
  lemma AddAtomic(c: Cipher, d: Disk, e: Entry, value: seq<Byte>, w: World)
    requires Correct(c) && Safe(c, d) && |value| <= MAX_SECRET_BYTES
    requires ValidId(e.id) && ValidName(e.name) && e.algorithm == ALGORITHM
    requires !IdTaken(d.entries, e.id) && Position(d.entries, e.name) == |d.entries|
    ensures var (steps, r) := StoreSteps(c, d, d.entries + [e], e, value, true, w);
      && AllBetween(c, d, e.name, Some(value), steps)
      && (r.Ok? ==> steps != [] && Secret(c, Last(d, steps), e.name) == Some(value))
      && (r.Err? ==> SameSecrets(c, d, Last(d, steps)))
      && |Last(d, steps).entries| == |d.entries| + if r.Ok? then 1 else 0
  {
    hide Safe, Secret, EncryptValue, DecryptValue, SortByName, Position, IdTaken, Between;
    if EncryptValue(c, e, value, w.nonce).Ok? && w.valueWrite {
      var bytes := EncryptValue(c, e, value, w.nonce).value;
      EncryptedFile(c, e, value, w);
      AddDisks(c, d, e, bytes, value);
      SortLength(d.entries + [e]);
      hide SameBut, SameSecrets;
      var stored := d.(values := d.values[e.id := bytes]);
      SameIsBetween(c, d, e.name, Some(value), stored);
      SameIsBetween(c, d, e.name, Some(value), stored.(values := stored.values - {e.id}));
      ChangeIsBetween(c, d, e.name, Some(value), stored.(entries := SortByName(d.entries + [e])));
    }
  }

  /**
   Storing a secret, from any safe disk and whatever fails: every disk on the way
   is safe, leaves all other names alone and gives this name its old secret or the
   new one. Success ends with the new secret. A failure ends with the old one, but
   for one case: a value replaced whose index could not be written is already new.
   */
  lemma PutAtomic(c: Cipher, d: Disk, name: string, value: seq<Byte>, w: World)
    requires Correct(c) && Safe(c, d)
    ensures var (steps, r) := PutSteps(c, d, name, value, w);
      && AllBetween(c, d, name, Some(value), steps)
      && (r.Ok? ==> Secret(c, Last(d, steps), name) == Some(value))
      && (r.Err? ==>
           if steps != [] && Secret(c, d, name).Some? then Secret(c, Last(d, steps), name) == Some(value)
           else SameSecrets(c, d, Last(d, steps)))
  {
    hide Safe, StoreSteps, Secret;
    var i := Position(d.entries, name);
    if i < |d.entries| {
      SecretThere(c, d, i);
      if |value| <= MAX_SECRET_BYTES {
        ReplaceAtomic(c, d, i, value, w);
      }
    } else {
      SecretGone(c, d, name);
      var id := NewId(d.entries, w.draws, 0);
      if id.Ok? && ValidName(name) && |value| <= MAX_SECRET_BYTES {
        AddAtomic(c, d, Entry(id.value, name, w.now, w.now, ALGORITHM), value, w);
      }
    }
  }

  /** The entry whose value file a store writes: the name's own, or a new one under a free id. */
  function TargetEntry(d: Disk, name: string, w: World): Option<Entry> {
    var i := Position(d.entries, name);
    if i < |d.entries| then Some(d.entries[i].(updated := w.now, algorithm := ALGORITHM))
    else
      match NewId(d.entries, w.draws, 0)
      case Err(_) => None
      case Ok(id) => Some(Entry(id, name, w.now, w.now, ALGORITHM))
  }

  predicate Seals(c: Cipher, e: Entry, value: seq<Byte>, nonce: Option<Nonce>) {
    nonce.Some? && c.seal(nonce.value, AssociatedData(e), value).Some?
  }

  /** Everything a store needs to get as far as a written value file. */
  ghost predicate WritesValue(c: Cipher, d: Disk, name: string, value: seq<Byte>, w: World) {
    var e := TargetEntry(d, name, w);
    && ValidName(name) && |value| <= MAX_SECRET_BYTES
    && w.directory && w.indexRead && Readable(d.entries)
    && e.Some? && Seals(c, e.value, value, w.nonce) && w.valueWrite
  }

  /** How far a store gets is decided before it starts. */
  lemma PutOutcome(c: Cipher, d: Disk, name: string, value: seq<Byte>, w: World)
    ensures var (steps, r) := PutSteps(c, d, name, value, w);
      && (steps != [] <==> WritesValue(c, d, name, value, w))
      && (r.Ok? <==> WritesValue(c, d, name, value, w) && w.indexWrite)
  {
    hide Readable, ValidName, Position, NewId, AssociatedData, SortByName;
  }

  /**
   Exactly when storing is not atomic: the new value is on disk under a name that
   had another, and then the index cannot be written. Every other store either
   succeeds or leaves all secrets as they were.
   */
  lemma PutAtomicIff(c: Cipher, d: Disk, name: string, value: seq<Byte>, w: World)
    requires Correct(c) && Safe(c, d)
    ensures var (steps, r) := PutSteps(c, d, name, value, w);
      r.Ok? || SameSecrets(c, d, Last(d, steps))
      <==> !(WritesValue(c, d, name, value, w) && !w.indexWrite
             && Secret(c, d, name).Some? && Secret(c, d, name) != Some(value))
  {
    hide *;
    PutAtomic(c, d, name, value, w);
    PutOutcome(c, d, name, value, w);
    var (steps, r) := PutSteps(c, d, name, value, w);
    if steps != [] {
      AllBetweenLast(c, d, name, Some(value), steps);
      SameButSame(c, d, Last(d, steps), name);
    }
  }

  lemma AllBetweenLast(c: Cipher, d: Disk, name: string, meant: Option<seq<Byte>>, steps: seq<Disk>)
    requires steps != [] && AllBetween(c, d, name, meant, steps)
    ensures Between(c, d, name, meant, Last(d, steps)) && SameBut(c, d, Last(d, steps), name)
  {
    hide SameBut, Safe, Secret;
    assert Between(c, d, name, meant, steps[|steps| - 1]);
  }

  lemma SameButSame(c: Cipher, a: Disk, b: Disk, name: string)
    requires SameBut(c, a, b, name)
    ensures SameSecrets(c, a, b) <==> Secret(c, b, name) == Secret(c, a, name)
  {
    hide Secret;
  }

  // A cipher that hides nothing, two secrets and a directory whose index cannot be replaced.
  const PLAIN_TAG: seq<Byte> := seq(16, _ => 0)
  const PLAIN_CIPHER: Cipher := Cipher(
    (nonce, aad, plain) => Some(plain + PLAIN_TAG),
    (nonce, aad, sealed) => if |sealed| < 16 then None else Some(sealed[..|sealed| - 16]))

  function PlainWorld(indexWrite: bool): World {
    World(0, n => Some(PLAIN_TAG), Some(seq(NONCE_LEN, _ => 0)), true, true, true, true, indexWrite, true)
  }

  lemma PlainCorrect()
    ensures Correct(PLAIN_CIPHER)
  {
    forall nonce, aad, plain | PLAIN_CIPHER.seal(nonce, aad, plain).Some?
      ensures PLAIN_CIPHER.open(nonce, aad, PLAIN_CIPHER.seal(nonce, aad, plain).value) == Some(plain)
      ensures |PLAIN_CIPHER.seal(nonce, aad, plain).value| == |plain| + 16
    {
      assert (plain + PLAIN_TAG)[..|plain|] == plain;
    }
  }

  lemma PlainWrites(d: Disk, value: seq<Byte>, indexWrite: bool)
    requires Readable(d.entries) && |value| == 1 && (d == EMPTY || Position(d.entries, "a") < |d.entries|)
    ensures WritesValue(PLAIN_CIPHER, d, "a", value, PlainWorld(indexWrite))
  {
    hide Readable, HexLower;
    if d == EMPTY {
      assert NewId([], PlainWorld(indexWrite).draws, 0).Ok?;
    }
  }

  /** A replacement whose index write fails: it reports an error and the new value is in place. */
  lemma ReplacementSlips() returns (d: Disk)
    ensures Correct(PLAIN_CIPHER) && Safe(PLAIN_CIPHER, d)
    ensures Secret(PLAIN_CIPHER, d, "a") == Some([1])
    ensures var (steps, r) := PutSteps(PLAIN_CIPHER, d, "a", [2], PlainWorld(false));
      r.Err? && Secret(PLAIN_CIPHER, Last(d, steps), "a") == Some([2])
  {
    hide Safe, Correct, PutSteps, Secret, WritesValue, Readable, AllBetween;
    var c := PLAIN_CIPHER;
    PlainCorrect();
    EmptySafe(c);
    SafeReadable(c, EMPTY);
    PlainWrites(EMPTY, [1], true);
    PutOutcome(c, EMPTY, "a", [1], PlainWorld(true));
    PutAtomic(c, EMPTY, "a", [1], PlainWorld(true));
    PutCount(c, EMPTY, "a", [1], PlainWorld(true));
    var steps := PutSteps(c, EMPTY, "a", [1], PlainWorld(true)).0;
    d := Last(EMPTY, steps);
    AllBetweenLast(c, EMPTY, "a", Some([1]), steps);
    BetweenSafe(c, EMPTY, "a", Some([1]), d);
    SafeReadable(c, d);
    SecretGone(c, d, "a");
    PlainWrites(d, [2], false);
    PutOutcome(c, d, "a", [2], PlainWorld(false));
    PutAtomic(c, d, "a", [2], PlainWorld(false));
    var r := PutSteps(c, d, "a", [2], PlainWorld(false)).1;
    assert !r.Ok?;
  }

  lemma SecretThere(c: Cipher, d: Disk, i: nat)
    requires Safe(c, d) && i < |d.entries|
    ensures Secret(c, d, d.entries[i].name).Some?
  {
    assert d.entries[i] in d.entries;
    assert Opens(c, d.entries[i], d.values);
    PositionAt(d.entries, i);
  }

  lemma {:induction false} SecretGone(c: Cipher, d: Disk, name: string)
    ensures Position(d.entries, name) == |d.entries| ==> Secret(c, d, name) == None
  {
  }

  lemma RemoveDisks(c: Cipher, d: Disk, i: nat)
    requires Safe(c, d) && i < |d.entries|
    ensures var e := d.entries[i];
      var cut := d.(entries := SortByName(d.entries[..i] + d.entries[i + 1..]));
      var gone := cut.(values := cut.values - {e.id});
      && Safe(c, cut) && SameBut(c, d, cut, e.name) && Secret(c, cut, e.name) == None
      && Safe(c, gone) && SameBut(c, d, gone, e.name) && Secret(c, gone, e.name) == None
      && |cut.entries| == |d.entries| - 1
  {
    hide Safe, SameBut, SameSecrets, Secret, SortByName, IdTaken;
    var e := d.entries[i];
    var shorter := d.entries[..i] + d.entries[i + 1..];
    var dropped := d.(entries := shorter);
    var cut := d.(entries := SortByName(shorter));
    var gone := cut.(values := cut.values - {e.id});
    assert dropped.(entries := SortByName(dropped.entries)) == cut;
    DroppedEntry(c, d, i);
    SortedDisk(c, dropped);
    SecretsChain(c, d, dropped, cut, e.name);
    SortLength(shorter);
    SortTaken(shorter, e.id);
    OtherFile(c, cut, gone.values, e.id);
    SecretsChain(c, d, cut, gone, e.name);
  }

  /**
   Removing a secret, whatever fails: the index goes first, so the name means its
   old secret or nothing, and at success nothing.
   */
  lemma RemoveAtomic(c: Cipher, d: Disk, name: string, w: World)
    requires Safe(c, d)
    ensures var (steps, r) := RemoveSteps(d, name, w);
      && AllBetween(c, d, name, None, steps)
      && (r.Ok? ==> Secret(c, Last(d, steps), name) == None && (r.value.Some? <==> Secret(c, d, name).Some?))
      && (r.Err? ==> steps == [])
      && |Last(d, steps).entries| <= |d.entries|
  {
    hide Safe, SameBut, Secret, SortByName, Position, Readable, ValidName, Between, AllBetween;
    NoneBetween(c, d, name, None);
    var i := Position(d.entries, name);
    if i < |d.entries| {
      SecretThere(c, d, i);
      RemoveDisks(c, d, i);
      var cut := d.(entries := SortByName(d.entries[..i] + d.entries[i + 1..]));
      var gone := cut.(values := cut.values - {d.entries[i].id});
      ChangeIsBetween(c, d, name, None, cut);
      ChangeIsBetween(c, d, name, None, gone);
      BothBetween(c, d, name, None, cut, gone);
    } else {
      SecretGone(c, d, name);
    }
  }

  lemma NoneBetween(c: Cipher, d: Disk, name: string, meant: Option<seq<Byte>>)
    ensures AllBetween(c, d, name, meant, [])
  {
  }

  lemma BothBetween(c: Cipher, d: Disk, name: string, meant: Option<seq<Byte>>, a: Disk, b: Disk)
    requires Between(c, d, name, meant, a) && Between(c, d, name, meant, b)
    ensures AllBetween(c, d, name, meant, [a]) && AllBetween(c, d, name, meant, [a, b])
  {
    hide Between;
  }

  lemma {:induction false} SortTaken(entries: seq<Entry>, id: string)
    ensures IdTaken(SortByName(entries), id) ==> IdTaken(entries, id)
  {
    hide SortByName;
    var sorted := SortByName(entries);
    if IdTaken(sorted, id) {
      var i :| 0 <= i < |sorted| && sorted[i].id == id;
      SortMember(entries, sorted[i]);
      var j :| 0 <= j < |entries| && entries[j] == sorted[i];
    }
  }

  // ---------------------------------------------------------------------
  // Any run, stopped anywhere
  // ---------------------------------------------------------------------

  datatype Command = Put(name: string, value: seq<Byte>) | Remove(name: string)

  // One operation and its world; `stop` is how many of its file steps happen
  // before the process dies, if it does.
  datatype Call = Call(command: Command, world: World, stop: Option<nat>)

  ghost function FileSteps(c: Cipher, d: Disk, call: Call): seq<Disk> {
    var steps := match call.command
      case Put(name, value) => PutSteps(c, d, name, value, call.world).0
      case Remove(name) => RemoveSteps(d, name, call.world).0;
    if call.stop.Some? && call.stop.value < |steps| then steps[..call.stop.value] else steps
  }

  function Meant(command: Command): Option<seq<Byte>> {
    match command
    case Put(_, value) => Some(value)
    case Remove(_) => None
  }

  ghost function DiskAfter(c: Cipher, calls: seq<Call>): Disk {
    if calls == [] then EMPTY
    else
      var d := DiskAfter(c, calls[..|calls| - 1]);
      Last(d, FileSteps(c, d, calls[|calls| - 1]))
  }

  lemma StepsBetween(c: Cipher, d: Disk, call: Call)
    requires Correct(c) && Safe(c, d)
    ensures AllBetween(c, d, call.command.name, Meant(call.command), FileSteps(c, d, call))
    ensures Safe(c, Last(d, FileSteps(c, d, call)))
  {
    hide Correct, Safe, Between, PutSteps, RemoveSteps, SameSecrets, SameBut, Secret;
    match call.command {
      case Put(name, value) => PutAtomic(c, d, name, value, call.world);
      case Remove(name) => RemoveAtomic(c, d, name, call.world);
    }
    var steps := FileSteps(c, d, call);
    if steps != [] {
      BetweenSafe(c, d, call.command.name, Meant(call.command), steps[|steps| - 1]);
    }
  }

  lemma BetweenSafe(c: Cipher, d: Disk, name: string, meant: Option<seq<Byte>>, visited: Disk)
    ensures Between(c, d, name, meant, visited) ==> Safe(c, visited)
  {
  }

  lemma {:induction false} RunSafe(c: Cipher, calls: seq<Call>)
    requires Correct(c)
    ensures Safe(c, DiskAfter(c, calls))
  {
    hide Correct, FileSteps;
    if calls == [] {
      EmptySafe(c);
    } else {
      RunSafe(c, calls[..|calls| - 1]);
      StepsBetween(c, DiskAfter(c, calls[..|calls| - 1]), calls[|calls| - 1]);
    }
  }

  lemma EmptySafe(c: Cipher)
    ensures Safe(c, EMPTY)
  {
  }

  /**
   In any run of operations from an empty vault, with any failures and any
   crashes, after every single file step: each indexed entry opens under its own
   id and name, ids and names are unique, no name but the operation's own changed
   meaning, and that one means what it did before or what the operation stores.
   */
  lemma {:induction false} EveryStepSafe(c: Cipher, calls: seq<Call>, call: Call)
    requires Correct(c)
    ensures var d := DiskAfter(c, calls);
      AllBetween(c, d, call.command.name, Meant(call.command), FileSteps(c, d, call))
  {
    RunSafe(c, calls);
    StepsBetween(c, DiskAfter(c, calls), call);
  }

  // ---------------------------------------------------------------------
  // Reading, and the index that grew too long
  // ---------------------------------------------------------------------

  lemma SafeReadable(c: Cipher, d: Disk)
    requires Safe(c, d)
    ensures Readable(d.entries) <==> |d.entries| <= MAX_INDEX_ENTRIES
  {
    forall i | 0 <= i < |d.entries|
      ensures ValidId(d.entries[i].id) && ValidName(d.entries[i].name) && d.entries[i].algorithm != ""
    {
      assert Opens(c, d.entries[i], d.values);
    }
  }

  /** On a safe disk a read fails only for a file it cannot read, a name not there, or an index too long. */
  lemma GetMeaning(c: Cipher, d: Disk, name: string, w: World)
    requires Safe(c, d) && ValidName(name)
    ensures GetResult(c, d, name, w)
      == if !w.indexRead then Err(Io)
         else if |d.entries| > MAX_INDEX_ENTRIES then Err(InvalidIndex)
         else if Secret(c, d, name).None? then Err(NotFound)
         else if !w.valueRead then Err(Io)
         else Ok(Secret(c, d, name).value)
  {
    SafeReadable(c, d);
    var i := Position(d.entries, name);
    if i < |d.entries| {
      assert d.entries[i] in d.entries && Opens(c, d.entries[i], d.values);
    }
  }

  /**
   A store leaves a readable index readable, unless it added the entry after the
   ten-thousandth: the writer does not count what the reader will refuse.
   */
  lemma PutReadable(c: Cipher, d: Disk, name: string, value: seq<Byte>, w: World)
    requires Correct(c) && Safe(c, d) && Readable(d.entries)
    ensures Readable(Last(d, PutSteps(c, d, name, value, w).0).entries)
      <==> !(WritesValue(c, d, name, value, w) && w.indexWrite
             && Secret(c, d, name).None? && |d.entries| == MAX_INDEX_ENTRIES)
  {
    PutOutcome(c, d, name, value, w);
    hide WritesValue;
    PutCount(c, d, name, value, w);
    PutAtomic(c, d, name, value, w);
    hide PutSteps, Readable, Correct;
    var steps := PutSteps(c, d, name, value, w).0;
    if steps != [] {
      BetweenSafe(c, d, name, Some(value), steps[|steps| - 1]);
    }
    hide Safe, Between;
    SafeReadable(c, Last(d, steps));
    SafeReadable(c, d);
  }

  lemma PutCount(c: Cipher, d: Disk, name: string, value: seq<Byte>, w: World)
    requires Correct(c) && Safe(c, d)
    ensures var (steps, r) := PutSteps(c, d, name, value, w);
      |Last(d, steps).entries| == |d.entries| + if r.Ok? && Secret(c, d, name).None? then 1 else 0
  {
    hide Safe, StoreSteps, Secret, Correct, AllBetween, SameSecrets, Readable;
    var i := Position(d.entries, name);
    if i < |d.entries| {
      SecretThere(c, d, i);
      if |value| <= MAX_SECRET_BYTES {
        ReplaceAtomic(c, d, i, value, w);
      }
    } else {
      SecretGone(c, d, name);
      var id := NewId(d.entries, w.draws, 0);
      if id.Ok? && ValidName(name) && |value| <= MAX_SECRET_BYTES {
        AddAtomic(c, d, Entry(id.value, name, w.now, w.now, ALGORITHM), value, w);
      }
    }
  }

  /** And from then on nothing is stored, removed or read any more, whatever is tried. */
  lemma TooLongForever(c: Cipher, d: Disk, call: Call, name: string, w: World)
    requires |d.entries| > MAX_INDEX_ENTRIES
    ensures FileSteps(c, d, call) == []
    ensures GetResult(c, d, name, w).Err?
    ensures match call.command
      case Put(n, value) => PutSteps(c, d, n, value, call.world).1.Err?
      case Remove(n) => RemoveSteps(d, n, call.world).1.Err?
  {
  }

  // ---------------------------------------------------------------------
  // The vault
  // ---------------------------------------------------------------------

  class Vault {
    const cipher: Cipher
    var entries: seq<Entry>
    var values: map<string, seq<Byte>>

    function State(): Disk
      reads this
    {
      Disk(entries, values)
    }

    constructor (cipher: Cipher)
      ensures State() == EMPTY && this.cipher == cipher
    {
      this.cipher := cipher;
      entries, values := [], map[];
    }

    method ReadIndex() returns (ok: bool)
      ensures ok <==> Readable(entries)
    {
      if |entries| > MAX_INDEX_ENTRIES {
        return false;
      }
      var ids: set<string>, names: set<string> := {}, {};
      for i := 0 to |entries|
        invariant AllValid(entries[..i]) && Unique(entries[..i])
        invariant forall x :: x in ids <==> exists j :: 0 <= j < i && entries[j].id == x
        invariant forall x :: x in names <==> exists j :: 0 <= j < i && entries[j].name == x
      {
        var e := entries[i];
        if !ValidId(e.id) || !ValidName(e.name) || e.id in ids || e.name in names || e.algorithm == "" {
          return false;
        }
        ids, names := ids + {e.id}, names + {e.name};
      }
      assert entries[..|entries|] == entries;
      ok := true;
    }

    method Find(name: string) returns (i: nat)
      ensures i == Position(entries, name)
    {
      i := 0;
      while i < |entries| && entries[i].name != name
        invariant i <= |entries|
        invariant Position(entries, name) == i + Position(entries[i..], name)
      {
        assert entries[i..][1..] == entries[i + 1..];
        i := i + 1;
      }
    }

    method FreshId(draws: Draws) returns (id: Result<string>)
      ensures id == NewId(entries, draws, 0)
    {
      var attempt := 0;
      while attempt < 8
        invariant 0 <= attempt <= 8
        invariant NewId(entries, draws, attempt) == NewId(entries, draws, 0)
      {
        var bytes := draws(attempt);
        if bytes.None? {
          return Err(Random);
        }
        var candidate := HexLower(bytes.value);
        var taken := Taken(candidate);
        if !taken {
          return Ok(candidate);
        }
        attempt := attempt + 1;
      }
      return Err(Random);
    }

    method Taken(id: string) returns (taken: bool)
      ensures taken <==> IdTaken(entries, id)
    {
      taken := false;
      for i := 0 to |entries|
        invariant taken <==> exists j :: 0 <= j < i && entries[j].id == id
      {
        taken := taken || entries[i].id == id;
      }
    }

    method PutSecret(name: string, value: seq<Byte>, w: World) returns (r: Result<Entry>, ghost steps: seq<Disk>)
      modifies this
      ensures (steps, r) == PutSteps(cipher, old(State()), name, value, w)
      ensures State() == Last(old(State()), steps)
    {
      hide Readable, Position, SortByName, EncryptValue, NewId;
      steps := [];
      if !ValidName(name) {
        return Err(InvalidName), steps;
      }
      if |value| > MAX_SECRET_BYTES {
        return Err(ValueTooLarge), steps;
      }
      if !w.directory || !w.indexRead {
        return Err(Io), steps;
      }
      var readable := ReadIndex();
      if !readable {
        return Err(InvalidIndex), steps;
      }
      var index := Find(name);
      var listed := entries;
      var e: Entry;
      var isNew := index == |entries|;
      if isNew {
        var id := FreshId(w.draws);
        if id.Err? {
          return Err(id.error), steps;
        }
        e := Entry(id.value, name, w.now, w.now, ALGORITHM);
        listed := listed + [e];
      } else {
        e := listed[index].(updated := w.now, algorithm := ALGORITHM);
      }
      var encrypted := EncryptValue(cipher, e, value, w.nonce);
      if encrypted.Err? {
        return Err(encrypted.error), steps;
      }
      if !w.valueWrite {
        return Err(Io), steps;
      }
      values := values[e.id := encrypted.value];
      ghost var stored := State();
      steps := [stored];
      assert isNew ==> listed[index := e] == listed;
      listed := listed[index := e];
      if !w.indexWrite {
        if isNew && w.delete {
          values := values - {e.id};
          steps := [stored, State()];
        }
        return Err(Io), steps;
      }
      entries := SortByName(listed);
      steps := [stored, State()];
      return Ok(e), steps;
    }

    method GetSecret(name: string, w: World) returns (r: Result<seq<Byte>>)
      ensures r == GetResult(cipher, State(), name, w)
    {
      if !ValidName(name) {
        return Err(InvalidName);
      }
      if !w.indexRead {
        return Err(Io);
      }
      var readable := ReadIndex();
      if !readable {
        return Err(InvalidIndex);
      }
      var index := Find(name);
      if index == |entries| {
        return Err(NotFound);
      }
      var e := entries[index];
      if e.algorithm != ALGORITHM {
        return Err(UnsupportedAlgorithm);
      }
      if !w.valueRead {
        return Err(Io);
      }
      if e.id !in values {
        return Err(MissingValue);
      }
      if |values[e.id]| > MAX_CIPHERTEXT_BYTES {
        return Err(TooLarge);
      }
      var plain := DecryptValue(cipher, e, values[e.id]);
      if plain.None? {
        return Err(Authentication);
      }
      return Ok(plain.value);
    }

    method RemoveSecret(name: string, w: World) returns (r: Result<Option<Entry>>, ghost steps: seq<Disk>)
      modifies this
      ensures (steps, r) == RemoveSteps(old(State()), name, w)
      ensures State() == Last(old(State()), steps)
    {
      hide Readable, Position, SortByName, EncryptValue, NewId;
      steps := [];
      if !ValidName(name) {
        return Err(InvalidName), steps;
      }
      if !w.indexRead {
        return Err(Io), steps;
      }
      var readable := ReadIndex();
      if !readable {
        return Err(InvalidIndex), steps;
      }
      var index := Find(name);
      if index == |entries| {
        return Ok(None), steps;
      }
      if !w.directory {
        return Err(Io), steps;
      }
      var e := entries[index];
      var shorter := entries[..index] + entries[index + 1..];
      if !w.indexWrite {
        return Err(Io), steps;
      }
      entries := SortByName(shorter);
      ghost var cut := State();
      steps := [cut];
      if w.delete {
        values := values - {e.id};
        steps := [cut, State()];
      }
      return Ok(Some(e)), steps;
    }
  }
}
