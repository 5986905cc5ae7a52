/**
 * The tagged JSONB codec of `PgTransactionHistoryStorage`: bigint and Date leaves, at any depth,
 * become single-key tag objects, and are recognised again when read.
 *
 * `Date.prototype.toISOString` and `new Date(text)` are the parameters `iso` and `parse`; all that
 * is asked of them is that parsing an ISO text gives back the instant it was made from.
 */
module HistoryCodec {
  import opened Chunking

  // ----- decimal integers: BigInt.prototype.toString and CANONICAL_BIGINT_RE --------------------

  function DigitChar(d: nat): char
    requires d < 10
  {
    "0123456789"[d]
  }

  predicate IsDigit(c: char) { '0' <= c <= '9' }

  function DigitOf(c: char): nat
    requires IsDigit(c)
  {
    c as nat - '0' as nat
  }

  function Digits(n: nat): (text: string)
    ensures |text| > 0 && forall i :: 0 <= i < |text| ==> IsDigit(text[i])
  {
    if n < 10 then [DigitChar(n)] else Digits(n / 10) + [DigitChar(n % 10)]
  }

  function DigitsValue(text: string): nat
    requires forall i :: 0 <= i < |text| ==> IsDigit(text[i])
  {
    if text == [] then 0 else 10 * DigitsValue(text[..|text| - 1]) + DigitOf(text[|text| - 1])
  }

  /** 0|[1-9]\d* */
  predicate CanonicalNat(text: string) {
    && |text| > 0 && (forall i :: 0 <= i < |text| ==> IsDigit(text[i]))
    && (text[0] == '0' ==> |text| == 1)
  }

  /** ^-?(0|[1-9]\d*)$ */
  predicate CanonicalBigint(text: string) {
    CanonicalNat(text) || (|text| > 0 && text[0] == '-' && CanonicalNat(text[1..]))
  }

  function BigintText(i: int): string { if i < 0 then "-" + Digits(-i) else Digits(i) }

  function BigintValue(text: string): int
    requires CanonicalBigint(text)
  {
    if CanonicalNat(text) then DigitsValue(text) else 0 - DigitsValue(text[1..]) as int
  }

  lemma {:induction false} DigitsRead(n: nat)
    ensures CanonicalNat(Digits(n)) && DigitsValue(Digits(n)) == n
    ensures n > 0 ==> Digits(n)[0] != '0'
  {
    if n >= 10 {
      DigitsRead(n / 10);
      assert Digits(n)[..|Digits(n)| - 1] == Digits(n / 10);
    }
  }

  lemma {:induction false} DigitsWritten(text: string)
    requires CanonicalNat(text)
    ensures Digits(DigitsValue(text)) == text
    ensures text[0] != '0' ==> DigitsValue(text) > 0
  {
    var front, last := text[..|text| - 1], text[|text| - 1];
    if front != [] {
      assert front[0] == text[0];
      DigitsWritten(front);
      assert (10 * DigitsValue(front) + DigitOf(last)) / 10 == DigitsValue(front);
      assert text == front + [last];
    }
  }

  /** Reading inverts writing for every bigint, and writing inverts reading for every canonical
      literal except "-0", which the pattern admits. */
  lemma BigintRoundTrip(i: int)
    ensures CanonicalBigint(BigintText(i)) && BigintValue(BigintText(i)) == i
  {
    DigitsRead(if i < 0 then -i else i);
    if i < 0 { assert BigintText(i)[1..] == Digits(-i) && BigintText(i)[0] == '-'; }
  }

  lemma BigintRewrite(text: string)
    requires CanonicalBigint(text)
    ensures BigintText(BigintValue(text)) == if text == "-0" then "0" else text
  {
    if CanonicalNat(text) {
      DigitsWritten(text);
    } else {
      var digits := text[1..];
      DigitsWritten(digits);
      assert text == "-" + digits;
      if digits[0] == '0' { assert digits == "0" && text == "-0"; } else { assert text[1] != '0'; }
    }
  }

  // ----- values and stored JSON -----------------------------------------------------------------

  datatype Content =
    | Str(text: string) | Num(number: real) | Bool(flag: bool) | Null
    | Big(big: int) | Date(ms: int)
    | Arr(items: seq<Content>) | Obj(fields: map<string, Content>)

  datatype Json =
    | JStr(text: string) | JNum(number: real) | JBool(flag: bool) | JNull
    | JArr(items: seq<Json>) | JObj(fields: map<string, Json>)

  const PREFIX := "__umbradb_ths_"
  const BIGINT_TAG := "__umbradb_ths_bigint"
  const DATE_TAG := "__umbradb_ths_date"

  type Iso = int -> string
  type Parse = string -> Option<int>

  /** The range of `Date`: 8.64e15 milliseconds either side of the epoch. */
  predicate ValidDate(ms: int) { -8_640_000_000_000_000 <= ms <= 8_640_000_000_000_000 }

  ghost predicate DatesParse(iso: Iso, parse: Parse) {
    forall ms :: ValidDate(ms) ==> parse(iso(ms)) == Some(ms)
  }

  predicate Reserved(key: string) { PREFIX <= key }

  lemma TagsAreReserved()
    ensures Reserved(BIGINT_TAG) && Reserved(DATE_TAG) && BIGINT_TAG != DATE_TAG
  {
    assert BIGINT_TAG[..|PREFIX|] == PREFIX && DATE_TAG[..|PREFIX|] == PREFIX;
    assert BIGINT_TAG[|PREFIX|] != DATE_TAG[|PREFIX|];
  }

  /** EntryContentSchema: no object key at any depth starts with the reserved prefix. */
  predicate Valid(c: Content) {
    match c
    case Date(ms) => ValidDate(ms)
    case Arr(items) => forall i :: 0 <= i < |items| ==> Valid(items[i])
    case Obj(fields) => forall k :: k in fields ==> !Reserved(k) && Valid(fields[k])
    case _ => true
  }

  function Encode(iso: Iso, c: Content): Json {
    match c
    case Str(t) => JStr(t)
    case Num(n) => JNum(n)
    case Bool(b) => JBool(b)
    case Null => JNull
    case Big(i) => JObj(map[BIGINT_TAG := JStr(BigintText(i))])
    case Date(ms) => JObj(map[DATE_TAG := JStr(iso(ms))])
    case Arr(items) => JArr(seq(|items|, i requires 0 <= i < |items| => Encode(iso, items[i])))
    case Obj(fields) => JObj(map k | k in fields :: Encode(iso, fields[k]))
  }

  /** isTagObject: exactly this one key, holding a string. */
  predicate IsTag(j: Json, tag: string) {
    j.JObj? && j.fields.Keys == {tag} && j.fields[tag].JStr?
  }

  function ParseStoredDate(iso: Iso, parse: Parse, text: string): Option<Content> {
    match parse(text)
    case Some(ms) => if ValidDate(ms) && iso(ms) == text then Some(Date(ms)) else None
    case None => None
  }

  /** decodeContent; None is the thrown SerializationFailedError. */
  function Decode(iso: Iso, parse: Parse, j: Json): Option<Content> {
    match j
    case JStr(t) => Some(Str(t))
    case JNum(n) => Some(Num(n))
    case JBool(b) => Some(Bool(b))
    case JNull => Some(Null)
    case JArr(items) =>
      if forall i :: 0 <= i < |items| ==> Decode(iso, parse, items[i]).Some?
      then Some(Arr(seq(|items|, i requires 0 <= i < |items| => Decode(iso, parse, items[i]).value)))
      else None
    case JObj(fields) =>
      if IsTag(j, BIGINT_TAG) then
        if CanonicalBigint(fields[BIGINT_TAG].text) then Some(Big(BigintValue(fields[BIGINT_TAG].text))) else None
      else if IsTag(j, DATE_TAG) then ParseStoredDate(iso, parse, fields[DATE_TAG].text)
      else if forall k :: k in fields ==> Decode(iso, parse, fields[k]).Some?
      then Some(Obj(map k | k in fields :: Decode(iso, parse, fields[k]).value))
      else None
  }

  /** The tags and the reserved prefix as they are stored. */
  lemma TaggedForms(iso: Iso, i: int, ms: int)
    ensures Encode(iso, Big(i)) == JObj(map["__umbradb_ths_bigint" := JStr(BigintText(i))])
    ensures Encode(iso, Date(ms)) == JObj(map["__umbradb_ths_date" := JStr(iso(ms))])
    ensures forall key :: Reserved(key) <==> "__umbradb_ths_" <= key
    ensures BigintText(-120) == "-120"
  {
    assert Digits(12) == "12" && Digits(120) == "120";
  }

  // ----- decoding inverts encoding --------------------------------------------------------------

  lemma EncodedObjectIsNoTag(iso: Iso, fields: map<string, Content>, tag: string)
    requires Reserved(tag) && forall k :: k in fields ==> !Reserved(k)
    ensures !IsTag(Encode(iso, Obj(fields)), tag)
  {
    assert tag !in Encode(iso, Obj(fields)).fields;
  }

  lemma {:induction false} DecodeInvertsEncode(iso: Iso, parse: Parse, c: Content)
    requires DatesParse(iso, parse) && Valid(c)
    ensures Decode(iso, parse, Encode(iso, c)) == Some(c)
  {
    TagsAreReserved();
    match c
    case Big(i) => BigintRoundTrip(i);
    case Date(ms) =>
    case Arr(items) =>
      var j := Encode(iso, c);
      forall i | 0 <= i < |items| ensures Decode(iso, parse, j.items[i]) == Some(items[i]) {
        DecodeInvertsEncode(iso, parse, items[i]);
      }
      assert Decode(iso, parse, j).value.items == items;
    case Obj(fields) =>
      var j := Encode(iso, c);
      EncodedObjectIsNoTag(iso, fields, BIGINT_TAG);
      EncodedObjectIsNoTag(iso, fields, DATE_TAG);
      forall k | k in fields ensures Decode(iso, parse, j.fields[k]) == Some(fields[k]) {
        DecodeInvertsEncode(iso, parse, fields[k]);
      }
      assert Decode(iso, parse, j).value.fields == fields;
    case _ =>
  }

  // ----- what the reader accepts re-encodes to itself --------------------------------------------

  /** The stored form with every "-0" tag written as "0". */
  function Canonical(j: Json): Json {
    match j
    case JArr(items) => JArr(seq(|items|, i requires 0 <= i < |items| => Canonical(items[i])))
    case JObj(fields) =>
      if IsTag(j, BIGINT_TAG) && fields[BIGINT_TAG].text == "-0" then JObj(map[BIGINT_TAG := JStr("0")])
      else if IsTag(j, BIGINT_TAG) || IsTag(j, DATE_TAG) then j
      else JObj(map k | k in fields :: Canonical(fields[k]))
    case _ => j
  }

  /** Somewhere in the stored form a bigint tag holds "-0". */
  predicate HasNegativeZero(j: Json) {
    match j
    case JArr(items) => exists i :: 0 <= i < |items| && HasNegativeZero(items[i])
    case JObj(fields) =>
      if IsTag(j, BIGINT_TAG) then fields[BIGINT_TAG].text == "-0"
      else !IsTag(j, DATE_TAG) && exists k :: k in fields && HasNegativeZero(fields[k])
    case _ => false
  }

  lemma {:induction false} CanonicalIff(j: Json)
    ensures Canonical(j) == j <==> !HasNegativeZero(j)
  {
    match j
    case JArr(items) =>
      forall i | 0 <= i < |items| ensures Canonical(items[i]) == items[i] <==> !HasNegativeZero(items[i]) { CanonicalIff(items[i]); }
      if !HasNegativeZero(j) {
        assert Canonical(j).items == items;
      } else {
        var i :| 0 <= i < |items| && HasNegativeZero(items[i]);
        assert Canonical(j).items[i] != items[i];
      }
    case JObj(fields) =>
      if IsTag(j, BIGINT_TAG) {
        if fields[BIGINT_TAG].text == "-0" { assert Canonical(j).fields[BIGINT_TAG] != fields[BIGINT_TAG]; }
      } else if !IsTag(j, DATE_TAG) {
        forall k | k in fields ensures Canonical(fields[k]) == fields[k] <==> !HasNegativeZero(fields[k]) { CanonicalIff(fields[k]); }
        if !HasNegativeZero(j) {
          assert Canonical(j).fields == fields;
        } else {
          var k :| k in fields && HasNegativeZero(fields[k]);
          assert Canonical(j).fields[k] != fields[k];
        }
      }
    case _ =>
  }

  lemma {:induction false} EncodeAfterDecode(iso: Iso, parse: Parse, j: Json, c: Content)
    requires Decode(iso, parse, j) == Some(c) && Valid(c)
    ensures Encode(iso, c) == Canonical(j)
  {
    match j
    case JArr(items) =>
      forall i | 0 <= i < |items| ensures Encode(iso, c.items[i]) == Canonical(items[i]) {
        EncodeAfterDecode(iso, parse, items[i], c.items[i]);
      }
      assert Encode(iso, c).items == Canonical(j).items;
    case JObj(fields) =>
      if IsTag(j, BIGINT_TAG) {
        BigintRewrite(fields[BIGINT_TAG].text);
        assert fields == map[BIGINT_TAG := JStr(fields[BIGINT_TAG].text)];
      } else if IsTag(j, DATE_TAG) {
        assert fields == map[DATE_TAG := JStr(fields[DATE_TAG].text)];
      } else {
        forall k | k in fields ensures Encode(iso, c.fields[k]) == Canonical(fields[k]) {
          EncodeAfterDecode(iso, parse, fields[k], c.fields[k]);
        }
        assert Encode(iso, c).fields == Canonical(j).fields;
      }
    case _ =>
  }

  /** A stored form the reader accepts re-encodes to itself exactly when no bigint tag in it is the
      literal "-0" (which reads as zero, and zero is written "0"). */
  lemma StoredFormsAreCanonical(iso: Iso, parse: Parse, j: Json, c: Content)
    requires Decode(iso, parse, j) == Some(c) && Valid(c)
    ensures Encode(iso, c) == j <==> !HasNegativeZero(j)
  {
    EncodeAfterDecode(iso, parse, j, c);
    CanonicalIff(j);
  }

  /** So two different values never share a stored form. */
  lemma EncodingIsInjective(iso: Iso, parse: Parse, a: Content, b: Content)
    requires DatesParse(iso, parse) && Valid(a) && Valid(b) && Encode(iso, a) == Encode(iso, b)
    ensures a == b
  {
    DecodeInvertsEncode(iso, parse, a);
    DecodeInvertsEncode(iso, parse, b);
  }

  // ----- whole entries --------------------------------------------------------------------------

  datatype Lifecycle = Pending | Finalized | Rejected

  /** `fees` is undefined, null or a bigint; the other optional fields are undefined or present. */
  datatype Entry = Entry(hash: string, identifiers: seq<string>, protocolVersion: Option<nat>, status: Option<string>,
                         timestamp: Option<int>, fees: Option<Option<int>>, lifecycle: Lifecycle,
                         sections: map<string, Content>)

  /** The stored lifecycle object: its status, and whatever other keys it has. */
  datatype StoredLifecycle = StoredLifecycle(status: Lifecycle, extra: map<string, Json>)

  /** The `entry` column as the reader can find it. It reads neither `hash` nor `identifiers` from here,
      which may therefore be anything, and passes over `extra`, the keys it does not know. */
  datatype StoredEntry = StoredEntry(hash: Option<Json>, identifiers: Option<Json>, protocolVersion: Option<nat>, status: Option<string>,
                                     timestamp: Option<string>, fees: Option<Option<string>>, lifecycle: StoredLifecycle,
                                     sections: map<string, Json>, extra: map<string, Json>)

  function Strings(texts: seq<string>): Json { JArr(seq(|texts|, i requires 0 <= i < |texts| => JStr(texts[i]))) }

  predicate ValidEntry(e: Entry) {
    && (e.timestamp.Some? ==> ValidDate(e.timestamp.value))
    && forall k :: k in e.sections ==> !Reserved(k) && Valid(e.sections[k])
  }

  function EncodeEntry(iso: Iso, e: Entry): StoredEntry {
    StoredEntry(Some(JStr(e.hash)), Some(Strings(e.identifiers)), e.protocolVersion, e.status,
      match e.timestamp case Some(ms) => Some(iso(ms)) case None => None,
      match e.fees case Some(Some(i)) => Some(Some(BigintText(i))) case Some(None) => Some(None) case None => None,
      StoredLifecycle(e.lifecycle, map[]), EncodeSections(iso, e.sections), map[])
  }

  function EncodeSections(iso: Iso, sections: map<string, Content>): map<string, Json> {
    map k | k in sections :: Encode(iso, sections[k])
  }

  /** decodeRow: hash and identifiers come from their own columns, and unknown keys are dropped; None
      is a thrown error. */
  function DecodeRow(iso: Iso, parse: Parse, txHash: string, identifiers: seq<string>, s: StoredEntry): Option<Entry> {
    if (s.timestamp.Some? && ParseStoredDate(iso, parse, s.timestamp.value).None?)
       || (s.fees.Some? && s.fees.value.Some? && !CanonicalBigint(s.fees.value.value))
       || DecodeSections(iso, parse, s.sections).None? then None
    else
      var e := Entry(txHash, identifiers, s.protocolVersion, s.status,
        match s.timestamp case Some(t) => Some(parse(t).value) case None => None,
        match s.fees case Some(Some(t)) => Some(Some(BigintValue(t))) case Some(None) => Some(None) case None => None,
        s.lifecycle.status, DecodeSections(iso, parse, s.sections).value);
      if ValidEntry(e) then Some(e) else None
  }

  function DecodeSections(iso: Iso, parse: Parse, sections: map<string, Json>): Option<map<string, Content>> {
    if exists k :: k in sections && Decode(iso, parse, sections[k]).None? then None
    else Some(map k | k in sections :: Decode(iso, parse, sections[k]).value)
  }

  lemma SectionsRoundTrip(iso: Iso, parse: Parse, sections: map<string, Content>)
    requires DatesParse(iso, parse) && forall k :: k in sections ==> Valid(sections[k])
    ensures DecodeSections(iso, parse, EncodeSections(iso, sections)) == Some(sections)
  {
    var s := EncodeSections(iso, sections);
    forall k | k in sections ensures Decode(iso, parse, s[k]) == Some(sections[k]) {
      DecodeInvertsEncode(iso, parse, sections[k]);
    }
    assert DecodeSections(iso, parse, s).value == sections;
  }

  /** What `writeRows` persists is what `get` and `getAll` return. */
  lemma EntryRoundTrip(iso: Iso, parse: Parse, e: Entry)
    requires DatesParse(iso, parse) && ValidEntry(e)
    ensures DecodeRow(iso, parse, e.hash, e.identifiers, EncodeEntry(iso, e)) == Some(e)
  {
    SectionsRoundTrip(iso, parse, e.sections);
    if e.fees.Some? && e.fees.value.Some? { BigintRoundTrip(e.fees.value.value); }
  }

  lemma SectionsReencode(iso: Iso, parse: Parse, stored: map<string, Json>, read: map<string, Content>)
    requires DecodeSections(iso, parse, stored) == Some(read) && forall k :: k in read ==> Valid(read[k])
    ensures EncodeSections(iso, read) == stored <==> forall k :: k in stored ==> !HasNegativeZero(stored[k])
  {
    var again := EncodeSections(iso, read);
    assert again.Keys == stored.Keys;
    forall k | k in stored ensures again[k] == stored[k] <==> !HasNegativeZero(stored[k]) {
      StoredFormsAreCanonical(iso, parse, stored[k], read[k]);
    }
    if forall k :: k in stored ==> !HasNegativeZero(stored[k]) {
      assert again == stored;
    }
  }

  /** A whole stored row that the reader accepts re-encodes to itself exactly when its embedded hash
      and identifiers are those of its columns, neither it nor its lifecycle has an unknown key, and
      neither its fees nor a bigint tag is "-0". */
  lemma StoredRowsAreCanonical(iso: Iso, parse: Parse, txHash: string, identifiers: seq<string>, s: StoredEntry, e: Entry)
    requires DecodeRow(iso, parse, txHash, identifiers, s) == Some(e)
    ensures EncodeEntry(iso, e) == s <==>
      && s.hash == Some(JStr(txHash)) && s.identifiers == Some(Strings(identifiers)) && s.fees != Some(Some("-0"))
      && s.extra == map[] && s.lifecycle.extra == map[]
      && forall k :: k in s.sections ==> !HasNegativeZero(s.sections[k])
  {
    SectionsReencode(iso, parse, s.sections, e.sections);
    if s.fees.Some? && s.fees.value.Some? { BigintRewrite(s.fees.value.value); }
    assert EncodeEntry(iso, e).timestamp == s.timestamp;
  }
}
