/**
 packages/world-bundle: canonicalJson and normalizeOperationalValue. Text is a sequence of UTF-16
 code units, as in ECMAScript; the printed form is JSON (RFC 8259, sections 4 to 7) without
 insignificant whitespace.
 */
module CanonicalJson {
  import opened Wrappers
  import opened Collections
  import opened Sorting

  type CodeUnit = x: int | 0 <= x < 0x1_0000

  type Text = seq<CodeUnit>

  /** Number.MIN_SAFE_INTEGER to Number.MAX_SAFE_INTEGER, which print as plain decimals. */
  type SafeInteger = x: int | -0x1f_ffff_ffff_ffff <= x <= 0x1f_ffff_ffff_ffff

  /** Object entries are listed in enumeration order. */
  datatype Value =
    | Null
    | Bool(b: bool)
    | Number(n: SafeInteger)
    | String(s: Text)
    | Array(items: seq<Value>)
    | Object(entries: seq<Entry>)

  datatype Entry = Entry(key: Text, value: Value)

  datatype UnsafeKey = UnsafeKey(key: Text)

  const QUOTE: CodeUnit := 0x22
  const BACKSLASH: CodeUnit := 0x5c
  const COMMA: CodeUnit := 0x2c
  const COLON: CodeUnit := 0x3a
  const MINUS: CodeUnit := 0x2d
  const ZERO: CodeUnit := 0x30
  const OPEN_BRACKET: CodeUnit := 0x5b
  const CLOSE_BRACKET: CodeUnit := 0x5d
  const OPEN_BRACE: CodeUnit := 0x7b
  const CLOSE_BRACE: CodeUnit := 0x7d
  const LETTER_U: CodeUnit := 0x75

  const NULL_TEXT: Text := [0x6e, 0x75, 0x6c, 0x6c]
  const TRUE_TEXT: Text := [0x74, 0x72, 0x75, 0x65]
  const FALSE_TEXT: Text := [0x66, 0x61, 0x6c, 0x73, 0x65]

  /** "__proto__", "prototype" and "constructor". */
  const UNSAFE_KEYS: seq<Text> := [
    [0x5f, 0x5f, 0x70, 0x72, 0x6f, 0x74, 0x6f, 0x5f, 0x5f],
    [0x70, 0x72, 0x6f, 0x74, 0x6f, 0x74, 0x79, 0x70, 0x65],
    [0x63, 0x6f, 0x6e, 0x73, 0x74, 0x72, 0x75, 0x63, 0x74, 0x6f, 0x72]]

  // ----- compareText -----

  predicate TextAtMost(a: Text, b: Text) {
    a == [] || (b != [] && (a[0] < b[0] || (a[0] == b[0] && TextAtMost(a[1..], b[1..]))))
  }

  predicate ByKey(a: Entry, b: Entry) {
    TextAtMost(a.key, b.key)
  }

  lemma {:induction false} TextTotal(a: Text, b: Text)
    ensures TextAtMost(a, b) || TextAtMost(b, a)
    ensures TextAtMost(a, b) && TextAtMost(b, a) ==> a == b
  {
    if a != [] && b != [] {
      TextTotal(a[1..], b[1..]);
      if a[0] == b[0] && a[1..] == b[1..] { assert a == [a[0]] + a[1..] && b == [b[0]] + b[1..]; }
    }
  }

  lemma {:induction false} TextTransitive(a: Text, b: Text, c: Text)
    requires TextAtMost(a, b) && TextAtMost(b, c)
    ensures TextAtMost(a, c)
  {
    if a != [] && a[0] == b[0] == c[0] { TextTransitive(a[1..], b[1..], c[1..]); }
  }

  lemma ByKeyOrders()
    ensures TotalPreorder(ByKey)
  {
    forall a, b ensures ByKey(a, b) || ByKey(b, a) { TextTotal(a.key, b.key); }
    forall a, b, c | ByKey(a, b) && ByKey(b, c) ensures ByKey(a, c) { TextTransitive(a.key, b.key, c.key); }
  }

  // ----- JSON.stringify of a string and of an integer -----

  predicate Lead(c: CodeUnit) { 0xd800 <= c < 0xdc00 }

  predicate Trail(c: CodeUnit) { 0xdc00 <= c < 0xe000 }

  function HexDigit(d: int): CodeUnit
    requires 0 <= d < 16
  {
    if d < 10 then 0x30 + d else 0x57 + d
  }

  function UnicodeEscape(c: CodeUnit): Text {
    [BACKSLASH, LETTER_U, HexDigit(c / 16 / 16 / 16), HexDigit(c / 16 / 16 % 16), HexDigit(c / 16 % 16), HexDigit(c % 16)]
  }

  /** The letter after the backslash, for the units with a short escape. */
  function ShortEscape(c: CodeUnit): Option<CodeUnit> {
    if c == 0x08 then Some(0x62) else if c == 0x09 then Some(0x74) else if c == 0x0a then Some(0x6e)
    else if c == 0x0c then Some(0x66) else if c == 0x0d then Some(0x72)
    else if c == QUOTE || c == BACKSLASH then Some(c) else None
  }

  function EscapeUnit(c: CodeUnit): Text {
    if ShortEscape(c).Some? then [BACKSLASH, ShortEscape(c).value]
    else if c < 0x20 || Lead(c) || Trail(c) then UnicodeEscape(c)
    else [c]
  }

  /** Surrogate pairs are kept; a lone surrogate is escaped. */
  function Escape(s: Text): Text {
    if s == [] then []
    else if |s| > 1 && Lead(s[0]) && Trail(s[1]) then [s[0], s[1]] + Escape(s[2..])
    else EscapeUnit(s[0]) + Escape(s[1..])
  }

  function Quote(s: Text): Text {
    [QUOTE] + Escape(s) + [QUOTE]
  }

  function Digits(n: nat): Text {
    if n < 10 then [ZERO + n] else Digits(n / 10) + [ZERO + n % 10]
  }

  function PrintNumber(n: int): Text {
    if n < 0 then [MINUS] + Digits(-n) else Digits(n)
  }

  // ----- canonicalJson -----

  lemma EntriesSmaller(v: Value)
    requires v.Object?
    ensures forall e :: e in SortBy(v.entries, ByKey) ==> e.value < v
  {
    SortElements(v.entries, ByKey);
    forall e | e in v.entries ensures e.value < v {
      var i :| 0 <= i < |v.entries| && v.entries[i] == e;
      assert v.entries[i].value < v;
    }
  }

  function Print(v: Value): Text
    decreases v
  {
    match v
    case Null => NULL_TEXT
    case Bool(b) => if b then TRUE_TEXT else FALSE_TEXT
    case Number(n) => PrintNumber(n)
    case String(s) => Quote(s)
    case Array(items) => [OPEN_BRACKET] + PrintItems(v, items) + [CLOSE_BRACKET]
    case Object(entries) =>
      EntriesSmaller(v);
      [OPEN_BRACE] + PrintEntries(v, SortBy(entries, ByKey)) + [CLOSE_BRACE]
  }

  function PrintItems(parent: Value, items: seq<Value>): Text
    requires forall i :: 0 <= i < |items| ==> items[i] < parent
    decreases parent, |items|
  {
    if items == [] then []
    else if |items| == 1 then Print(items[0])
    else Print(items[0]) + [COMMA] + PrintItems(parent, items[1..])
  }

  function PrintEntries(parent: Value, entries: seq<Entry>): Text
    requires forall e :: e in entries ==> e.value < parent
    decreases parent, |entries|
  {
    if entries == [] then []
    else
      var first := Quote(entries[0].key) + [COLON] + Print(entries[0].value);
      if |entries| == 1 then first else first + [COMMA] + PrintEntries(parent, entries[1..])
  }

  // ----- normalizeOperationalValue -----

  function Normalize(v: Value): Result<Value, UnsafeKey>
    decreases v
  {
    match v
    case Array(items) =>
      (match NormalizeItems(v, items)
       case Err(e) => Err(e)
       case Ok(normal) => Ok(Array(normal)))
    case Object(entries) =>
      EntriesSmaller(v);
      (match NormalizeEntries(v, SortBy(entries, ByKey))
       case Err(e) => Err(e)
       case Ok(normal) => Ok(Object(normal)))
    case _ => Ok(v)
  }

  function NormalizeItems(parent: Value, items: seq<Value>): Result<seq<Value>, UnsafeKey>
    requires forall i :: 0 <= i < |items| ==> items[i] < parent
    decreases parent, |items|
  {
    if items == [] then Ok([]) else
      match Normalize(items[0])
      case Err(e) => Err(e)
      case Ok(first) =>
        match NormalizeItems(parent, items[1..])
        case Err(e) => Err(e)
        case Ok(rest) => Ok([first] + rest)
  }

  function NormalizeEntries(parent: Value, entries: seq<Entry>): Result<seq<Entry>, UnsafeKey>
    requires forall e :: e in entries ==> e.value < parent
    decreases parent, |entries|
  {
    if entries == [] then Ok([])
    else if entries[0].key in UNSAFE_KEYS then Err(UnsafeKey(entries[0].key))
    else
      match Normalize(entries[0].value)
      case Err(e) => Err(e)
      case Ok(first) =>
        match NormalizeEntries(parent, entries[1..])
        case Err(e) => Err(e)
        case Ok(rest) => Ok([Entry(entries[0].key, first)] + rest)
  }

  // ----- a reader for the printed form -----

  function Expect(s: Text, word: Text, v: Value): Option<(Value, Text)> {
    if word <= s then Some((v, s[|word|..])) else None
  }

  predicate IsDigit(c: CodeUnit) { ZERO <= c < ZERO + 10 }

  function TakeDigits(s: Text): Text {
    if s == [] || !IsDigit(s[0]) then [] else [s[0]] + TakeDigits(s[1..])
  }

  lemma {:induction false} TakeDigitsPrefix(s: Text)
    ensures TakeDigits(s) <= s
    ensures forall i :: 0 <= i < |TakeDigits(s)| ==> IsDigit(TakeDigits(s)[i])
  {
    if s != [] && IsDigit(s[0]) { TakeDigitsPrefix(s[1..]); }
  }

  function DecimalValue(ds: Text): nat
    requires forall i :: 0 <= i < |ds| ==> IsDigit(ds[i])
  {
    if ds == [] then 0 else
      assert IsDigit(ds[|ds| - 1]);
      DecimalValue(ds[..|ds| - 1]) * 10 + (ds[|ds| - 1] - ZERO)
  }

  function ReadNatural(s: Text): (r: Option<(nat, Text)>)
    ensures r.Some? ==> |r.value.1| < |s|
  {
    var ds := TakeDigits(s);
    TakeDigitsPrefix(s);
    if ds == [] || (|ds| > 1 && ds[0] == ZERO) then None else Some((DecimalValue(ds), s[|ds|..]))
  }

  function ReadNumber(s: Text): (r: Option<(Value, Text)>)
    ensures r.Some? ==> |r.value.1| < |s|
  {
    var negative := s != [] && s[0] == MINUS;
    match ReadNatural(if negative then s[1..] else s)
    case None => None
    case Some((n, rest)) => 
      if n > 0x1f_ffff_ffff_ffff then None else Some((Number(if negative then 0 - n as int else n as int), rest))
  }

  function HexValue(c: CodeUnit): Option<int> {
    if 0x30 <= c < 0x3a then Some(c - 0x30)
    else if 0x61 <= c < 0x67 then Some(c - 0x57)
    else if 0x41 <= c < 0x47 then Some(c - 0x37)
    else None
  }

  function ReadHex(s: Text): Option<CodeUnit> {
    if |s| < 4 then None else
      var a, b, c, d := HexValue(s[0]), HexValue(s[1]), HexValue(s[2]), HexValue(s[3]);
      if a.None? || b.None? || c.None? || d.None? then None
      else Some(a.value * 4096 + b.value * 256 + c.value * 16 + d.value)
  }

  function ShortUnescape(c: CodeUnit): Option<CodeUnit> {
    if c == 0x62 then Some(0x08) else if c == 0x74 then Some(0x09) else if c == 0x6e then Some(0x0a)
    else if c == 0x66 then Some(0x0c) else if c == 0x72 then Some(0x0d)
    else if c == QUOTE || c == BACKSLASH || c == 0x2f then Some(c) else None
  }

  /** One unit of string content, and how much text it took. */
  function ReadUnit(s: Text): Option<(CodeUnit, Text)>
    requires s != []
  {
    if s[0] == BACKSLASH then
      if |s| < 2 then None
      else if s[1] == LETTER_U then
        (match ReadHex(s[2..]) case None => None case Some(c) => Some((c, s[6..])))
      else
        (match ShortUnescape(s[1]) case None => None case Some(c) => Some((c, s[2..])))
    else if s[0] < 0x20 then None
    else Some((s[0], s[1..]))
  }

  /** String content up to and including the closing quote. */
  function ReadChars(s: Text): (r: Option<(Text, Text)>)
    ensures r.Some? ==> |r.value.1| < |s|
  {
    if s == [] then None
    else if s[0] == QUOTE then Some(([], s[1..]))
    else
      match ReadUnit(s)
      case None => None
      case Some((c, rest)) =>
        match ReadChars(rest)
        case None => None
        case Some((cs, after)) => Some(([c] + cs, after))
  }

  function Read(s: Text): (r: Option<(Value, Text)>)
    ensures r.Some? ==> |r.value.1| < |s|
    decreases |s|, 0
  {
    if s == [] then None
    else if s[0] == NULL_TEXT[0] then Expect(s, NULL_TEXT, Null)
    else if s[0] == TRUE_TEXT[0] then Expect(s, TRUE_TEXT, Bool(true))
    else if s[0] == FALSE_TEXT[0] then Expect(s, FALSE_TEXT, Bool(false))
    else if s[0] == QUOTE then
      (match ReadChars(s[1..]) case None => None case Some((cs, rest)) => Some((String(cs), rest)))
    else if s[0] == OPEN_BRACKET then
      if |s| > 1 && s[1] == CLOSE_BRACKET then Some((Array([]), s[2..])) else
        (match ReadItems(s[1..]) case None => None case Some((items, rest)) => Some((Array(items), rest)))
    else if s[0] == OPEN_BRACE then
      if |s| > 1 && s[1] == CLOSE_BRACE then Some((Object([]), s[2..])) else
        (match ReadEntries(s[1..]) case None => None case Some((entries, rest)) => Some((Object(entries), rest)))
    else ReadNumber(s)
  }

  /** One or more items, up to and including the closing bracket. */
  function ReadItems(s: Text): (r: Option<(seq<Value>, Text)>)
    ensures r.Some? ==> |r.value.1| < |s|
    decreases |s|, 1
  {
    match Read(s)
    case None => None
    case Some((v, rest)) =>
      if rest == [] then None
      else if rest[0] == CLOSE_BRACKET then Some(([v], rest[1..]))
      else if rest[0] != COMMA then None
      else match ReadItems(rest[1..])
        case None => None
        case Some((vs, after)) => Some(([v] + vs, after))
  }

  function ReadEntries(s: Text): (r: Option<(seq<Entry>, Text)>)
    ensures r.Some? ==> |r.value.1| < |s|
    decreases |s|, 1
  {
    if s == [] || s[0] != QUOTE then None else
      match ReadChars(s[1..])
      case None => None
      case Some((key, afterKey)) =>
        if afterKey == [] || afterKey[0] != COLON then None else
          match Read(afterKey[1..])
          case None => None
          case Some((v, rest)) =>
            if rest == [] then None
            else if rest[0] == CLOSE_BRACE then Some(([Entry(key, v)], rest[1..]))
            else if rest[0] != COMMA then None
            else match ReadEntries(rest[1..])
              case None => None
              case Some((es, after)) => Some(([Entry(key, v)] + es, after))
  }

  // ----- reading back strings and numbers -----

  lemma HexDigitRoundTrip(d: int)
    requires 0 <= d < 16
    ensures HexValue(HexDigit(d)) == Some(d)
  {
  }

  lemma HexRoundTrip(c: CodeUnit, rest: Text)
    ensures ReadUnit(UnicodeEscape(c) + rest) == Some((c, rest))
  {
    var s := UnicodeEscape(c) + rest;
    var q1 := c / 16;
    var q2 := q1 / 16;
    var q3 := q2 / 16;
    assert c == q3 * 4096 + q2 % 16 * 256 + q1 % 16 * 16 + c % 16;
    HexDigitRoundTrip(q3);
    HexDigitRoundTrip(q2 % 16);
    HexDigitRoundTrip(q1 % 16);
    HexDigitRoundTrip(c % 16);
    assert s[6..] == rest;
    var h := s[2..];
    assert h[0] == HexDigit(q3) && h[1] == HexDigit(q2 % 16) && h[2] == HexDigit(q1 % 16) && h[3] == HexDigit(c % 16);
    assert ReadHex(h) == Some(c);
  }

  lemma UnitRoundTrip(c: CodeUnit, rest: Text)
    ensures EscapeUnit(c) != [] && EscapeUnit(c)[0] != QUOTE
    ensures ReadUnit(EscapeUnit(c) + rest) == Some((c, rest))
  {
    if ShortEscape(c).Some? {
      assert (EscapeUnit(c) + rest)[2..] == rest;
    } else if c < 0x20 || Lead(c) || Trail(c) {
      HexRoundTrip(c, rest);
    } else {
      assert ([c] + rest)[1..] == rest;
    }
  }

  lemma ReadCharsUnit(text: Text, c: CodeUnit, tail: Text, after: Text, cs: Text)
    requires text != [] && text[0] != QUOTE && ReadUnit(text) == Some((c, tail))
    requires ReadChars(tail) == Some((cs, after))
    ensures ReadChars(text) == Some(([c] + cs, after))
  {
  }

  lemma EscapedUnit(c: CodeUnit, tail: Text, after: Text, cs: Text)
    requires ReadChars(tail) == Some((cs, after))
    ensures ReadChars(EscapeUnit(c) + tail) == Some(([c] + cs, after))
  {
    UnitRoundTrip(c, tail);
    ReadCharsUnit(EscapeUnit(c) + tail, c, tail, after, cs);
  }

  lemma PlainUnit(c: CodeUnit, tail: Text, after: Text, cs: Text)
    requires ReadChars(tail) == Some((cs, after)) && (Lead(c) || Trail(c))
    ensures ReadChars([c] + tail) == Some(([c] + cs, after))
  {
    assert ([c] + tail)[1..] == tail;
    ReadCharsUnit([c] + tail, c, tail, after, cs);
  }

  /** Escaped content, its closing quote, and whatever follows. */
  function Content(s: Text, rest: Text): Text {
    Escape(s) + [QUOTE] + rest
  }

  lemma PairStep(s: Text, rest: Text)
    requires |s| > 1 && Lead(s[0]) && Trail(s[1])
    requires ReadChars(Content(s[2..], rest)) == Some((s[2..], rest))
    ensures ReadChars(Content(s, rest)) == Some((s, rest))
  {
    var tail := Content(s[2..], rest);
    PlainUnit(s[1], tail, rest, s[2..]);
    PlainUnit(s[0], [s[1]] + tail, rest, [s[1]] + s[2..]);
    assert Content(s, rest) == [s[0]] + ([s[1]] + tail);
    assert s == [s[0]] + ([s[1]] + s[2..]);
  }

  lemma UnitStep(s: Text, rest: Text)
    requires s != [] && !(|s| > 1 && Lead(s[0]) && Trail(s[1]))
    requires ReadChars(Content(s[1..], rest)) == Some((s[1..], rest))
    ensures ReadChars(Content(s, rest)) == Some((s, rest))
  {
    var tail := Content(s[1..], rest);
    EscapedUnit(s[0], tail, rest, s[1..]);
    assert Content(s, rest) == EscapeUnit(s[0]) + tail;
    assert s == [s[0]] + s[1..];
  }

  lemma {:induction false} StringRoundTrip(s: Text, rest: Text)
    ensures ReadChars(Content(s, rest)) == Some((s, rest))
    decreases |s|
  {
    if s == [] {
      assert Content(s, rest) == [QUOTE] + rest;
      assert ([QUOTE] + rest)[1..] == rest;
    } else if |s| > 1 && Lead(s[0]) && Trail(s[1]) {
      StringRoundTrip(s[2..], rest);
      PairStep(s, rest);
    } else {
      StringRoundTrip(s[1..], rest);
      UnitStep(s, rest);
    }
  }

  lemma QuoteRoundTrip(s: Text, rest: Text)
    ensures ReadChars((Quote(s) + rest)[1..]) == Some((s, rest))
  {
    StringRoundTrip(s, rest);
    assert (Quote(s) + rest)[1..] == Content(s, rest);
  }

  lemma {:induction false} DigitsRoundTrip(n: nat)
    ensures Digits(n) != [] && (forall i :: 0 <= i < |Digits(n)| ==> IsDigit(Digits(n)[i]))
    ensures DecimalValue(Digits(n)) == n
    ensures Digits(n)[0] == ZERO ==> n == 0
    ensures n == 0 ==> |Digits(n)| == 1
  {
    if n >= 10 {
      DigitsRoundTrip(n / 10);
      var ds := Digits(n);
      assert ds[..|ds| - 1] == Digits(n / 10);
    } else {
      assert Digits(n)[..0] == [];
    }
  }

  predicate NoDigitFirst(rest: Text) { rest == [] || !IsDigit(rest[0]) }

  lemma {:induction false} TakeDigitsStops(ds: Text, rest: Text)
    requires (forall i :: 0 <= i < |ds| ==> IsDigit(ds[i])) && NoDigitFirst(rest)
    ensures TakeDigits(ds + rest) == ds
  {
    if ds == [] {
      assert ds + rest == rest;
    } else {
      assert (ds + rest)[1..] == ds[1..] + rest;
      TakeDigitsStops(ds[1..], rest);
    }
  }

  lemma NaturalRoundTrip(n: nat, rest: Text)
    requires NoDigitFirst(rest)
    ensures ReadNatural(Digits(n) + rest) == Some((n, rest))
  {
    DigitsRoundTrip(n);
    TakeDigitsStops(Digits(n), rest);
    assert (Digits(n) + rest)[|Digits(n)|..] == rest;
  }

  lemma NumberFirst(n: int)
    ensures PrintNumber(n) != [] && (IsDigit(PrintNumber(n)[0]) || PrintNumber(n)[0] == MINUS)
  {
    DigitsRoundTrip(if n < 0 then -n else n);
  }

  lemma MinusRead(t: Text, n: SafeInteger, rest: Text)
    requires n < 0 && ReadNatural(t) == Some((-n, rest))
    ensures ReadNumber([MINUS] + t) == Some((Number(n), rest))
  {
    assert ([MINUS] + t)[1..] == t;
  }

  lemma NegativeForm(n: int, rest: Text)
    requires n < 0
    ensures PrintNumber(n) + rest == [MINUS] + (Digits(-n) + rest)
  {
  }

  lemma NegativeRoundTrip(n: SafeInteger, rest: Text)
    requires NoDigitFirst(rest) && n < 0
    ensures ReadNumber(PrintNumber(n) + rest) == Some((Number(n), rest))
  {
    NaturalRoundTrip(-n, rest);
    MinusRead(Digits(-n) + rest, n, rest);
    NegativeForm(n, rest);
  }

  lemma NumberRoundTrip(n: SafeInteger, rest: Text)
    requires NoDigitFirst(rest)
    ensures ReadNumber(PrintNumber(n) + rest) == Some((Number(n), rest))
  {
    if n < 0 {
      NegativeRoundTrip(n, rest);
    } else {
      NaturalRoundTrip(n, rest);
      DigitsRoundTrip(n);
      assert (Digits(n) + rest)[0] == Digits(n)[0] && IsDigit(Digits(n)[0]);
    }
  }

  // ----- reading back values -----

  /** What the reader recovers: normalisation without the check for unsafe keys. */
  function Canon(v: Value): Value
    decreases v
  {
    match v
    case Array(items) => Array(CanonItems(v, items))
    case Object(entries) => EntriesSmaller(v); Object(CanonEntries(v, SortBy(entries, ByKey)))
    case _ => v
  }

  function CanonItems(parent: Value, items: seq<Value>): seq<Value>
    requires forall i :: 0 <= i < |items| ==> items[i] < parent
    decreases parent, |items|
  {
    if items == [] then [] else [Canon(items[0])] + CanonItems(parent, items[1..])
  }

  function CanonEntries(parent: Value, entries: seq<Entry>): seq<Entry>
    requires forall e :: e in entries ==> e.value < parent
    decreases parent, |entries|
  {
    if entries == [] then [] else
      [Entry(entries[0].key, Canon(entries[0].value))] + CanonEntries(parent, entries[1..])
  }

  /** First units of printed values, which the reader branches on. */
  lemma PrintFirst(v: Value)
    ensures Print(v) != [] && Print(v)[0] != CLOSE_BRACKET && Print(v)[0] != CLOSE_BRACE
  {
    if v.Number? { NumberFirst(v.n); }
  }

  lemma ReadArray(text: Text, items: seq<Value>, rest: Text)
    requires text != [] && text[0] != CLOSE_BRACKET && ReadItems(text) == Some((items, rest))
    ensures Read([OPEN_BRACKET] + text) == Some((Array(items), rest))
  {
    var s := [OPEN_BRACKET] + text;
    assert s[1..] == text && s[0] == OPEN_BRACKET && s[1] == text[0];
  }

  lemma ReadObject(text: Text, entries: seq<Entry>, rest: Text)
    requires text != [] && text[0] != CLOSE_BRACE && ReadEntries(text) == Some((entries, rest))
    ensures Read([OPEN_BRACE] + text) == Some((Object(entries), rest))
  {
    var s := [OPEN_BRACE] + text;
    assert s[1..] == text && s[0] == OPEN_BRACE && s[1] == text[0];
  }

  lemma ScalarRoundTrip(v: Value, rest: Text)
    requires !v.Array? && !v.Object? && NoDigitFirst(rest)
    ensures Read(Print(v) + rest) == Some((v, rest))
  {
    match v
    case Number(n) => NumberFirst(n); NumberRoundTrip(n, rest);
    case String(s) => QuoteRoundTrip(s, rest);
    case Null => assert (NULL_TEXT + rest)[4..] == rest;
    case Bool(b) => assert (TRUE_TEXT + rest)[4..] == rest && (FALSE_TEXT + rest)[5..] == rest;
  }

  lemma ItemsLast(v: Value, text: Text, rest: Text)
    requires Read(text) == Some((v, [CLOSE_BRACKET] + rest))
    ensures ReadItems(text) == Some(([v], rest))
  {
    assert ([CLOSE_BRACKET] + rest)[1..] == rest;
  }

  lemma ItemsMore(v: Value, text: Text, tail: Text, vs: seq<Value>, rest: Text)
    requires Read(text) == Some((v, [COMMA] + tail)) && ReadItems(tail) == Some((vs, rest))
    ensures ReadItems(text) == Some(([v] + vs, rest))
  {
    assert ([COMMA] + tail)[1..] == tail;
  }

  lemma EntryRead(key: Text, v: Value, text: Text, rest: Text)
    requires Read(text) == Some((v, rest))
    ensures var whole := Quote(key) + [COLON] + text;
      whole[0] == QUOTE && ReadChars(whole[1..]) == Some((key, [COLON] + text)) && ([COLON] + text)[1..] == text
  {
    QuoteRoundTrip(key, [COLON] + text);
    assert Quote(key) + [COLON] + text == Quote(key) + ([COLON] + text);
  }

  lemma EntriesLast(key: Text, v: Value, text: Text, rest: Text)
    requires Read(text) == Some((v, [CLOSE_BRACE] + rest))
    ensures ReadEntries(Quote(key) + [COLON] + text) == Some(([Entry(key, v)], rest))
  {
    EntryRead(key, v, text, [CLOSE_BRACE] + rest);
    assert ([CLOSE_BRACE] + rest)[1..] == rest;
  }

  lemma EntriesMore(key: Text, v: Value, text: Text, tail: Text, es: seq<Entry>, rest: Text)
    requires Read(text) == Some((v, [COMMA] + tail)) && ReadEntries(tail) == Some((es, rest))
    ensures ReadEntries(Quote(key) + [COLON] + text) == Some(([Entry(key, v)] + es, rest))
  {
    EntryRead(key, v, text, [COMMA] + tail);
    assert ([COMMA] + tail)[1..] == tail;
  }

  lemma EmptyRoundTrip(v: Value, rest: Text)
    requires v == Array([]) || v == Object([])
    ensures Read(Print(v) + rest) == Some((v, rest))
  {
    if v.Array? {
      assert Print(v) == [OPEN_BRACKET, CLOSE_BRACKET];
      assert ([OPEN_BRACKET, CLOSE_BRACKET] + rest)[2..] == rest;
    } else {
      assert SortBy(v.entries, ByKey) == [];
      assert Print(v) == [OPEN_BRACE, CLOSE_BRACE];
      assert ([OPEN_BRACE, CLOSE_BRACE] + rest)[2..] == rest;
    }
  }

  lemma ItemsFirst(parent: Value, items: seq<Value>)
    requires items != [] && forall i :: 0 <= i < |items| ==> items[i] < parent
    ensures PrintItems(parent, items) != [] && PrintItems(parent, items)[0] != CLOSE_BRACKET
  {
    PrintFirst(items[0]);
  }

  lemma ArrayStep(v: Value, items: seq<Value>, rest: Text)
    requires v == Array(items) && items != []
    requires ReadItems(PrintItems(v, items) + ([CLOSE_BRACKET] + rest)) == Some((CanonItems(v, items), rest))
    ensures Read(Print(v) + rest) == Some((Canon(v), rest))
  {
    var printed := PrintItems(v, items);
    var text := printed + ([CLOSE_BRACKET] + rest);
    ItemsFirst(v, items);
    ReadArray(text, CanonItems(v, items), rest);
    assert Print(v) == [OPEN_BRACKET] + printed + [CLOSE_BRACKET];
    assert [OPEN_BRACKET] + printed + [CLOSE_BRACKET] + rest == [OPEN_BRACKET] + text;
  }

  lemma EntriesFirst(parent: Value, entries: seq<Entry>)
    requires entries != [] && forall e :: e in entries ==> e.value < parent
    ensures PrintEntries(parent, entries) != [] && PrintEntries(parent, entries)[0] == QUOTE
  {
  }

  lemma ObjectForm(v: Value, sorted: seq<Entry>)
    requires v.Object? && sorted == SortBy(v.entries, ByKey) && forall e :: e in sorted ==> e.value < v
    ensures Print(v) == [OPEN_BRACE] + PrintEntries(v, sorted) + [CLOSE_BRACE]
    ensures Canon(v) == Object(CanonEntries(v, sorted))
  {
  }

  lemma Bracket(open: Text, printed: Text, close: Text, rest: Text)
    ensures open + printed + close + rest == open + (printed + (close + rest))
  {
  }

  lemma ObjectStep(v: Value, sorted: seq<Entry>, rest: Text)
    requires v.Object? && sorted == SortBy(v.entries, ByKey) && sorted != []
    requires forall e :: e in sorted ==> e.value < v
    requires ReadEntries(PrintEntries(v, sorted) + ([CLOSE_BRACE] + rest)) == Some((CanonEntries(v, sorted), rest))
    ensures Read(Print(v) + rest) == Some((Canon(v), rest))
  {
    var printed := PrintEntries(v, sorted);
    ObjectForm(v, sorted);
    EntriesFirst(v, sorted);
    ReadObject(printed + ([CLOSE_BRACE] + rest), CanonEntries(v, sorted), rest);
    Bracket([OPEN_BRACE], printed, [CLOSE_BRACE], rest);
  }

  /** The reader recovers every printed value in its canonical form, and stops where it ends. */
  lemma {:induction false} RoundTrip(v: Value, rest: Text)
    requires NoDigitFirst(rest)
    ensures Read(Print(v) + rest) == Some((Canon(v), rest))
    decreases v
  {
    match v
    case Array(items) =>
      if items == [] { EmptyRoundTrip(v, rest); } else {
        ItemsRoundTrip(v, items, rest);
        ArrayStep(v, items, rest);
      }
    case Object(entries) =>
      EntriesSmaller(v);
      SortElements(entries, ByKey);
      if entries == [] { EmptyRoundTrip(v, rest); } else {
        EntriesRoundTrip(v, SortBy(entries, ByKey), rest);
        ObjectStep(v, SortBy(entries, ByKey), rest);
      }
    case _ => ScalarRoundTrip(v, rest);
  }

  lemma Reassociate(a: Text, b: Text, c: Text, d: Text)
    ensures a + b + c + d == a + (b + (c + d))
  {
  }

  lemma ItemsForm(parent: Value, items: seq<Value>, close: Text)
    requires items != [] && forall i :: 0 <= i < |items| ==> items[i] < parent
    ensures |items| == 1 ==> PrintItems(parent, items) == Print(items[0]) && CanonItems(parent, items) == [Canon(items[0])]
    ensures |items| > 1 ==>
              && PrintItems(parent, items) + close == Print(items[0]) + ([COMMA] + (PrintItems(parent, items[1..]) + close))
              && CanonItems(parent, items) == [Canon(items[0])] + CanonItems(parent, items[1..])
  {
    if |items| > 1 {
      Reassociate(Print(items[0]), [COMMA], PrintItems(parent, items[1..]), close);
    } else {
      assert CanonItems(parent, items) == [Canon(items[0])] + CanonItems(parent, []);
    }
  }

  lemma {:induction false} ItemsRoundTrip(parent: Value, items: seq<Value>, rest: Text)
    requires items != [] && forall i :: 0 <= i < |items| ==> items[i] < parent
    ensures ReadItems(PrintItems(parent, items) + ([CLOSE_BRACKET] + rest)) == Some((CanonItems(parent, items), rest))
    decreases parent, |items|
  {
    var close := [CLOSE_BRACKET] + rest;
    ItemsForm(parent, items, close);
    if |items| == 1 {
      RoundTrip(items[0], close);
      ItemsLast(Canon(items[0]), Print(items[0]) + close, rest);
    } else {
      var tail := PrintItems(parent, items[1..]) + close;
      ItemsRoundTrip(parent, items[1..], rest);
      RoundTrip(items[0], [COMMA] + tail);
      ItemsMore(Canon(items[0]), Print(items[0]) + ([COMMA] + tail), tail, CanonItems(parent, items[1..]), rest);
    }
  }

  lemma OneEntryForm(parent: Value, entries: seq<Entry>, close: Text)
    requires |entries| == 1 && forall e :: e in entries ==> e.value < parent
    ensures var e := entries[0];
      && PrintEntries(parent, entries) + close == Quote(e.key) + [COLON] + (Print(e.value) + close)
      && CanonEntries(parent, entries) == [Entry(e.key, Canon(e.value))]
  {
    var e := entries[0];
    assert entries[1..] == [];
    assert CanonEntries(parent, entries) == [Entry(e.key, Canon(e.value))] + [];
    Bracket(Quote(e.key) + [COLON], Print(e.value), close, []);
    assert close + [] == close;
  }

  lemma MoreEntriesForm(parent: Value, entries: seq<Entry>, close: Text)
    requires |entries| > 1 && forall e :: e in entries ==> e.value < parent
    ensures var e := entries[0];
      && PrintEntries(parent, entries) + close ==
         Quote(e.key) + [COLON] + (Print(e.value) + ([COMMA] + (PrintEntries(parent, entries[1..]) + close)))
      && CanonEntries(parent, entries) == [Entry(e.key, Canon(e.value))] + CanonEntries(parent, entries[1..])
  {
    var e := entries[0];
    var head, tail := Quote(e.key) + [COLON], PrintEntries(parent, entries[1..]);
    assert PrintEntries(parent, entries) == head + Print(e.value) + [COMMA] + tail;
    Bracket(head + Print(e.value), [COMMA], tail, close);
    Bracket(head, Print(e.value), [COMMA] + (tail + close), []);
    assert [COMMA] + (tail + close) + [] == [COMMA] + (tail + close);
  }

  lemma {:induction false} EntriesRoundTrip(parent: Value, entries: seq<Entry>, rest: Text)
    requires entries != [] && forall e :: e in entries ==> e.value < parent
    ensures ReadEntries(PrintEntries(parent, entries) + ([CLOSE_BRACE] + rest)) == Some((CanonEntries(parent, entries), rest))
    decreases parent, |entries|
  {
    var close := [CLOSE_BRACE] + rest;
    var key, value := entries[0].key, entries[0].value;
    if |entries| == 1 {
      OneEntryForm(parent, entries, close);
      RoundTrip(value, close);
      EntriesLast(key, Canon(value), Print(value) + close, rest);
    } else {
      var tail := PrintEntries(parent, entries[1..]) + close;
      MoreEntriesForm(parent, entries, close);
      EntriesRoundTrip(parent, entries[1..], rest);
      RoundTrip(value, [COMMA] + tail);
      EntriesMore(key, Canon(value), Print(value) + ([COMMA] + tail), tail, CanonEntries(parent, entries[1..]), rest);
    }
  }

  // ----- what normalisation adds: the check for unsafe keys -----

  /** No object anywhere inside has one of the refused keys. */
  ghost predicate SafeKeys(v: Value)
    decreases v
  {
    match v
    case Array(items) => forall i :: 0 <= i < |items| ==> SafeKeys(items[i])
    case Object(entries) => forall i :: 0 <= i < |entries| ==> entries[i].key !in UNSAFE_KEYS && SafeKeys(entries[i].value)
    case _ => true
  }

  ghost predicate SafeEntries(entries: seq<Entry>) {
    forall i :: 0 <= i < |entries| ==> entries[i].key !in UNSAFE_KEYS && SafeKeys(entries[i].value)
  }

  lemma SafeEntriesSorted(entries: seq<Entry>)
    ensures SafeEntries(entries) <==> SafeEntries(SortBy(entries, ByKey))
  {
    var sorted := SortBy(entries, ByKey);
    SortElements(entries, ByKey);
    if SafeEntries(entries) {
      forall i | 0 <= i < |sorted| ensures sorted[i].key !in UNSAFE_KEYS && SafeKeys(sorted[i].value) {
        assert sorted[i] in entries;
      }
    }
    if SafeEntries(sorted) {
      forall i | 0 <= i < |entries| ensures entries[i].key !in UNSAFE_KEYS && SafeKeys(entries[i].value) {
        assert entries[i] in sorted;
      }
    }
  }

  /** normalizeOperationalValue refuses exactly the values with an unsafe key, and otherwise gives the canonical form. */
  lemma {:induction false} NormalizeIsCanon(v: Value)
    ensures Normalize(v).Ok? <==> SafeKeys(v)
    ensures Normalize(v).Ok? ==> Normalize(v).value == Canon(v)
    decreases v
  {
    match v
    case Array(items) => NormalizeItemsIsCanon(v, items);
    case Object(entries) =>
      EntriesSmaller(v);
      SafeEntriesSorted(entries);
      NormalizeEntriesIsCanon(v, SortBy(entries, ByKey));
    case _ =>
  }

  lemma {:induction false} NormalizeItemsIsCanon(parent: Value, items: seq<Value>)
    requires forall i :: 0 <= i < |items| ==> items[i] < parent
    ensures NormalizeItems(parent, items).Ok? <==> forall i :: 0 <= i < |items| ==> SafeKeys(items[i])
    ensures NormalizeItems(parent, items).Ok? ==> NormalizeItems(parent, items).value == CanonItems(parent, items)
    decreases parent, |items|
  {
    if items != [] {
      NormalizeIsCanon(items[0]);
      NormalizeItemsIsCanon(parent, items[1..]);
      assert forall i :: 0 < i < |items| ==> items[i] == items[1..][i - 1];
    }
  }

  lemma {:induction false} NormalizeEntriesIsCanon(parent: Value, entries: seq<Entry>)
    requires forall e :: e in entries ==> e.value < parent
    ensures NormalizeEntries(parent, entries).Ok? <==> SafeEntries(entries)
    ensures NormalizeEntries(parent, entries).Ok? ==> NormalizeEntries(parent, entries).value == CanonEntries(parent, entries)
    decreases parent, |entries|
  {
    if entries != [] {
      NormalizeIsCanon(entries[0].value);
      NormalizeEntriesIsCanon(parent, entries[1..]);
      assert forall i :: 0 < i < |entries| ==> entries[i] == entries[1..][i - 1];
    }
  }

  // ----- canonical values are their own canonical form -----

  lemma {:induction false} CanonItemsAt(parent: Value, items: seq<Value>, i: nat)
    requires (forall i :: 0 <= i < |items| ==> items[i] < parent) && i < |items|
    ensures |CanonItems(parent, items)| == |items| && CanonItems(parent, items)[i] == Canon(items[i])
    decreases |items|
  {
    if i > 0 { CanonItemsAt(parent, items[1..], i - 1); }
    if |items| > 1 && i == 0 { CanonItemsAt(parent, items[1..], 0); }
  }

  lemma {:induction false} CanonEntriesAt(parent: Value, entries: seq<Entry>, i: nat)
    requires (forall e :: e in entries ==> e.value < parent) && i < |entries|
    ensures |CanonEntries(parent, entries)| == |entries|
    ensures CanonEntries(parent, entries)[i] == Entry(entries[i].key, Canon(entries[i].value))
    decreases |entries|
  {
    if i > 0 { CanonEntriesAt(parent, entries[1..], i - 1); }
    if |entries| > 1 && i == 0 { CanonEntriesAt(parent, entries[1..], 0); }
  }

  lemma {:induction false} CanonItemsStable(parent: Value, other: Value, items: seq<Value>)
    requires forall i :: 0 <= i < |items| ==> items[i] < parent && items[i] < other && Canon(items[i]) == items[i]
    ensures CanonItems(other, items) == items
    decreases |items|
  {
    if items != [] {
      CanonItemsStable(parent, other, items[1..]);
      assert items == [items[0]] + items[1..];
    }
  }

  lemma {:induction false} CanonEntriesStable(other: Value, entries: seq<Entry>)
    requires forall e :: e in entries ==> e.value < other && Canon(e.value) == e.value
    ensures CanonEntries(other, entries) == entries
    decreases |entries|
  {
    if entries != [] {
      CanonEntriesStable(other, entries[1..]);
      assert entries == [entries[0]] + entries[1..];
    }
  }

  lemma CanonEntriesSorted(v: Value, sorted: seq<Entry>)
    requires forall e :: e in sorted ==> e.value < v
    requires SortedBy(sorted, ByKey)
    ensures SortedBy(CanonEntries(v, sorted), ByKey)
  {
    var c := CanonEntries(v, sorted);
    if sorted != [] { CanonEntriesAt(v, sorted, 0); }
    forall i, j | 0 <= i < j < |c| ensures ByKey(c[i], c[j]) {
      CanonEntriesAt(v, sorted, i);
      CanonEntriesAt(v, sorted, j);
      assert ByKey(sorted[i], sorted[j]);
    }
  }

  /** Normalising twice is normalising once. */
  lemma {:induction false} CanonIdempotent(v: Value)
    ensures Canon(Canon(v)) == Canon(v)
    decreases v
  {
    match v
    case Array(items) =>
      var w := Canon(v);
      forall i | 0 <= i < |w.items| ensures Canon(w.items[i]) == w.items[i] && w.items[i] < w {
        if items != [] { CanonItemsAt(v, items, 0); }
        CanonItemsAt(v, items, i);
        CanonIdempotent(items[i]);
      }
      CanonItemsStable(w, w, w.items);
    case Object(entries) =>
      CanonObjectIdempotent(v);
    case _ =>
  }

  lemma {:induction false} CanonObjectIdempotent(v: Value)
    requires v.Object?
    ensures Canon(Canon(v)) == Canon(v)
    decreases v, 0
  {
    EntriesSmaller(v);
    var sorted := SortBy(v.entries, ByKey);
    var w := Canon(v);
    ObjectForm(v, sorted);
    ByKeyOrders();
    SortSorts(v.entries, ByKey);
    CanonEntriesSorted(v, sorted);
    SortKeepsSorted(w.entries, ByKey);
    EntriesSmaller(w);
    forall e | e in w.entries ensures Canon(e.value) == e.value {
      var i :| 0 <= i < |w.entries| && w.entries[i] == e;
      if sorted != [] { CanonEntriesAt(v, sorted, 0); }
      CanonEntriesAt(v, sorted, i);
      assert sorted[i] in sorted;
      CanonIdempotent(sorted[i].value);
    }
    CanonEntriesStable(w, w.entries);
  }

  // ----- printing depends on the canonical form alone -----

  lemma {:induction false} PrintItemsCanon(parent: Value, other: Value, items: seq<Value>, canon: seq<Value>)
    requires |canon| == |items|
    requires forall i :: 0 <= i < |items| ==> items[i] < parent && canon[i] < other && Print(canon[i]) == Print(items[i])
    ensures PrintItems(other, canon) == PrintItems(parent, items)
    decreases |items|
  {
    if |items| > 1 { PrintItemsCanon(parent, other, items[1..], canon[1..]); }
  }

  lemma {:induction false} PrintEntriesCanon(parent: Value, other: Value, entries: seq<Entry>, canon: seq<Entry>)
    requires |canon| == |entries|
    requires (forall e :: e in entries ==> e.value < parent) && (forall e :: e in canon ==> e.value < other)
    requires forall i :: 0 <= i < |entries| ==> canon[i].key == entries[i].key && Print(canon[i].value) == Print(entries[i].value)
    ensures PrintEntries(other, canon) == PrintEntries(parent, entries)
    decreases |entries|
  {
    if |entries| > 1 { PrintEntriesCanon(parent, other, entries[1..], canon[1..]); }
  }

  lemma {:induction false} PrintCanon(v: Value)
    ensures Print(Canon(v)) == Print(v)
    decreases v
  {
    match v
    case Array(items) =>
      var w := Canon(v);
      if items != [] { CanonItemsAt(v, items, 0); }
      forall i | 0 <= i < |items| ensures w.items[i] < w && Print(w.items[i]) == Print(items[i]) {
        CanonItemsAt(v, items, i);
        PrintCanon(items[i]);
      }
      PrintItemsCanon(v, w, items, w.items);
    case Object(entries) => PrintCanonObject(v);
    case _ =>
  }

  lemma {:induction false} PrintCanonObject(v: Value)
    requires v.Object?
    ensures Print(Canon(v)) == Print(v)
    decreases v, 0
  {
    EntriesSmaller(v);
    var sorted := SortBy(v.entries, ByKey);
    var w := Canon(v);
    ObjectForm(v, sorted);
    ByKeyOrders();
    SortSorts(v.entries, ByKey);
    CanonEntriesSorted(v, sorted);
    SortKeepsSorted(w.entries, ByKey);
    EntriesSmaller(w);
    ObjectForm(w, w.entries);
    if sorted != [] { CanonEntriesAt(v, sorted, 0); }
    forall i | 0 <= i < |sorted| ensures w.entries[i].key == sorted[i].key && Print(w.entries[i].value) == Print(sorted[i].value) {
      CanonEntriesAt(v, sorted, i);
      assert sorted[i] in sorted;
      PrintCanon(sorted[i].value);
    }
    PrintEntriesCanon(v, w, sorted, w.entries);
  }

  /** Two values print alike exactly when they have the same canonical form. */
  lemma PrintDeterminesCanon(v: Value, w: Value)
    ensures Print(v) == Print(w) <==> Canon(v) == Canon(w)
  {
    RoundTrip(v, []);
    RoundTrip(w, []);
    assert Print(v) + [] == Print(v) && Print(w) + [] == Print(w);
    PrintCanon(v);
    PrintCanon(w);
  }

  /** For values the bundle accepts: one text per normalised value, read back in full; normalising again changes nothing. */
  lemma UniquelyReadable(v: Value, w: Value)
    requires SafeKeys(v) && SafeKeys(w)
    ensures Print(v) == Print(w) <==> Normalize(v) == Normalize(w)
    ensures Normalize(v).Ok? && Read(Print(v)) == Some((Normalize(v).value, []))
    ensures Normalize(Normalize(v).value) == Normalize(v)
  {
    NormalizeIsCanon(v);
    NormalizeIsCanon(w);
    PrintDeterminesCanon(v, w);
    RoundTrip(v, []);
    assert Print(v) + [] == Print(v);
    CanonIdempotent(v);
    CanonKeepsSafe(v);
    NormalizeIsCanon(Canon(v));
  }

  lemma {:induction false} CanonKeepsSafe(v: Value)
    requires SafeKeys(v)
    ensures SafeKeys(Canon(v))
    decreases v
  {
    match v
    case Array(items) =>
      if items != [] { CanonItemsAt(v, items, 0); }
      forall i | 0 <= i < |items| ensures SafeKeys(Canon(v).items[i]) {
        CanonItemsAt(v, items, i);
        CanonKeepsSafe(items[i]);
      }
    case Object(entries) =>
      EntriesSmaller(v);
      var sorted := SortBy(entries, ByKey);
      ObjectForm(v, sorted);
      SafeEntriesSorted(entries);
      if sorted != [] { CanonEntriesAt(v, sorted, 0); }
      forall i | 0 <= i < |sorted| ensures Canon(v).entries[i].key !in UNSAFE_KEYS && SafeKeys(Canon(v).entries[i].value) {
        CanonEntriesAt(v, sorted, i);
        assert sorted[i] in sorted;
        CanonKeepsSafe(sorted[i].value);
      }
    case _ =>
  }

  /** An object of ECMAScript has each key once; the order its entries are enumerated in does not show. */
  lemma KeyOrderIgnored(entries: seq<Entry>, other: seq<Entry>)
    requires multiset(entries) == multiset(other)
    requires forall i, j :: 0 <= i < j < |entries| ==> entries[i].key != entries[j].key
    ensures Print(Object(entries)) == Print(Object(other)) && Normalize(Object(entries)) == Normalize(Object(other))
  {
    var v, w := Object(entries), Object(other);
    ByKeyOrders();
    forall e, f | e in entries && f in entries && ByKey(e, f) && ByKey(f, e) ensures e == f {
      TextTotal(e.key, f.key);
      var i :| 0 <= i < |entries| && entries[i] == e;
      var j :| 0 <= j < |entries| && entries[j] == f;
      assert i == j;
    }
    SortForgetsOrder(entries, other, ByKey);
    EntriesSmaller(v);
    EntriesSmaller(w);
    var sorted := SortBy(entries, ByKey);
    ObjectForm(v, sorted);
    ObjectForm(w, sorted);
    PrintEntriesCanon(v, w, sorted, sorted);
    NormalizeEntriesParent(v, w, sorted);
  }

  lemma {:induction false} NormalizeEntriesParent(parent: Value, other: Value, entries: seq<Entry>)
    requires forall e :: e in entries ==> e.value < parent && e.value < other
    ensures NormalizeEntries(parent, entries) == NormalizeEntries(other, entries)
    decreases |entries|
  {
    if entries != [] { NormalizeEntriesParent(parent, other, entries[1..]); }
  }

  // ----- the canonical form without the sort: the same content, keys rising -----

  /** `a` is a proper prefix of `b`, or smaller in the first unit in which they differ. */
  ghost predicate Before(a: Text, b: Text) {
    exists k :: 0 <= k <= |a| && k <= |b| && a[..k] == b[..k] && (k == |a| < |b| || (k < |a| && k < |b| && a[k] < b[k]))
  }

  lemma BeforeTail(a: Text, b: Text)
    requires a != [] && b != [] && a[0] == b[0] && Before(a, b)
    ensures Before(a[1..], b[1..])
  {
    var x, y := a[1..], b[1..];
    var k :| 0 <= k <= |a| && k <= |b| && a[..k] == b[..k] && (k == |a| < |b| || (k < |a| && k < |b| && a[k] < b[k]));
    assert x[..k - 1] == a[..k][1..] == b[..k][1..] == y[..k - 1];
  }

  lemma BeforeHead(a: Text, b: Text)
    requires a != [] && b != [] && a[0] == b[0] && Before(a[1..], b[1..])
    ensures Before(a, b)
  {
    var x, y := a[1..], b[1..];
    var k :| 0 <= k <= |x| && k <= |y| && x[..k] == y[..k] && (k == |x| < |y| || (k < |x| && k < |y| && x[k] < y[k]));
    assert a[..k + 1] == [a[0]] + x[..k] && b[..k + 1] == [b[0]] + y[..k];
  }

  lemma SamePrefix(a: Text, b: Text, k: int)
    requires 0 < k <= |a| && k <= |b| && a[..k] == b[..k]
    ensures a[0] == b[0]
  {
    assert a[0] == a[..k][0] == b[..k][0] == b[0];
  }

  lemma BeforeAtHead(a: Text, b: Text)
    requires b != [] && (a == [] || a[0] != b[0])
    ensures Before(a, b) <==> a == [] || a[0] < b[0]
  {
    assert a[..0] == b[..0];
    if Before(a, b) {
      var k :| 0 <= k <= |a| && k <= |b| && a[..k] == b[..k] && (k == |a| < |b| || (k < |a| && k < |b| && a[k] < b[k]));
      if k > 0 { SamePrefix(a, b, k); }
    }
  }

  lemma {:induction false} AtMostMeans(a: Text, b: Text)
    ensures TextAtMost(a, b) <==> a == b || Before(a, b)
  {
    if b != [] && (a == [] || a[0] != b[0]) {
      BeforeAtHead(a, b);
    } else if a != [] && b != [] {
      AtMostMeans(a[1..], b[1..]);
      assert a == [a[0]] + a[1..] && b == [b[0]] + b[1..];
      if Before(a, b) { BeforeTail(a, b); }
      if Before(a[1..], b[1..]) { BeforeHead(a, b); }
    }
  }

  /** As in every object of ECMAScript, no key occurs twice. */
  ghost predicate OwnKeys(v: Value)
    decreases v
  {
    match v
    case Array(items) => forall i :: 0 <= i < |items| ==> OwnKeys(items[i])
    case Object(entries) =>
      && (forall i, j :: 0 <= i < j < |entries| ==> entries[i].key != entries[j].key)
      && forall i :: 0 <= i < |entries| ==> OwnKeys(entries[i].value)
    case _ => true
  }

  ghost predicate Rising(v: Value)
    decreases v
  {
    match v
    case Array(items) => forall i :: 0 <= i < |items| ==> Rising(items[i])
    case Object(entries) =>
      && (forall i, j :: 0 <= i < j < |entries| ==> Before(entries[i].key, entries[j].key))
      && forall i :: 0 <= i < |entries| ==> Rising(entries[i].value)
    case _ => true
  }

  /** The same content: the order in which objects list their entries aside. */
  ghost predicate SameContent(v: Value, w: Value)
    decreases v, 2
  {
    match v
    case Array(items) => w.Array? && |w.items| == |items| && forall i :: 0 <= i < |items| ==> SameContent(items[i], w.items[i])
    case Object(entries) =>
      && w.Object?
      && (forall e :: e in entries ==> KeptIn(v, e, w.entries))
      && (forall f :: f in w.entries ==> TakenFrom(v, entries, f))
    case _ => v == w
  }

  ghost predicate KeptIn(parent: Value, e: Entry, entries: seq<Entry>)
    decreases parent, 1
  {
    exists f :: f in entries && SameEntry(parent, e, f)
  }

  ghost predicate TakenFrom(parent: Value, entries: seq<Entry>, f: Entry)
    decreases parent, 1
  {
    exists e :: e in entries && SameEntry(parent, e, f)
  }

  /** `e` is an entry of `parent`. */
  ghost predicate SameEntry(parent: Value, e: Entry, f: Entry)
    decreases parent, 0
  {
    e.key == f.key && e.value < parent && SameContent(e.value, f.value)
  }

  function CanonEntry(e: Entry): Entry {
    Entry(e.key, Canon(e.value))
  }

  /** The entries of the canonical form are those of the object, values in canonical form. */
  lemma CanonEntriesAre(v: Value)
    requires v.Object?
    ensures Canon(v).Object?
    ensures forall e :: e in v.entries ==> e.value < v && CanonEntry(e) in Canon(v).entries
    ensures forall f :: f in Canon(v).entries ==> exists e :: e in v.entries && f == CanonEntry(e)
  {
    EntriesSmaller(v);
    SortElements(v.entries, ByKey);
    var sorted := SortBy(v.entries, ByKey);
    var canon := Canon(v).entries;
    if sorted != [] { CanonEntriesAt(v, sorted, 0); }
    forall e | e in v.entries ensures e.value < v && CanonEntry(e) in canon {
      var i :| 0 <= i < |sorted| && sorted[i] == e;
      CanonEntriesAt(v, sorted, i);
      assert canon[i] in canon;
    }
    forall f | f in canon ensures exists e :: e in v.entries && f == CanonEntry(e) {
      var k :| 0 <= k < |canon| && canon[k] == f;
      CanonEntriesAt(v, sorted, k);
      assert sorted[k] in v.entries;
    }
  }

  lemma CanonKeysRise(v: Value)
    requires v.Object? && forall i, j :: 0 <= i < j < |v.entries| ==> v.entries[i].key != v.entries[j].key
    ensures forall i, j :: 0 <= i < j < |Canon(v).entries| ==> Before(Canon(v).entries[i].key, Canon(v).entries[j].key)
  {
    EntriesSmaller(v);
    var sorted := SortBy(v.entries, ByKey);
    ByKeyOrders();
    SortSorts(v.entries, ByKey);
    SortPermutes(v.entries, ByKey);
    SortElements(v.entries, ByKey);
    MultisetDistinct(v.entries, sorted);
    if sorted != [] { CanonEntriesAt(v, sorted, 0); }
    forall i, j | 0 <= i < j < |sorted| ensures Before(Canon(v).entries[i].key, Canon(v).entries[j].key) {
      CanonEntriesAt(v, sorted, i);
      CanonEntriesAt(v, sorted, j);
      assert sorted[i] in v.entries && sorted[j] in v.entries && ByKey(sorted[i], sorted[j]);
      AtMostMeans(sorted[i].key, sorted[j].key);
    }
  }

  lemma {:induction false} CanonRises(v: Value)
    requires OwnKeys(v)
    ensures Rising(Canon(v)) && SameContent(v, Canon(v))
    decreases v, 1
  {
    match v
    case Array(items) =>
      if items != [] { CanonItemsAt(v, items, 0); }
      forall i | 0 <= i < |items| ensures Rising(Canon(v).items[i]) && SameContent(items[i], Canon(v).items[i]) {
        CanonItemsAt(v, items, i);
        CanonRises(items[i]);
      }
    case Object(entries) =>
      var canon := Canon(v).entries;
      CanonEntriesAre(v);
      CanonKeysRise(v);
      forall e | e in entries ensures Rising(CanonEntry(e).value) && KeptIn(v, e, canon) {
        CanonEntryRises(v, e);
      }
      forall f | f in canon ensures TakenFrom(v, entries, f) {
        var e :| e in entries && f == CanonEntry(e);
        CanonEntryRises(v, e);
      }
      forall k | 0 <= k < |canon| ensures Rising(canon[k].value) {
        assert canon[k] in canon;
      }
    case _ =>
  }

  lemma {:induction false} CanonEntryRises(v: Value, e: Entry)
    requires v.Object? && OwnKeys(v) && e in v.entries
    ensures Rising(CanonEntry(e).value) && SameEntry(v, e, CanonEntry(e))
    decreases v, 0
  {
    CanonEntriesAre(v);
    var i :| 0 <= i < |v.entries| && v.entries[i] == e;
    CanonRises(v.entries[i].value);
  }

  /** Two lists in strictly rising order with the same entries are the same list. */
  lemma RisingUnique(a: seq<Entry>, b: seq<Entry>)
    requires forall i, j :: 0 <= i < j < |a| ==> Before(a[i].key, a[j].key)
    requires forall i, j :: 0 <= i < j < |b| ==> Before(b[i].key, b[j].key)
    requires forall e :: e in a <==> e in b
    ensures a == b
  {
    ByKeyOrders();
    forall x: Text, y: Text | Before(x, y) ensures TextAtMost(x, y) && x != y { AtMostMeans(x, y); }
    DistinctIsMultiset(a, b);
    forall x, y | x in a && y in a && ByKey(x, y) && ByKey(y, x) ensures x == y {
      TextTotal(x.key, y.key);
      var i :| 0 <= i < |a| && a[i] == x;
      var j :| 0 <= j < |a| && a[j] == y;
      assert i == j;
    }
    SortedUnique(a, b, ByKey);
  }

  lemma OnlyCanonEntries(v: Value, w: Value)
    requires v.Object? && w.Object?
    requires forall i, j :: 0 <= i < j < |v.entries| ==> v.entries[i].key != v.entries[j].key
    requires forall i, j :: 0 <= i < j < |w.entries| ==> Before(w.entries[i].key, w.entries[j].key)
    requires forall e :: e in v.entries ==> CanonEntry(e) in w.entries
    requires forall f :: f in w.entries ==> exists e :: e in v.entries && f == CanonEntry(e)
    ensures w == Canon(v)
  {
    var canon := Canon(v).entries;
    CanonEntriesAre(v);
    CanonKeysRise(v);
    forall f | f in w.entries ensures f in canon {
      var e :| e in v.entries && f == CanonEntry(e);
    }
    forall f | f in canon ensures f in w.entries {
      var e :| e in v.entries && f == CanonEntry(e);
    }
    RisingUnique(w.entries, canon);
  }

  lemma {:induction false} OnlyCanon(v: Value, w: Value)
    requires OwnKeys(v) && SameContent(v, w) && Rising(w)
    ensures w == Canon(v)
    decreases v, 1
  {
    match v
    case Array(items) =>
      if items != [] { CanonItemsAt(v, items, 0); }
      forall i | 0 <= i < |items| ensures w.items[i] == Canon(v).items[i] {
        CanonItemsAt(v, items, i);
        OnlyCanon(items[i], w.items[i]);
      }
      assert w.items == Canon(v).items;
    case Object(entries) =>
      forall e | e in entries ensures CanonEntry(e) in w.entries {
        assert KeptIn(v, e, w.entries);
        var f :| f in w.entries && SameEntry(v, e, f);
        OnlyCanonEntry(v, w, e, f);
      }
      forall f | f in w.entries ensures exists e :: e in entries && f == CanonEntry(e) {
        assert TakenFrom(v, entries, f);
        var e :| e in entries && SameEntry(v, e, f);
        OnlyCanonEntry(v, w, e, f);
      }
      OnlyCanonEntries(v, w);
    case _ =>
  }

  lemma {:induction false} OnlyCanonEntry(v: Value, w: Value, e: Entry, f: Entry)
    requires v.Object? && w.Object? && OwnKeys(v) && Rising(w) && e in v.entries && f in w.entries && SameEntry(v, e, f)
    ensures f == CanonEntry(e)
    decreases v, 0
  {
    var i :| 0 <= i < |v.entries| && v.entries[i] == e;
    var k :| 0 <= k < |w.entries| && w.entries[k] == f;
    OnlyCanon(e.value, w.entries[k].value);
  }

  /** The canonical form of a value is the one value with the same content in which the keys of every object rise. */
  lemma CanonIff(v: Value, w: Value)
    requires OwnKeys(v)
    ensures w == Canon(v) <==> SameContent(v, w) && Rising(w)
  {
    CanonRises(v);
    if SameContent(v, w) && Rising(w) { OnlyCanon(v, w); }
  }

  // ----- the text itself -----

  /** No control unit, and no surrogate without its partner. */
  ghost predicate WellFormed(s: Text) {
    if s == [] then true
    else if |s| > 1 && Lead(s[0]) && Trail(s[1]) then WellFormed(s[2..])
    else s[0] >= 0x20 && !Lead(s[0]) && !Trail(s[0]) && WellFormed(s[1..])
  }

  lemma {:induction false} WellFormedConcat(a: Text, b: Text)
    requires WellFormed(a) && WellFormed(b)
    ensures WellFormed(a + b)
    decreases |a|
  {
    if a == [] {
      assert a + b == b;
    } else if |a| > 1 && Lead(a[0]) && Trail(a[1]) {
      WellFormedConcat(a[2..], b);
      assert (a + b)[2..] == a[2..] + b;
    } else {
      WellFormedConcat(a[1..], b);
      assert (a + b)[1..] == a[1..] + b;
    }
  }

  lemma {:induction false} PlainWellFormed(s: Text)
    requires forall i :: 0 <= i < |s| ==> 0x20 <= s[i] < 0x80
    ensures WellFormed(s)
  {
    if s != [] { PlainWellFormed(s[1..]); }
  }

  lemma EscapeUnitWellFormed(c: CodeUnit)
    ensures WellFormed(EscapeUnit(c))
  {
    if ShortEscape(c).Some? || c < 0x20 || Lead(c) || Trail(c) {
      PlainWellFormed(EscapeUnit(c));
    } else {
      assert WellFormed(EscapeUnit(c)[1..]);
    }
  }

  lemma {:induction false} EscapeWellFormed(s: Text)
    ensures WellFormed(Escape(s))
  {
    if s == [] {
    } else if |s| > 1 && Lead(s[0]) && Trail(s[1]) {
      EscapeWellFormed(s[2..]);
      assert WellFormed([s[0], s[1]]);
      WellFormedConcat([s[0], s[1]], Escape(s[2..]));
    } else {
      EscapeUnitWellFormed(s[0]);
      EscapeWellFormed(s[1..]);
      WellFormedConcat(EscapeUnit(s[0]), Escape(s[1..]));
    }
  }

  lemma QuoteWellFormed(s: Text)
    ensures WellFormed(Quote(s))
  {
    EscapeWellFormed(s);
    PlainWellFormed([QUOTE]);
    WellFormedConcat([QUOTE], Escape(s));
    WellFormedConcat([QUOTE] + Escape(s), [QUOTE]);
  }

  lemma NumberWellFormed(n: int)
    ensures WellFormed(PrintNumber(n))
  {
    DigitsRoundTrip(if n < 0 then -n else n);
    PlainWellFormed(PrintNumber(n));
  }

  /** The printed form is well-formed UTF-16 with every control unit escaped, whatever strings and keys hold. */
  lemma {:induction false} PrintWellFormed(v: Value)
    ensures WellFormed(Print(v))
    decreases v
  {
    match v
    case Null => PlainWellFormed(NULL_TEXT);
    case Bool(b) => PlainWellFormed(if b then TRUE_TEXT else FALSE_TEXT);
    case Number(n) => NumberWellFormed(n);
    case String(s) => QuoteWellFormed(s);
    case Array(items) =>
      ItemsWellFormed(v, items);
      Enclosed(OPEN_BRACKET, PrintItems(v, items), CLOSE_BRACKET);
    case Object(entries) =>
      EntriesSmaller(v);
      EntriesWellFormed(v, SortBy(entries, ByKey));
      Enclosed(OPEN_BRACE, PrintEntries(v, SortBy(entries, ByKey)), CLOSE_BRACE);
  }

  lemma Enclosed(open: CodeUnit, text: Text, close: CodeUnit)
    requires 0x20 <= open < 0x80 && 0x20 <= close < 0x80 && WellFormed(text)
    ensures WellFormed([open] + text + [close])
  {
    PlainWellFormed([open]);
    PlainWellFormed([close]);
    WellFormedConcat([open], text);
    WellFormedConcat([open] + text, [close]);
  }

  lemma Separated(a: Text, sep: CodeUnit, b: Text)
    requires WellFormed(a) && 0x20 <= sep < 0x80 && WellFormed(b)
    ensures WellFormed(a + [sep] + b)
  {
    PlainWellFormed([sep]);
    WellFormedConcat(a, [sep]);
    WellFormedConcat(a + [sep], b);
  }

  lemma {:induction false} ItemsWellFormed(parent: Value, items: seq<Value>)
    requires forall i :: 0 <= i < |items| ==> items[i] < parent
    ensures WellFormed(PrintItems(parent, items))
    decreases parent, |items|
  {
    if items != [] { PrintWellFormed(items[0]); }
    if |items| > 1 {
      ItemsWellFormed(parent, items[1..]);
      Separated(Print(items[0]), COMMA, PrintItems(parent, items[1..]));
    }
  }

  lemma {:induction false} EntriesWellFormed(parent: Value, entries: seq<Entry>)
    requires forall e :: e in entries ==> e.value < parent
    ensures WellFormed(PrintEntries(parent, entries))
    decreases parent, |entries|
  {
    if entries != [] {
      var first := Quote(entries[0].key) + [COLON] + Print(entries[0].value);
      QuoteWellFormed(entries[0].key);
      PrintWellFormed(entries[0].value);
      Separated(Quote(entries[0].key), COLON, Print(entries[0].value));
      if |entries| > 1 {
        EntriesWellFormed(parent, entries[1..]);
        Separated(first, COMMA, PrintEntries(parent, entries[1..]));
      }
    }
  }
}
