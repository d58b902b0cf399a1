// String quoting of JSON.stringify, its reading back, and the UTF-8 bytes of a text.
// A string is a sequence of UTF-16 code units, as in JavaScript: sort() compares
// keys by code unit, and JSON.stringify escapes unpaired surrogates.
module JsonText {
  import opened Wrappers

  type CodeUnit = n: int | 0 <= n < 0x10000
  type Text = seq<CodeUnit>

  const QUOTE: CodeUnit := 0x22
  const BACKSLASH: CodeUnit := 0x5C
  const COMMA: CodeUnit := 0x2C
  const COLON: CodeUnit := 0x3A
  const OPEN_BRACKET: CodeUnit := 0x5B
  const CLOSE_BRACKET: CodeUnit := 0x5D
  const OPEN_BRACE: CodeUnit := 0x7B
  const CLOSE_BRACE: CodeUnit := 0x7D
  const LETTER_U: CodeUnit := 0x75

  predicate Lead(c: CodeUnit) { 0xD800 <= c < 0xDC00 }

  predicate Trail(c: CodeUnit) { 0xDC00 <= c < 0xE000 }

  predicate Surrogate(c: CodeUnit) { 0xD800 <= c < 0xE000 }

  // The letter after the backslash in a two-unit escape, if c has one.
  function ShortEscape(c: CodeUnit): Option<CodeUnit> {
    if c == 0x08 then Some(0x62)
    else if c == 0x09 then Some(0x74)
    else if c == 0x0A then Some(0x6E)
    else if c == 0x0C then Some(0x66)
    else if c == 0x0D then Some(0x72)
    else if c == QUOTE || c == BACKSLASH then Some(c)
    else None
  }

  function ShortUnescape(c: CodeUnit): Option<CodeUnit> {
    if c == 0x62 then Some(0x08)
    else if c == 0x74 then Some(0x09)
    else if c == 0x6E then Some(0x0A)
    else if c == 0x66 then Some(0x0C)
    else if c == 0x72 then Some(0x0D)
    else if c == QUOTE || c == BACKSLASH then Some(c)
    else None
  }

  function HexDigit(n: int): CodeUnit
    requires 0 <= n < 16
  {
    if n < 10 then 0x30 + n else 0x61 + (n - 10)
  }

  function HexValue(c: CodeUnit): Option<int> {
    if 0x30 <= c <= 0x39 then Some(c - 0x30)
    else if 0x61 <= c <= 0x66 then Some(c - 0x61 + 10)
    else None
  }

  function HexEscape(c: CodeUnit): Text {
    [BACKSLASH, LETTER_U, HexDigit(c / 4096), HexDigit(c / 256 % 16), HexDigit(c / 16 % 16), HexDigit(c % 16)]
  }

  function EscapeUnit(c: CodeUnit): Text {
    if ShortEscape(c).Some? then [BACKSLASH, ShortEscape(c).value]
    else if c < 0x20 || Surrogate(c) then HexEscape(c)
    else [c]
  }

  // JSON.stringify on a string, without the quotes: surrogate pairs pass through,
  // unpaired surrogates are escaped.
  function Escape(s: Text): Text {
    if s == [] then []
    else if |s| >= 2 && Lead(s[0]) && Trail(s[1]) then [s[0], s[1]] + Escape(s[2..])
    else EscapeUnit(s[0]) + Escape(s[1..])
  }

  function Quote(s: Text): Text {
    [QUOTE] + Escape(s) + [QUOTE]
  }

  // The string body at the front of t up to its closing quote, and what follows.
  function Unescape(t: Text): (r: Option<(Text, Text)>)
    ensures r.Some? ==> |r.value.1| < |t|
  {
    if t == [] then None
    else if t[0] == QUOTE then Some(([], t[1..]))
    else if t[0] != BACKSLASH then Prepend(t[0], Unescape(t[1..]))
    else if |t| >= 6 && t[1] == LETTER_U then
      match (HexValue(t[2]), HexValue(t[3]), HexValue(t[4]), HexValue(t[5]))
      case (Some(a), Some(b), Some(c), Some(d)) =>
        Prepend(a * 4096 + b * 256 + c * 16 + d, Unescape(t[6..]))
      case _ => None
    else if |t| >= 2 && ShortUnescape(t[1]).Some? then
      Prepend(ShortUnescape(t[1]).value, Unescape(t[2..]))
    else None
  }

  function Prepend(c: CodeUnit, r: Option<(Text, Text)>): Option<(Text, Text)> {
    match r
    case None => None
    case Some((s, rest)) => Some(([c] + s, rest))
  }

  lemma UnescapeShort(c: CodeUnit, t: Text)
    requires c != LETTER_U && ShortUnescape(c).Some?
    ensures Unescape([BACKSLASH, c] + t) == Prepend(ShortUnescape(c).value, Unescape(t))
  {
    assert ([BACKSLASH, c] + t)[2..] == t;
  }

  lemma UnescapeHex(c: CodeUnit, t: Text)
    ensures Unescape(HexEscape(c) + t) == Prepend(c, Unescape(t))
  {
    HexDigits(c);
    var u := HexEscape(c) + t;
    assert u[6..] == t;
    assert u[0] == BACKSLASH && u[1] == LETTER_U;
    assert u[2] == HexDigit(c / 4096) && u[3] == HexDigit(c / 256 % 16);
    assert u[4] == HexDigit(c / 16 % 16) && u[5] == HexDigit(c % 16);
  }

  lemma UnescapeUnit(c: CodeUnit, t: Text)
    ensures Unescape(EscapeUnit(c) + t) == Prepend(c, Unescape(t))
  {
    hide Unescape, HexEscape;
    if ShortEscape(c).Some? {
      UnescapeShort(ShortEscape(c).value, t);
    } else if c < 0x20 || Surrogate(c) {
      UnescapeHex(c, t);
    } else {
      UnescapePlain(c, t);
    }
  }

  lemma HexDigits(c: CodeUnit)
    ensures c == c / 4096 * 4096 + c / 256 % 16 * 256 + c / 16 % 16 * 16 + c % 16
    ensures HexValue(HexDigit(c / 4096)) == Some(c / 4096)
    ensures HexValue(HexDigit(c / 256 % 16)) == Some(c / 256 % 16)
    ensures HexValue(HexDigit(c / 16 % 16)) == Some(c / 16 % 16)
    ensures HexValue(HexDigit(c % 16)) == Some(c % 16)
  {
    assert c / 4096 == c / 256 / 16 && c / 256 == c / 16 / 16;
  }

  lemma UnescapePlain(c: CodeUnit, t: Text)
    requires c != QUOTE && c != BACKSLASH
    ensures Unescape([c] + t) == Prepend(c, Unescape(t))
  {
    assert ([c] + t)[1..] == t;
  }

  lemma UnescapeEnd(t: Text)
    ensures Unescape([QUOTE] + t) == Some(([], t))
  {
    assert ([QUOTE] + t)[1..] == t;
  }

  // Reading back a printed string gives the string and leaves the rest.
  lemma {:induction false} UnescapeEscape(s: Text, rest: Text)
    ensures Unescape(Escape(s) + [QUOTE] + rest) == Some((s, rest))
  {
    hide Unescape, EscapeUnit;
    if s == [] {
      assert Escape(s) + [QUOTE] + rest == [QUOTE] + rest;
      UnescapeEnd(rest);
    } else if |s| >= 2 && Lead(s[0]) && Trail(s[1]) {
      var tail := Escape(s[2..]) + [QUOTE] + rest;
      UnescapeEscape(s[2..], rest);
      assert Escape(s) + [QUOTE] + rest == [s[0]] + ([s[1]] + tail);
      UnescapePlain(s[0], [s[1]] + tail);
      UnescapePlain(s[1], tail);
      assert [s[0]] + ([s[1]] + s[2..]) == s;
    } else {
      var tail := Escape(s[1..]) + [QUOTE] + rest;
      UnescapeEscape(s[1..], rest);
      assert Escape(s) + [QUOTE] + rest == EscapeUnit(s[0]) + tail;
      UnescapeUnit(s[0], tail);
      assert [s[0]] + s[1..] == s;
    }
  }

  // ---- UTF-8 bytes: TextEncoder.encode ----

  // No unpaired surrogate: such a text has a UTF-8 form of its own.
  predicate WellFormed(t: Text) {
    if t == [] then true
    else if Lead(t[0]) then |t| >= 2 && Trail(t[1]) && WellFormed(t[2..])
    else !Trail(t[0]) && WellFormed(t[1..])
  }

  // Code points; an unpaired surrogate becomes U+FFFD, as TextEncoder does.
  function Scalars(t: Text): seq<int> {
    if t == [] then []
    else if |t| >= 2 && Lead(t[0]) && Trail(t[1]) then
      [0x10000 + (t[0] - 0xD800) * 1024 + (t[1] - 0xDC00)] + Scalars(t[2..])
    else if Surrogate(t[0]) then [0xFFFD] + Scalars(t[1..])
    else [t[0]] + Scalars(t[1..])
  }

  function Utf8(c: int): (r: seq<int>)
    ensures 1 <= |r| <= 4
  {
    if c < 0x80 then [c]
    else if c < 0x800 then [0xC0 + c / 64, 0x80 + c % 64]
    else if c < 0x10000 then [0xE0 + c / 4096, 0x80 + c / 64 % 64, 0x80 + c % 64]
    else [0xF0 + c / 262144, 0x80 + c / 4096 % 64, 0x80 + c / 64 % 64, 0x80 + c % 64]
  }

  function Bytes(scalars: seq<int>): (r: seq<int>)
    ensures |scalars| <= |r|
  {
    if scalars == [] then [] else Utf8(scalars[0]) + Bytes(scalars[1..])
  }

  function Encode(t: Text): seq<int> {
    Bytes(Scalars(t))
  }

  ghost predicate ScalarRange(s: seq<int>) {
    forall i :: 0 <= i < |s| ==> 0 <= s[i] < 0x110000
  }

  lemma {:induction false} ScalarsInRange(t: Text)
    ensures ScalarRange(Scalars(t))
  {
    if t == [] {
    } else if |t| >= 2 && Lead(t[0]) && Trail(t[1]) {
      ScalarsInRange(t[2..]);
    } else {
      ScalarsInRange(t[1..]);
    }
  }

  lemma Utf8Front(c: int, d: int, x: seq<int>, y: seq<int>)
    requires 0 <= c < 0x110000 && 0 <= d < 0x110000
    requires Utf8(c) + x == Utf8(d) + y
    ensures c == d && x == y
  {
    var p := Utf8(c) + x;
    var q := Utf8(d) + y;
    assert p[0] == Utf8(c)[0] && q[0] == Utf8(d)[0];
    assert |Utf8(c)| == |Utf8(d)|;
    assert forall i :: 0 <= i < |Utf8(c)| ==> Utf8(c)[i] == p[i] && Utf8(d)[i] == q[i];
    assert Utf8(c) == Utf8(d);
    Utf8Value(c);
    Utf8Value(d);
    assert p[|Utf8(c)|..] == x && q[|Utf8(d)|..] == y;
  }

  // The code point as a function of its bytes.
  function Utf8Decode(b: seq<int>): int
    requires 1 <= |b| <= 4
  {
    if |b| == 1 then b[0]
    else if |b| == 2 then (b[0] - 0xC0) * 64 + (b[1] - 0x80)
    else if |b| == 3 then (b[0] - 0xE0) * 4096 + (b[1] - 0x80) * 64 + (b[2] - 0x80)
    else (b[0] - 0xF0) * 262144 + (b[1] - 0x80) * 4096 + (b[2] - 0x80) * 64 + (b[3] - 0x80)
  }

  lemma Utf8Value(c: int)
    requires 0 <= c < 0x110000
    ensures Utf8Decode(Utf8(c)) == c
  {
    assert c / 4096 == c / 64 / 64 && c / 262144 == c / 4096 / 64;
  }

  lemma {:induction false} BytesInjective(a: seq<int>, b: seq<int>)
    requires ScalarRange(a) && ScalarRange(b)
    requires Bytes(a) == Bytes(b)
    ensures a == b
  {
    if a != [] && b != [] {
      Utf8Front(a[0], b[0], Bytes(a[1..]), Bytes(b[1..]));
      BytesInjective(a[1..], b[1..]);
      assert a == [a[0]] + a[1..] && b == [b[0]] + b[1..];
    }
  }

  lemma {:induction false} ScalarsInjective(a: Text, b: Text)
    requires WellFormed(a) && WellFormed(b)
    requires Scalars(a) == Scalars(b)
    ensures a == b
  {
    if a == [] || b == [] {
    } else {
      var m := if Lead(a[0]) then 2 else 1;
      var n := if Lead(b[0]) then 2 else 1;
      assert Scalars(a)[1..] == Scalars(a[m..]) && Scalars(b)[1..] == Scalars(b[n..]);
      assert Scalars(a)[0] == Scalars(b)[0];
      ScalarsInjective(a[m..], b[n..]);
      assert a == a[..m] + a[m..] && b == b[..n] + b[n..];
      assert m == n && a[..m] == b[..n];
    }
  }

  // Two texts without unpaired surrogates have the same bytes only when equal.
  lemma EncodeInjective(a: Text, b: Text)
    requires WellFormed(a) && WellFormed(b)
    requires Encode(a) == Encode(b)
    ensures a == b
  {
    ScalarsInRange(a);
    ScalarsInRange(b);
    BytesInjective(Scalars(a), Scalars(b));
    ScalarsInjective(a, b);
  }

  lemma WellFormedFront(c: CodeUnit, t: Text)
    requires !Surrogate(c) && WellFormed(t)
    ensures WellFormed([c] + t)
  {
    assert ([c] + t)[1..] == t;
  }

  lemma {:induction false} WellFormedPlain(p: Text, t: Text)
    requires WellFormed(t)
    requires forall i :: 0 <= i < |p| ==> !Surrogate(p[i])
    ensures WellFormed(p + t)
  {
    if p == [] {
      assert p + t == t;
    } else {
      WellFormedPlain(p[1..], t);
      assert p + t == [p[0]] + (p[1..] + t);
      WellFormedFront(p[0], p[1..] + t);
    }
  }

  lemma WellFormedUnit(c: CodeUnit, t: Text)
    requires WellFormed(t)
    ensures WellFormed(EscapeUnit(c) + t)
  {
    var e := EscapeUnit(c);
    if ShortEscape(c).Some? {
      assert !Surrogate(e[0]) && !Surrogate(e[1]);
    } else if c < 0x20 || Surrogate(c) {
      HexDigits(c);
      assert forall n :: 0 <= n < 16 ==> !Surrogate(HexDigit(n));
      assert !Surrogate(e[0]) && !Surrogate(e[1]) && !Surrogate(e[2]) && !Surrogate(e[3]) && !Surrogate(e[4])
        && !Surrogate(e[5]);
    } else {
      assert !Surrogate(e[0]);
    }
    WellFormedPlain(e, t);
  }

  lemma WellFormedPair(a: CodeUnit, b: CodeUnit, t: Text)
    requires Lead(a) && Trail(b) && WellFormed(t)
    ensures WellFormed([a, b] + t)
  {
    assert ([a, b] + t)[2..] == t;
  }

  lemma {:induction false} WellFormedEscape(s: Text, t: Text)
    requires WellFormed(t)
    ensures WellFormed(Escape(s) + t)
  {
    hide WellFormed, EscapeUnit;
    if s == [] {
      assert Escape(s) + t == t;
    } else if |s| >= 2 && Lead(s[0]) && Trail(s[1]) {
      WellFormedEscape(s[2..], t);
      assert Escape(s) + t == [s[0], s[1]] + (Escape(s[2..]) + t);
      WellFormedPair(s[0], s[1], Escape(s[2..]) + t);
    } else {
      WellFormedEscape(s[1..], t);
      assert Escape(s) + t == EscapeUnit(s[0]) + (Escape(s[1..]) + t);
      WellFormedUnit(s[0], Escape(s[1..]) + t);
    }
  }

  lemma WellFormedQuote(s: Text, t: Text)
    requires WellFormed(t)
    ensures WellFormed(Quote(s) + t)
  {
    WellFormedFront(QUOTE, t);
    WellFormedEscape(s, [QUOTE] + t);
    assert Quote(s) + t == [QUOTE] + (Escape(s) + ([QUOTE] + t));
    WellFormedFront(QUOTE, Escape(s) + ([QUOTE] + t));
  }
}
