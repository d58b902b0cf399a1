// What quoting prints: of all the ways to write a string, the shortest; and the
// code points that a text's bytes stand for give the text back.
module JsonQuoting {
  import opened Wrappers
  import opened JsonText

  // What may stand between the quotes: no control character and no unpaired
  // surrogate is written as itself.
  predicate Printable(t: Text) {
    WellFormed(t) && forall i :: 0 <= i < |t| ==> t[i] >= 0x20
  }

  // The text, up to the closing quote, is read as the string.
  predicate Writes(t: Text, s: Text) {
    Printable(t) && Unescape(t + [QUOTE]) == Some((s, []))
  }

  lemma EscapeWrites(s: Text)
    ensures Writes(Escape(s), s)
  {
    WellFormedEscape(s, []);
    assert Escape(s) + [] == Escape(s);
    EscapePrints(s);
    UnescapeEscape(s, []);
    assert Escape(s) + [QUOTE] + [] == Escape(s) + [QUOTE];
  }

  lemma {:induction false} EscapePrints(s: Text)
    ensures forall i :: 0 <= i < |Escape(s)| ==> Escape(s)[i] >= 0x20
  {
    if s == [] {
    } else if |s| >= 2 && Lead(s[0]) && Trail(s[1]) {
      EscapePrints(s[2..]);
    } else {
      EscapePrints(s[1..]);
      HexDigits(s[0]);
      assert forall n :: 0 <= n < 16 ==> HexDigit(n) >= 0x20;
    }
  }

  // One unit at a time, except that a surrogate pair is written as it is.
  lemma EscapeFront(c: CodeUnit, s: Text)
    ensures if s != [] && Lead(c) && Trail(s[0])
            then |Escape([c] + s)| + 10 == |EscapeUnit(c) + Escape(s)|
            else Escape([c] + s) == EscapeUnit(c) + Escape(s)
  {
    var t := [c] + s;
    assert t[1..] == s;
    if s != [] && Lead(c) && Trail(s[0]) {
      assert t[2..] == s[1..];
      assert EscapeUnit(c) == HexEscape(c) && EscapeUnit(s[0]) == HexEscape(s[0]);
      assert Escape(t) == [c, s[0]] + Escape(s[1..]);
      assert Escape(s) == HexEscape(s[0]) + Escape(s[1..]);
    }
  }

  // No text that is read as the string is shorter than the one printed, and none
  // other is as short.
  lemma {:induction false} QuotingIsShortest(t: Text, s: Text)
    requires Writes(t, s)
    ensures |Escape(s)| <= |t|
    ensures |t| == |Escape(s)| ==> t == Escape(s)
    decreases |t|
  {
    if t == [] {
      UnescapeEnd([]);
      assert t + [QUOTE] == [QUOTE] + [];
    } else {
      hide Unescape, Printable, Escape, EscapeUnit, Piece, PieceLength;
      var n, m := PieceLength(t), if Lead(t[0]) then 2 else 1;
      RestWrites(t, s);
      QuotingIsShortest(t[n..], s[m..]);
      assert t == t[..n] + t[n..] && s == s[..m] + s[m..];
      hide Writes;
      if Lead(t[0]) {
        PairStep(t, s);
      } else {
        assert s[..m] == [s[0]];
        UnitStep(t[..n], t[n..], s[0], s[1..]);
      }
    }
  }

  // The rest of the text is read as the rest of the string.
  lemma RestWrites(t: Text, s: Text)
    requires t != [] && Writes(t, s)
    ensures 1 <= PieceLength(t) <= |t|
    ensures var n := PieceLength(t);
            if Lead(t[0]) then n == 2 <= |s| && s[..2] == t[..2] && Trail(t[1]) && Writes(t[n..], s[2..])
            else s != [] && Piece(t[..n], s[0]) && Writes(t[n..], s[1..])
  {
    PieceRead(t, s);
    hide Unescape, WellFormed, ShortUnescape, HexEscape;
    PieceKeeps(t[..PieceLength(t)]);
    PrintableRest(t, PieceLength(t));
  }

  // No piece but a surrogate pair holds a surrogate.
  lemma PieceKeeps(p: Text)
    ensures forall c :: Piece(p, c) ==> forall i :: 0 <= i < |p| ==> !Surrogate(p[i])
  {
    assert forall n :: 0 <= n < 16 ==> !Surrogate(HexDigit(n));
    forall c | Piece(p, c)
      ensures forall i :: 0 <= i < |p| ==> !Surrogate(p[i])
    {
      HexDigits(c);
    }
  }

  lemma PairStep(t: Text, s: Text)
    requires |t| >= 2 && |s| >= 2 && s[..2] == t[..2] && Lead(t[0]) && Trail(t[1])
    requires |Escape(s[2..])| <= |t[2..]|
    requires |t[2..]| == |Escape(s[2..])| ==> t[2..] == Escape(s[2..])
    ensures |Escape(s)| <= |t|
    ensures |t| == |Escape(s)| ==> t == Escape(s)
  {
    hide EscapeUnit;
    assert s[0] == t[..2][0] && s[1] == t[..2][1];
    assert Escape(s) == [s[0], s[1]] + Escape(s[2..]);
    assert t == [t[0], t[1]] + t[2..];
  }

  lemma UnitStep(p: Text, rest: Text, c: CodeUnit, tail: Text)
    requires Piece(p, c) && |Escape(tail)| <= |rest|
    requires |rest| == |Escape(tail)| ==> rest == Escape(tail)
    ensures |Escape([c] + tail)| <= |p + rest|
    ensures |p + rest| == |Escape([c] + tail)| ==> p + rest == Escape([c] + tail)
  {
    PieceIsShortest(p, c);
    hide EscapeUnit, Escape, Piece;
    EscapeFront(c, tail);
  }

  // How many units of the text are read at once.
  function PieceLength(t: Text): nat
    requires t != []
  {
    if t[0] == BACKSLASH then (if |t| >= 6 && t[1] == LETTER_U then 6 else 2)
    else if Lead(t[0]) then 2
    else 1
  }

  // The unit that a piece stands for.
  ghost predicate Piece(p: Text, c: CodeUnit) {
    || (p == [c] && c != QUOTE && c != BACKSLASH && c >= 0x20 && !Surrogate(c))
    || (|p| == 2 && p[0] == BACKSLASH && p[1] != LETTER_U && ShortUnescape(p[1]) == Some(c))
    || p == HexEscape(c)
  }

  lemma PieceIsShortest(p: Text, c: CodeUnit)
    requires Piece(p, c)
    ensures |EscapeUnit(c)| <= |p|
    ensures |p| == |EscapeUnit(c)| ==> p == EscapeUnit(c)
  {
  }

  // Reading the text reads its first piece and then the rest.
  lemma PieceRead(t: Text, s: Text)
    requires t != [] && Writes(t, s)
    ensures PieceLength(t) <= |t|
    ensures var n := PieceLength(t);
            if Lead(t[0]) then
              |s| >= 2 && s[..2] == t[..2] && Trail(t[1]) && Unescape(t[n..] + [QUOTE]) == Some((s[2..], []))
            else
              s != [] && Piece(t[..n], s[0]) && Unescape(t[n..] + [QUOTE]) == Some((s[1..], []))
  {
    var u, n := t + [QUOTE], PieceLength(t);
    assert u[1..] == t[1..] + [QUOTE];
    if t[0] == BACKSLASH {
      EscapedRead(t, s);
    } else if Lead(t[0]) {
      assert u == [t[0]] + ([t[1]] + (t[2..] + [QUOTE]));
      UnescapePlain(t[0], [t[1]] + (t[2..] + [QUOTE]));
      UnescapePlain(t[1], t[2..] + [QUOTE]);
      var rest := Unescape(t[2..] + [QUOTE]);
      assert s == [t[0]] + ([t[1]] + rest.value.0);
      assert s[2..] == rest.value.0;
    } else if t[0] != QUOTE {
      assert u == [t[0]] + (t[1..] + [QUOTE]);
      UnescapePlain(t[0], t[1..] + [QUOTE]);
      assert t[..1] == [t[0]];
    }
  }

  lemma EscapedRead(t: Text, s: Text)
    requires t != [] && t[0] == BACKSLASH && Writes(t, s)
    ensures var n := PieceLength(t);
            n <= |t| && s != [] && Piece(t[..n], s[0]) && Unescape(t[n..] + [QUOTE]) == Some((s[1..], []))
  {
    var u := t + [QUOTE];
    NotClosed();
    assert |t| == 1 ==> u == [BACKSLASH, QUOTE];
    if |u| >= 6 && u[1] == LETTER_U {
      HexRead(t, s);
    } else {
      assert u == [BACKSLASH, t[1]] + (t[2..] + [QUOTE]);
      assert ShortUnescape(t[1]).Some?;
      UnescapeShort(t[1], t[2..] + [QUOTE]);
      assert t[..2] == [BACKSLASH, t[1]];
    }
  }

  lemma NotClosed()
    ensures Unescape([BACKSLASH, QUOTE]).None?
  {
    UnescapeShort(QUOTE, []);
    assert [BACKSLASH, QUOTE] + [] == [BACKSLASH, QUOTE];
  }

  lemma HexRead(t: Text, s: Text)
    requires |t| >= 5 && t[0] == BACKSLASH && t[1] == LETTER_U && Writes(t, s)
    ensures |t| >= 6 && s != [] && t[..6] == HexEscape(s[0]) && Unescape(t[6..] + [QUOTE]) == Some((s[1..], []))
  {
    var u := t + [QUOTE];
    assert HexValue(u[2]).Some? && HexValue(u[3]).Some? && HexValue(u[4]).Some? && HexValue(u[5]).Some?;
    assert HexValue(QUOTE).None?;
    assert u[6..] == t[6..] + [QUOTE];
    var a, b, c, d := HexValue(u[2]).value, HexValue(u[3]).value, HexValue(u[4]).value, HexValue(u[5]).value;
    HexOf(u[2]);
    HexOf(u[3]);
    HexOf(u[4]);
    HexOf(u[5]);
    var unit := a * 4096 + b * 256 + c * 16 + d;
    assert s[0] == unit;
    Nibbles(a, b, c, d);
    assert t[..6] == HexEscape(s[0]);
  }

  lemma HexOf(c: CodeUnit)
    ensures HexValue(c).Some? ==> 0 <= HexValue(c).value < 16 && HexDigit(HexValue(c).value) == c
  {
  }

  lemma Nibbles(a: int, b: int, c: int, d: int)
    requires 0 <= a < 16 && 0 <= b < 16 && 0 <= c < 16 && 0 <= d < 16
    ensures var n := a * 4096 + b * 256 + c * 16 + d;
            n / 4096 == a && n / 256 % 16 == b && n / 16 % 16 == c && n % 16 == d
  {
    var n := a * 4096 + b * 256 + c * 16 + d;
    Nibble(a * 256 + b * 16 + c, d);
    Nibble(a * 16 + b, c);
    Nibble(a, b);
    assert n / 256 == n / 16 / 16 && n / 4096 == n / 256 / 16;
  }

  lemma Nibble(q: int, r: int)
    requires 0 <= r < 16
    ensures (q * 16 + r) / 16 == q && (q * 16 + r) % 16 == r
  {
  }

  lemma PrintableRest(t: Text, n: nat)
    requires Printable(t) && t != [] && n == PieceLength(t) <= |t|
    requires Lead(t[0]) ==> Trail(t[1])
    requires !Lead(t[0]) ==> forall i :: 0 <= i < n ==> !Surrogate(t[i])
    ensures Printable(t[n..])
  {
    if !Lead(t[0]) { WellFormedDrop(t, n); }
  }

  lemma {:induction false} WellFormedDrop(t: Text, n: nat)
    requires WellFormed(t) && n <= |t| && forall i :: 0 <= i < n ==> !Surrogate(t[i])
    ensures WellFormed(t[n..])
  {
    if n > 0 {
      WellFormedDrop(t[1..], n - 1);
      assert t[1..][n - 1..] == t[n..];
    }
  }

  // ---- Code points ----

  // The units of one code point.
  function Units(c: int): Text
    requires 0 <= c < 0x110000
  {
    if c < 0x10000 then [c] else [0xD800 + (c - 0x10000) / 1024, 0xDC00 + (c - 0x10000) % 1024]
  }

  function AllUnits(scalars: seq<int>): Text
    requires ScalarRange(scalars)
  {
    if scalars == [] then [] else Units(scalars[0]) + AllUnits(scalars[1..])
  }

  // A text without unpaired surrogates is what its code points stand for.
  lemma {:induction false} ScalarsRead(t: Text)
    requires WellFormed(t)
    ensures ScalarRange(Scalars(t)) && AllUnits(Scalars(t)) == t
  {
    ScalarsInRange(t);
    if t == [] {
    } else if Lead(t[0]) {
      ScalarsRead(t[2..]);
      assert Scalars(t)[1..] == Scalars(t[2..]);
      assert Units(Scalars(t)[0]) == [t[0], t[1]];
      assert t == [t[0], t[1]] + t[2..];
    } else {
      ScalarsRead(t[1..]);
      assert Scalars(t)[1..] == Scalars(t[1..]);
      assert t == [t[0]] + t[1..];
    }
  }
}
