/** Text as Go sees it: a sequence of bytes, read rune by rune.  `DecodeRune` follows the decoding
    that `for index, r := range text` performs, malformed bytes included. */
module Utf8 {
  type Byte = b: int | 0 <= b < 256

  type Text = seq<Byte>

  /** A decoded rune and the number of bytes it was read from. */
  datatype Decoded = Decoded(rune: int, size: nat)

  const RUNE_ERROR := 0xFFFD

  predicate Continuation(b: Byte) {
    0x80 <= b <= 0xBF
  }

  /** The second byte of a multi-byte sequence: the ranges exclude overlong forms, surrogates and
      runes above U+10FFFF. */
  predicate SecondByte(first: Byte, b: Byte) {
    match first
    case 0xE0 => 0xA0 <= b <= 0xBF
    case 0xED => 0x80 <= b <= 0x9F
    case 0xF0 => 0x90 <= b <= 0xBF
    case 0xF4 => 0x80 <= b <= 0x8F
    case _ => Continuation(b)
  }

  /** The number of bytes the first byte announces; 0 when no rune starts with it. */
  function AnnouncedSize(first: Byte): nat {
    if first < 0x80 then 1
    else if 0xC2 <= first <= 0xDF then 2
    else if 0xE0 <= first <= 0xEF then 3
    else if 0xF0 <= first <= 0xF4 then 4
    else 0
  }

  /** The bits a byte contributes once its marker is taken off. */
  function Payload(b: Byte, marker: int): int {
    b - marker
  }

  predicate WellFormedRune(s: Text) {
    s != [] &&
    var n := AnnouncedSize(s[0]);
    1 <= n <= |s| &&
    (n >= 2 ==> SecondByte(s[0], s[1])) &&
    (n >= 3 ==> Continuation(s[2])) &&
    (n >= 4 ==> Continuation(s[3]))
  }

  /** Reads one rune; a malformed or truncated sequence yields the replacement rune and one byte. */
  function DecodeRune(s: Text): (d: Decoded)
    requires s != []
    ensures 1 <= d.size <= |s|
    ensures d.rune > 0xFFFF <==> d.size == 4
    ensures 0 <= d.rune <= 0x10FFFF
  {
    if !WellFormedRune(s) then Decoded(RUNE_ERROR, 1)
    else
      match AnnouncedSize(s[0])
      case 1 => Decoded(s[0], 1)
      case 2 => Decoded(Payload(s[0], 0xC0) * 0x40 + Payload(s[1], 0x80), 2)
      case 3 => Decoded(Payload(s[0], 0xE0) * 0x1000 + Payload(s[1], 0x80) * 0x40 + Payload(s[2], 0x80), 3)
      case _ => Decoded(Payload(s[0], 0xF0) * 0x40000 + Payload(s[1], 0x80) * 0x1000
                        + Payload(s[2], 0x80) * 0x40 + Payload(s[3], 0x80), 4)
  }

  /** UTF-16 code units of one rune (section 2.1 of RFC 2781). */
  function Width(rune: int): nat {
    if rune > 0xFFFF then 2 else 1
  }

  /** UTF-16 code units of a whole text. */
  function Units(s: Text): nat
    decreases |s|
  {
    if s == [] then 0
    else var d := DecodeRune(s); Width(d.rune) + Units(s[d.size..])
  }

  /** The offset `i` is one that the range loop over `s` visits, or its end. */
  predicate Boundary(s: Text, i: nat)
    decreases |s|
  {
    i == 0 || (s != [] && var d := DecodeRune(s); d.size <= i && Boundary(s[d.size..], i - d.size))
  }

  // ---------- reading a rune looks at its own bytes only ----------

  lemma DecodeIsLocal(s: Text, k: nat)
    requires s != [] && DecodeRune(s).size <= k <= |s|
    ensures DecodeRune(s[..k]) == DecodeRune(s)
  {
  }

  lemma {:induction false} BoundaryInRange(s: Text, i: nat)
    requires Boundary(s, i)
    ensures i <= |s|
    decreases |s|
  {
    hide DecodeRune;
    if i != 0 {
      BoundaryInRange(s[DecodeRune(s).size..], i - DecodeRune(s).size);
    }
  }

  lemma {:induction false} EndIsBoundary(s: Text)
    ensures Boundary(s, |s|)
    decreases |s|
  {
    hide DecodeRune;
    if s != [] {
      EndIsBoundary(s[DecodeRune(s).size..]);
    }
  }

  /** Cutting a text at a boundary neither loses nor creates code units. */
  lemma {:induction false} UnitsSplit(s: Text, i: nat)
    requires Boundary(s, i)
    ensures i <= |s| && Units(s) == Units(s[..i]) + Units(s[i..])
    decreases |s|
  {
    hide DecodeRune;
    BoundaryInRange(s, i);
    if i == 0 {
      assert s[0..] == s && s[..0] == [];
    } else {
      var n := DecodeRune(s).size;
      UnitsSplit(s[n..], i - n);
      DecodeIsLocal(s, i);
      assert s[..i][n..] == s[n..][..i - n];
      assert s[n..][i - n..] == s[i..];
    }
  }

  /** Boundaries of a suffix that starts at a boundary are the boundaries of the whole text. */
  lemma {:induction false} BoundaryShift(s: Text, i: nat, j: nat)
    requires Boundary(s, i) && i <= |s|
    ensures Boundary(s, i + j) <==> Boundary(s[i..], j)
    decreases |s|
  {
    hide DecodeRune;
    if i == 0 {
      assert s[0..] == s;
    } else {
      var n := DecodeRune(s).size;
      BoundaryInRange(s[n..], i - n);
      BoundaryShift(s[n..], i - n, j);
      assert s[n..][i - n..] == s[i..];
    }
  }

  /** Whether `j` is a boundary of the part before the boundary `i` does not depend on what follows. */
  lemma {:induction false} BoundaryOfPrefix(s: Text, i: nat, j: nat)
    requires Boundary(s, i) && j <= i <= |s|
    ensures Boundary(s, j) <==> Boundary(s[..i], j)
    decreases |s|
  {
    hide DecodeRune;
    if i != 0 && j != 0 {
      var n := DecodeRune(s).size;
      DecodeIsLocal(s, i);
      assert s[..i][n..] == s[n..][..i - n];
      BoundaryInRange(s[n..], i - n);
      if n <= j {
        BoundaryOfPrefix(s[n..], i - n, j - n);
      }
    }
  }

  /** No boundary lies strictly inside the rune that starts at a boundary. */
  lemma NextBoundary(s: Text, i: nat, j: nat)
    requires Boundary(s, i) && Boundary(s, j) && i < j
    ensures i < |s| && i + DecodeRune(s[i..]).size <= j
    ensures Boundary(s, i + DecodeRune(s[i..]).size)
  {
    BoundaryInRange(s, i);
    BoundaryInRange(s, j);
    var rest := s[i..];
    BoundaryShift(s, i, j - i);
    BoundaryShift(s, i, DecodeRune(rest).size);
    assert Boundary(rest[DecodeRune(rest).size..], 0);
  }

  /** A boundary of a text is one of every range of it that contains it. */
  lemma BoundaryOfRange(s: Text, a: nat, b: nat, c: nat)
    requires a <= b <= c
    requires Boundary(s, a) && Boundary(s, b) && Boundary(s, c)
    ensures c <= |s| && Boundary(s[a..c], b - a)
  {
    hide DecodeRune;
    BoundaryInRange(s, c);
    BoundaryOfPrefix(s, c, a);
    BoundaryOfPrefix(s, c, b);
    BoundaryShift(s[..c], a, b - a);
    assert s[..c][a..] == s[a..c];
  }

  lemma UnitsOfRange(s: Text, a: nat, b: nat, c: nat)
    requires a <= b <= c
    requires Boundary(s, a) && Boundary(s, b) && Boundary(s, c)
    ensures c <= |s| && Units(s[a..c]) == Units(s[a..b]) + Units(s[b..c])
  {
    hide DecodeRune;
    BoundaryOfRange(s, a, b, c);
    var r := s[a..c];
    UnitsSplit(r, b - a);
    assert r[..b - a] == s[a..b];
    assert r[b - a..] == s[b..c];
  }

  lemma UnitsOfOneRune(s: Text)
    requires s != []
    ensures var d := DecodeRune(s); Units(s[..d.size]) == Width(d.rune)
  {
    var d := DecodeRune(s);
    DecodeIsLocal(s, d.size);
    assert s[..d.size][d.size..] == [];
  }

  /** Adding the next rune to a range adds its width. */
  lemma UnitsStep(s: Text, start: nat, index: nat)
    requires start <= index < |s| && Boundary(s, start) && Boundary(s, index)
    ensures var d := DecodeRune(s[index..]);
            index + d.size <= |s| && Boundary(s, index + d.size)
            && Units(s[start..index + d.size]) == Units(s[start..index]) + Width(d.rune)
  {
    hide DecodeRune;
    EndIsBoundary(s);
    NextBoundary(s, index, |s|);
    var n := DecodeRune(s[index..]).size;
    UnitsOfRange(s, start, index, index + n);
    UnitsOfOneRune(s[index..]);
    assert s[index..index + n] == s[index..][..n];
  }
}
