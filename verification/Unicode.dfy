/** What reading text rune by rune means: the decoder of `Utf8` is the inverse of the UTF-8 encoding form, and
    its code units are those of the UTF-16 encoding form (section 2.1 of RFC 2781). */
module Unicode {
  import opened Utf8

  /** The runes that text can hold: all but the surrogates. */
  predicate Scalar(r: int) { 0 <= r <= 0x10FFFF && !(0xD800 <= r <= 0xDFFF) }

  /** The UTF-8 form, by ranges of runes. */
  function Encode(r: int): (s: Text)
    requires Scalar(r)
    ensures 1 <= |s| <= 4
  {
    if r < 0x80 then [r]
    else if r < 0x800 then [0xC0 + r / 0x40, 0x80 + r % 0x40]
    else if r < 0x10000 then [0xE0 + r / 0x1000, 0x80 + r / 0x40 % 0x40, 0x80 + r % 0x40]
    else [0xF0 + r / 0x40000, 0x80 + r / 0x1000 % 0x40, 0x80 + r / 0x40 % 0x40, 0x80 + r % 0x40]
  }

  /** Splitting a number into digits of 6 bits. */
  lemma Digits(r: int)
    requires 0 <= r <= 0x10FFFF
    ensures r == r / 0x40 * 0x40 + r % 0x40
    ensures r / 0x40 == r / 0x1000 * 0x40 + r / 0x40 % 0x40
    ensures r / 0x1000 == r / 0x40000 * 0x40 + r / 0x1000 % 0x40
  {
  }

  /** Every rune reads back, whatever follows it. */
  lemma DecodesWhatWasEncoded(r: int, rest: Text)
    requires Scalar(r)
    ensures DecodeRune(Encode(r) + rest) == Decoded(r, |Encode(r)|)
  {
    Digits(r);
    var s := Encode(r) + rest;
    if r < 0x80 {
      assert s[0] == r;
    } else if r < 0x800 {
      assert s[0] == 0xC0 + r / 0x40 && s[1] == 0x80 + r % 0x40;
      assert AnnouncedSize(s[0]) == 2;
    } else if r < 0x10000 {
      assert s[0] == 0xE0 + r / 0x1000 && s[1] == 0x80 + r / 0x40 % 0x40 && s[2] == 0x80 + r % 0x40;
      assert AnnouncedSize(s[0]) == 3;
    } else {
      assert s[0] == 0xF0 + r / 0x40000 && s[1] == 0x80 + r / 0x1000 % 0x40;
      assert s[2] == 0x80 + r / 0x40 % 0x40 && s[3] == 0x80 + r % 0x40;
      assert AnnouncedSize(s[0]) == 4;
    }
  }

  ghost predicate StartsWith(s: Text, r: int) { Scalar(r) && Encode(r) <= s }

  /** A well-formed start is the encoding of a rune. */
  lemma WellFormedIsEncoded(s: Text)
    requires WellFormedRune(s)
    ensures StartsWith(s, DecodeRune(s).rune)
  {
    var d := DecodeRune(s);
    match AnnouncedSize(s[0]) {
      case 1 =>
      case 2 => TwoBytes(s[0] - 0xC0, s[1] - 0x80);
      case 3 => ThreeBytes(s[0] - 0xE0, s[1] - 0x80, s[2] - 0x80);
      case _ => FourBytes(s[0] - 0xF0, s[1] - 0x80, s[2] - 0x80, s[3] - 0x80);
    }
  }

  lemma TwoBytes(a: int, b: int)
    requires 0 <= a && 0 <= b < 0x40
    ensures var r := a * 0x40 + b; r / 0x40 == a && r % 0x40 == b
  {
  }

  lemma ThreeBytes(a: int, b: int, c: int)
    requires 0 <= a && 0 <= b < 0x40 && 0 <= c < 0x40
    ensures var r := a * 0x1000 + b * 0x40 + c; r / 0x1000 == a && r / 0x40 % 0x40 == b && r % 0x40 == c
  {
    TwoBytes(a * 0x40 + b, c);
    TwoBytes(a, b);
  }

  lemma FourBytes(a: int, b: int, c: int, d: int)
    requires 0 <= a && 0 <= b < 0x40 && 0 <= c < 0x40 && 0 <= d < 0x40
    ensures var r := a * 0x40000 + b * 0x1000 + c * 0x40 + d;
            r / 0x40000 == a && r / 0x1000 % 0x40 == b && r / 0x40 % 0x40 == c && r % 0x40 == d
  {
    ThreeBytes(a * 0x40 + b, c, d);
    TwoBytes(a, b);
  }

  /** A text that starts with no rune's encoding yields the replacement rune and one byte: with
      `DecodesWhatWasEncoded`, the decoder is determined. */
  lemma MalformedIsOneByte(s: Text)
    requires s != []
    ensures (exists r :: StartsWith(s, r)) || DecodeRune(s) == Decoded(0xFFFD, 1)
  {
    if WellFormedRune(s) { WellFormedIsEncoded(s); }
  }

  // ---------- whole texts ----------

  function EncodeAll(runes: seq<int>): Text
    requires forall i | 0 <= i < |runes| :: Scalar(runes[i])
  {
    if runes == [] then [] else Encode(runes[0]) + EncodeAll(runes[1..])
  }

  /** The UTF-16 form of a rune: itself, or a surrogate pair. */
  function Utf16(r: int): (units: seq<int>)
    requires Scalar(r)
    ensures forall u | u in units :: 0 <= u < 0x10000
  {
    if r < 0x10000 then [r]
    else [0xD800 + (r - 0x10000) / 0x400, 0xDC00 + (r - 0x10000) % 0x400]
  }

  /** What a sequence of units starts with. */
  function FromUtf16(units: seq<int>): int
    requires units != [] && (0xD800 <= units[0] <= 0xDBFF ==> |units| >= 2)
  {
    if 0xD800 <= units[0] <= 0xDBFF then 0x10000 + (units[0] - 0xD800) * 0x400 + (units[1] - 0xDC00) else units[0]
  }

  lemma Utf16ReadsBack(r: int, rest: seq<int>)
    requires Scalar(r)
    ensures FromUtf16(Utf16(r) + rest) == r
    ensures |Utf16(r)| == Width(r)
  {
    if r >= 0x10000 {
      var x := r - 0x10000;
      assert x == x / 0x400 * 0x400 + x % 0x400;
      var units := Utf16(r) + rest;
      assert units[0] == 0xD800 + x / 0x400 && units[1] == 0xDC00 + x % 0x400;
    }
  }

  function Utf16All(runes: seq<int>): seq<int>
    requires forall i | 0 <= i < |runes| :: Scalar(runes[i])
  {
    if runes == [] then [] else Utf16(runes[0]) + Utf16All(runes[1..])
  }

  /** The units of a text are the length of its UTF-16 form. */
  lemma {:induction false} UnitsAreUtf16(runes: seq<int>)
    requires forall i | 0 <= i < |runes| :: Scalar(runes[i])
    ensures Units(EncodeAll(runes)) == |Utf16All(runes)|
  {
    if runes != [] {
      hide Encode, DecodeRune, Utf16, Width;
      var s := EncodeAll(runes);
      DecodesWhatWasEncoded(runes[0], EncodeAll(runes[1..]));
      Utf16ReadsBack(runes[0], []);
      assert s[|Encode(runes[0])|..] == EncodeAll(runes[1..]);
      UnitsAreUtf16(runes[1..]);
    }
  }

  /** The boundaries of a text are the ends of its first runes: a cut never falls inside a character. */
  lemma {:induction false} BoundariesAreRunes(runes: seq<int>, i: nat)
    requires forall k | 0 <= k < |runes| :: Scalar(runes[k])
    ensures Boundary(EncodeAll(runes), i) <==> exists k | 0 <= k <= |runes| :: |EncodeAll(runes[..k])| == i
  {
    hide Encode, DecodeRune;
    var s := EncodeAll(runes);
    if i == 0 {
      assert runes[..0] == [] && |EncodeAll(runes[..0])| == 0;
    } else if runes != [] {
      var n, rest := |Encode(runes[0])|, runes[1..];
      DecodesWhatWasEncoded(runes[0], EncodeAll(rest));
      assert s[n..] == EncodeAll(rest);
      forall k | 0 < k <= |runes| ensures |EncodeAll(runes[..k])| == n + |EncodeAll(rest[..k - 1])| {
        assert runes[..k][0] == runes[0] && runes[..k][1..] == rest[..k - 1];
      }
      if i >= n {
        BoundariesAreRunes(rest, i - n);
        if Boundary(EncodeAll(rest), i - n) {
          var k :| 0 <= k <= |rest| && |EncodeAll(rest[..k])| == i - n;
          assert |EncodeAll(runes[..k + 1])| == i;
        }
      } else {
        assert runes[..0] == [];
      }
    }
  }
}
