/** Splitting a reply for channels that limit messages by UTF-16 length
    (internal/channel/presentation.go). */
module Presentation {
  import opened Utf8

  function Flatten(chunks: seq<Text>): Text {
    if chunks == [] then [] else chunks[0] + Flatten(chunks[1..])
  }

  /** A way to deliver `text`: non-empty pieces cut at rune boundaries, none over the limit, that
      together are exactly the text. */
  ghost predicate Delivers(chunks: seq<Text>, text: Text, limit: int) {
    && Flatten(chunks) == text
    && (forall k | 0 <= k < |chunks| :: chunks[k] != [] && Units(chunks[k]) <= limit)
    && (forall k | 0 <= k <= |chunks| :: Boundary(text, |Flatten(chunks[..k])|))
  }

  /** Every piece but the last would go over the limit with one more rune of what follows it. */
  ghost predicate Filled(chunks: seq<Text>, text: Text, limit: int) {
    forall k | 0 <= k < |chunks| - 1 :: Full(chunks[k], text, |Flatten(chunks[..k + 1])|, limit)
  }

  /** The rune at `next` does not fit behind `piece`. */
  ghost predicate Full(piece: Text, text: Text, next: nat, limit: int) {
    next < |text| && Units(piece) + Width(DecodeRune(text[next..]).rune) > limit
  }

  lemma {:induction false} FlattenAppend(chunks: seq<Text>, last: Text)
    ensures Flatten(chunks + [last]) == Flatten(chunks) + last
  {
    if chunks == [] {
      assert Flatten([last]) == last + Flatten([]);
    } else {
      assert (chunks + [last])[1..] == chunks[1..] + [last];
      FlattenAppend(chunks[1..], last);
    }
  }

  lemma FlattenPrefix(chunks: seq<Text>, k: nat)
    requires k < |chunks|
    ensures Flatten(chunks[..k + 1]) == Flatten(chunks[..k]) + chunks[k]
  {
    assert chunks[..k + 1] == chunks[..k] + [chunks[k]];
    FlattenAppend(chunks[..k], chunks[k]);
  }

  lemma {:induction false} FlattenIsPrefix(chunks: seq<Text>, k: nat)
    requires k <= |chunks|
    ensures |Flatten(chunks[..k])| <= |Flatten(chunks)|
    ensures Flatten(chunks[..k]) == Flatten(chunks)[..|Flatten(chunks[..k])|]
    decreases |chunks| - k
  {
    if k == |chunks| {
      assert chunks[..k] == chunks;
    } else {
      FlattenPrefix(chunks, k);
      FlattenIsPrefix(chunks, k + 1);
    }
  }

  /** Piece `k` is the text between its two cuts. */
  lemma PieceAt(chunks: seq<Text>, text: Text, k: nat)
    requires k < |chunks| && Flatten(chunks) == text
    ensures var a := |Flatten(chunks[..k])|; var b := |Flatten(chunks[..k + 1])|;
            b == a + |chunks[k]| && b <= |text| && chunks[k] == text[a..b]
  {
    FlattenPrefix(chunks, k);
    FlattenIsPrefix(chunks, k + 1);
    var a := |Flatten(chunks[..k])|;
    var b := |Flatten(chunks[..k + 1])|;
    assert text[..b] == Flatten(chunks[..k]) + chunks[k];
    assert text[a..b] == text[..b][a..];
  }

  /** Code units grow along the boundaries of a text. */
  lemma UnitsBetween(text: Text, a: nat, b: nat, c: nat, d: nat)
    requires a <= b <= c <= d
    requires Boundary(text, a) && Boundary(text, b) && Boundary(text, c) && Boundary(text, d)
    ensures d <= |text| && Units(text[b..c]) <= Units(text[a..d])
  {
    BoundaryInRange(text, d);
    UnitsOfRange(text, a, b, d);
    UnitsOfRange(text, b, c, d);
  }

  /** Whatever partition is compared with it, a filled one has its cuts at least as far along. */
  lemma {:induction false} FilledStaysAhead(chunks: seq<Text>, other: seq<Text>, text: Text, limit: int, k: nat)
    requires Delivers(chunks, text, limit) && Filled(chunks, text, limit) && Delivers(other, text, limit)
    requires k < |chunks| && k <= |other|
    ensures |Flatten(other[..k])| <= |Flatten(chunks[..k])|
  {
    hide DecodeRune;
    if k != 0 {
      FilledStaysAhead(chunks, other, text, limit, k - 1);
      PieceAt(chunks, text, k - 1);
      PieceAt(other, text, k - 1);
      var a, b := |Flatten(chunks[..k - 1])|, |Flatten(chunks[..k])|;
      var c, d := |Flatten(other[..k - 1])|, |Flatten(other[..k])|;
      if b < d {
        NextBoundary(text, b, d);
        UnitsStep(text, a, b);
        UnitsBetween(text, c, a, b + DecodeRune(text[b..]).size, d);
        assert false;
      }
    }
  }

  /** No partition within the limit has fewer pieces than a filled one. */
  lemma FilledIsOptimal(chunks: seq<Text>, other: seq<Text>, text: Text, limit: int)
    requires Delivers(chunks, text, limit) && Filled(chunks, text, limit) && Delivers(other, text, limit)
    ensures |chunks| <= |other|
  {
    if |other| < |chunks| {
      var k := |other|;
      FilledStaysAhead(chunks, other, text, limit, k);
      assert other[..k] == other;
      PieceAt(chunks, text, k);
      assert false;
    }
  }

  /** All pieces but the last waste at most one code unit, and none is lost. */
  lemma FilledWastesLittle(chunks: seq<Text>, text: Text, limit: int)
    requires Delivers(chunks, text, limit) && Filled(chunks, text, limit)
    ensures forall k | 0 <= k < |chunks| - 1 :: limit - 1 <= Units(chunks[k]) <= limit
    ensures |chunks| > 0 ==> (|chunks| - 1) * (limit - 1) <= Units(text)
  {
    if |chunks| > 0 {
      UnitsBeforeCut(chunks, text, limit, |chunks| - 1);
      var cut := |Flatten(chunks[..|chunks| - 1])|;
      UnitsSplit(text, cut);
    }
  }

  lemma OneMore(n: nat, x: int)
    ensures (n + 1) * x == n * x + x
  {
  }

  lemma {:induction false} UnitsBeforeCut(chunks: seq<Text>, text: Text, limit: int, k: nat)
    requires Delivers(chunks, text, limit) && Filled(chunks, text, limit) && k < |chunks|
    ensures var cut := |Flatten(chunks[..k])|;
            cut <= |text| && k * (limit - 1) <= Units(text[..cut])
  {
    hide DecodeRune, Units;
    if k != 0 {
      UnitsBeforeCut(chunks, text, limit, k - 1);
      PieceAt(chunks, text, k - 1);
      var a, b := |Flatten(chunks[..k - 1])|, |Flatten(chunks[..k])|;
      UnitsOfRange(text, 0, a, b);
      assert text[0..a] == text[..a] && text[0..b] == text[..b];
      OneMore(k - 1, limit - 1);
      assert Units(text[..b]) >= Units(text[..a]) + (limit - 1);
    }
  }

  /** What the loop has done when it stands at `start`: the pieces so far are final, and each was
      closed because the next rune did not fit. */
  ghost predicate Prefixed(chunks: seq<Text>, text: Text, limit: int, start: nat) {
    && start <= |text| && Flatten(chunks) == text[..start]
    && (forall k | 0 <= k < |chunks| :: chunks[k] != [] && Units(chunks[k]) <= limit)
    && (forall k | 0 <= k <= |chunks| :: Boundary(text, |Flatten(chunks[..k])|))
    && (forall k | 0 <= k < |chunks| :: Full(chunks[k], text, |Flatten(chunks[..k + 1])|, limit))
  }

  /** Closing a piece in front of a rune that does not fit. */
  lemma ClosePiece(chunks: seq<Text>, text: Text, limit: int, start: nat, index: nat)
    requires Prefixed(chunks, text, limit, start) && start < index < |text| && Boundary(text, index)
    requires Units(text[start..index]) <= limit
    requires Units(text[start..index]) + Width(DecodeRune(text[index..]).rune) > limit
    ensures Prefixed(chunks + [text[start..index]], text, limit, index)
  {
    hide DecodeRune, Units, Boundary;
    var piece := text[start..index];
    CutsOfAppend(chunks, piece);
    assert text[..start] + piece == text[..index];
    var all := chunks + [piece];
    assert all[..|chunks| + 1] == all;
    forall k | 0 <= k < |all| ensures Full(all[k], text, |Flatten(all[..k + 1])|, limit) {
      if k < |chunks| {
        assert Full(chunks[k], text, |Flatten(chunks[..k + 1])|, limit);
      }
    }
  }

  /** The rest of the text is the last piece. */
  lemma CloseLast(chunks: seq<Text>, text: Text, limit: int, start: nat)
    requires Prefixed(chunks, text, limit, start) && start < |text| && Units(text[start..]) <= limit
    ensures Delivers(chunks + [text[start..]], text, limit) && Filled(chunks + [text[start..]], text, limit)
  {
    EndIsBoundary(text);
    hide DecodeRune, Units, Boundary;
    CutsOfAppend(chunks, text[start..]);
    assert text[..start] + text[start..] == text;
    var all := chunks + [text[start..]];
    assert all[..|chunks| + 1] == all;
    forall k | 0 <= k < |chunks| ensures Full(all[k], text, |Flatten(all[..k + 1])|, limit) {
      assert Full(chunks[k], text, |Flatten(chunks[..k + 1])|, limit);
    }
  }

  lemma CutsOfAppend(chunks: seq<Text>, last: Text)
    ensures forall k | 0 <= k <= |chunks| :: Flatten((chunks + [last])[..k]) == Flatten(chunks[..k])
    ensures Flatten((chunks + [last])[..|chunks| + 1]) == Flatten(chunks) + last
  {
    forall k | 0 <= k <= |chunks| ensures Flatten((chunks + [last])[..k]) == Flatten(chunks[..k]) {
      assert (chunks + [last])[..k] == chunks[..k];
    }
    assert (chunks + [last])[..|chunks| + 1] == chunks + [last];
    FlattenAppend(chunks, last);
  }

  /** Lossless, within the limit, on rune boundaries, and with as few pieces as any partition. */
  method VerbatimChunks(text: Text, maxUTF16Units: int) returns (chunks: seq<Text>)
    ensures text == [] || maxUTF16Units < 2 ==> chunks == []
    ensures text != [] && maxUTF16Units >= 2 ==>
      && chunks != []
      && Delivers(chunks, text, maxUTF16Units)
      && Filled(chunks, text, maxUTF16Units)
      && (forall other | Delivers(other, text, maxUTF16Units) :: |chunks| <= |other|)
      && (forall k | 0 <= k < |chunks| - 1 :: maxUTF16Units - 1 <= Units(chunks[k]))
  {
    hide DecodeRune;
    chunks := [];
    if text == [] || maxUTF16Units < 2 {
      return;
    }
    var start, units, index := 0, 0, 0;
    while index < |text|
      invariant 0 <= start <= index <= |text|
      invariant start < |text| && (start == index ==> units == 0)
      invariant Boundary(text, start) && Boundary(text, index)
      invariant units == Units(text[start..index]) <= maxUTF16Units
      invariant Prefixed(chunks, text, maxUTF16Units, start)
    {
      var d := DecodeRune(text[index..]);
      var width := if d.rune > 0xFFFF then 2 else 1;
      UnitsStep(text, start, index);
      if units + width > maxUTF16Units {
        ClosePiece(chunks, text, maxUTF16Units, start, index);
        chunks := chunks + [text[start..index]];
        start, units := index, 0;
        UnitsStep(text, start, index);
        assert text[index..index] == [];
      }
      units := units + width;
      index := index + d.size;
    }
    assert text[start..index] == text[start..];
    CloseLast(chunks, text, maxUTF16Units, start);
    chunks := chunks + [text[start..]];
    forall other | Delivers(other, text, maxUTF16Units) ensures |chunks| <= |other| {
      FilledIsOptimal(chunks, other, text, maxUTF16Units);
    }
    FilledWastesLittle(chunks, text, maxUTF16Units);
  }
}
