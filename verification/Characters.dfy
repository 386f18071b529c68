/** Splitting a reply, told in characters: for text that is well-formed UTF-8 the deliveries of `Presentation` are
    exactly the ways to split its characters into runs whose UTF-16 form fits the limit. */
module Characters {
  import opened Utf8
  import opened Unicode
  import opened Presentation

  predicate Scalars(runes: seq<int>) { forall i | 0 <= i < |runes| :: Scalar(runes[i]) }

  predicate AllScalars(parts: seq<seq<int>>) { forall k | 0 <= k < |parts| :: Scalars(parts[k]) }

  function Joined(parts: seq<seq<int>>): seq<int> {
    if parts == [] then [] else parts[0] + Joined(parts[1..])
  }

  function Encoded(parts: seq<seq<int>>): (chunks: seq<Text>)
    requires AllScalars(parts)
    ensures |chunks| == |parts|
  {
    if parts == [] then [] else [EncodeAll(parts[0])] + Encoded(parts[1..])
  }

  /** Runs of characters that make up the text, none empty and none over the limit. */
  predicate Splits(parts: seq<seq<int>>, runes: seq<int>, limit: int) {
    && AllScalars(parts) && Joined(parts) == runes
    && forall k | 0 <= k < |parts| :: parts[k] != [] && |Utf16All(parts[k])| <= limit
  }

  lemma {:induction false} EncodeAppends(a: seq<int>, b: seq<int>)
    requires Scalars(a) && Scalars(b)
    ensures EncodeAll(a + b) == EncodeAll(a) + EncodeAll(b)
  {
    hide Encode;
    if a == [] {
      assert a + b == b;
    } else {
      assert (a + b)[0] == a[0] && (a + b)[1..] == a[1..] + b;
      EncodeAppends(a[1..], b);
    }
  }

  lemma NothingEncodesNothing(runes: seq<int>)
    requires Scalars(runes)
    ensures EncodeAll(runes) == [] <==> runes == []
  {
    hide Encode;
  }

  /** The first piece is a run of the first characters. */
  lemma FirstPiece(chunks: seq<Text>, runes: seq<int>, limit: int) returns (k: nat)
    requires Scalars(runes) && chunks != [] && Delivers(chunks, EncodeAll(runes), limit)
    ensures 0 < k <= |runes| && chunks[0] == EncodeAll(runes[..k])
    ensures Flatten(chunks[1..]) == EncodeAll(runes[k..])
  {
    hide Encode, Boundary, Units;
    var text, n := EncodeAll(runes), |chunks[0]|;
    assert chunks[..1] == [chunks[0]] && Flatten([chunks[0]]) == chunks[0] + Flatten([]);
    assert |Flatten(chunks[..1])| == n;
    assert Boundary(text, n);
    BoundariesAreRunes(runes, n);
    k :| 0 <= k <= |runes| && |EncodeAll(runes[..k])| == n;
    assert runes == runes[..k] + runes[k..];
    EncodeAppends(runes[..k], runes[k..]);
    assert text == chunks[0] + Flatten(chunks[1..]);
    assert text[..n] == chunks[0] && text[..n] == EncodeAll(runes[..k]);
    assert text[n..] == Flatten(chunks[1..]) && text[n..] == EncodeAll(runes[k..]);
    NothingEncodesNothing(runes[..k]);
  }

  lemma RestDelivers(chunks: seq<Text>, text: Text, limit: int)
    requires chunks != [] && Delivers(chunks, text, limit)
    ensures |chunks[0]| <= |text| && Delivers(chunks[1..], text[|chunks[0]|..], limit)
  {
    hide Boundary, Units;
    var n, rest := |chunks[0]|, chunks[1..];
    assert text == chunks[0] + Flatten(rest) && text[n..] == Flatten(rest);
    assert chunks[..1] == [chunks[0]] && Flatten([chunks[0]]) == chunks[0] + Flatten([]);
    assert Boundary(text, |Flatten(chunks[..1])|);
    forall j | 0 <= j <= |rest| ensures Boundary(text[n..], |Flatten(rest[..j])|) {
      assert chunks[..j + 1][0] == chunks[0] && chunks[..j + 1][1..] == rest[..j];
      assert Boundary(text, |Flatten(chunks[..j + 1])|);
      BoundaryShift(text, n, |Flatten(rest[..j])|);
    }
  }

  /** No delivery of a text cuts a character in two, and its limit is one on UTF-16 units. */
  lemma {:induction false} PiecesAreCharacters(chunks: seq<Text>, runes: seq<int>, limit: int)
    returns (parts: seq<seq<int>>)
    requires Scalars(runes) && Delivers(chunks, EncodeAll(runes), limit)
    ensures Splits(parts, runes, limit) && chunks == Encoded(parts)
    decreases |chunks|
  {
    hide Delivers, Encode, Units;
    Whole(chunks, runes, limit);
    if chunks == [] {
      NothingEncodesNothing(runes);
      parts := [];
    } else {
      var k := FirstPiece(chunks, runes, limit);
      RestDelivers(chunks, EncodeAll(runes), limit);
      assert EncodeAll(runes)[|chunks[0]|..] == EncodeAll(runes[k..]);
      var rest := PiecesAreCharacters(chunks[1..], runes[k..], limit);
      UnitsAreUtf16(runes[..k]);
      parts := [runes[..k]] + rest;
      assert parts[1..] == rest && runes[..k] + runes[k..] == runes;
      assert chunks == [chunks[0]] + chunks[1..];
    }
  }

  lemma Whole(chunks: seq<Text>, runes: seq<int>, limit: int)
    requires Scalars(runes) && Delivers(chunks, EncodeAll(runes), limit)
    ensures Flatten(chunks) == EncodeAll(runes)
    ensures forall k | 0 <= k < |chunks| :: chunks[k] != [] && Units(chunks[k]) <= limit
  {
  }

  lemma {:induction false} EncodedJoins(parts: seq<seq<int>>)
    requires AllScalars(parts)
    ensures Scalars(Joined(parts)) && Flatten(Encoded(parts)) == EncodeAll(Joined(parts))
    ensures forall k | 0 <= k < |parts| :: Encoded(parts)[k] == EncodeAll(parts[k])
    ensures forall k | 0 <= k <= |parts| :: AllScalars(parts[..k]) && Encoded(parts)[..k] == Encoded(parts[..k])
  {
    hide Encode;
    if parts != [] {
      EncodedJoins(parts[1..]);
      EncodeAppends(parts[0], Joined(parts[1..]));
      forall k | 0 <= k <= |parts| ensures Encoded(parts)[..k] == Encoded(parts[..k]) {
        if k > 0 {
          assert parts[..k][0] == parts[0] && parts[..k][1..] == parts[1..][..k - 1];
          assert Encoded(parts)[..k] == [EncodeAll(parts[0])] + Encoded(parts[1..])[..k - 1];
        }
      }
    }
  }

  lemma {:induction false} JoinedPrefix(parts: seq<seq<int>>, k: nat)
    requires k <= |parts|
    ensures |Joined(parts[..k])| <= |Joined(parts)|
    ensures Joined(parts[..k]) == Joined(parts)[..|Joined(parts[..k])|]
  {
    if k > 0 {
      JoinedPrefix(parts[1..], k - 1);
      assert parts[..k][0] == parts[0] && parts[..k][1..] == parts[1..][..k - 1];
    }
  }

  /** Conversely, every such split of the characters is a delivery. */
  lemma CharactersArePieces(parts: seq<seq<int>>, runes: seq<int>, limit: int)
    requires Scalars(runes) && Splits(parts, runes, limit)
    ensures Delivers(Encoded(parts), EncodeAll(runes), limit)
  {
    hide Encode, Boundary, Units, EncodeAll, Joined, Encoded, Flatten;
    var chunks := Encoded(parts);
    EncodedJoins(parts);
    forall k | 0 <= k < |chunks| ensures chunks[k] != [] && Units(chunks[k]) <= limit {
      UnitsAreUtf16(parts[k]);
      NothingEncodesNothing(parts[k]);
    }
    forall k | 0 <= k <= |chunks| ensures Boundary(EncodeAll(runes), |Flatten(chunks[..k])|) {
      EncodedJoins(parts[..k]);
      JoinedPrefix(parts, k);
      assert EncodeAll(runes[..|Joined(parts[..k])|]) == Flatten(chunks[..k]);
      BoundariesAreRunes(runes, |Flatten(chunks[..k])|);
    }
  }

  /** So the pieces of a filled delivery, such as `VerbatimChunks` returns, are the fewest runs into which the
      characters can be split. */
  lemma FewestRuns(chunks: seq<Text>, runes: seq<int>, parts: seq<seq<int>>, limit: int)
    requires Scalars(runes) && Delivers(chunks, EncodeAll(runes), limit) && Filled(chunks, EncodeAll(runes), limit)
    requires Splits(parts, runes, limit)
    ensures |chunks| <= |parts|
  {
    CharactersArePieces(parts, runes, limit);
    FilledIsOptimal(chunks, Encoded(parts), EncodeAll(runes), limit);
  }
}
