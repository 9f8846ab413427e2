/** Cutting a long log message into pieces that fit a CloudWatch log event. */
module LogChunks {
  import opened Actions
  import opened GreedySplit
  import opened Utf8

  type Text = seq<CodePoint>

  /** A piece of a message with its size in UTF-8. */
  datatype Piece = Piece(text: Text, size: nat)

  /** `ValueError` covers text that UTF-8 cannot encode. */
  datatype Cut = Cut(pieces: seq<Piece>) | ValueError

  /** The longest front of `text` whose encoding has at most `size` bytes. */
  function FrontLength(text: Text, size: nat): (n: nat)
    ensures n <= |text|
  {
    Take(Widths(text), |text|, size)
  }

  /** The pieces, each as long as it can be. */
  function Chunks(text: Text, size: nat): seq<Text>
    requires size >= 4
    decreases |text|
  {
    if text == [] then []
    else
      var n := FrontLength(text, size);
      [text[..n]] + Chunks(text[n..], size)
  }

  lemma WidthsSlice(text: Text, n: nat)
    requires n <= |text|
    ensures Widths(text)[..n] == Widths(text[..n]) && Widths(text)[n..] == Widths(text[n..])
  {
  }

  /** A front fits exactly when it is no longer than `FrontLength`. */
  lemma FrontFits(text: Text, size: nat, n: nat)
    requires n <= |text|
    ensures |Encode(text[..n])| <= size <==> n <= FrontLength(text, size)
  {
    WidthsSlice(text, n);
    TakeIsLongest(Widths(text), |text|, size, n);
    EncodedLength(text[..n]);
  }

  /** A piece that is not the last one leaves at most three bytes of the limit unused, since no code
      point is wider than four. */
  lemma FrontAlmostFills(text: Text, size: nat)
    requires size >= 4 && text != []
    ensures var n := FrontLength(text, size);
            && 0 < |Encode(text[..n])| <= size
            && n > 0
            && (n < |text| ==> |Encode(text[..n])| >= size - 3 && |Encode(text[..n + 1])| > size)
  {
    var n := FrontLength(text, size);
    FrontFits(text, size, n);
    assert n > 0;
    assert text[..n][0] == text[0];
    if n < |text| {
      FrontFits(text, size, n + 1);
      CodePointBytes(text, n);
    }
  }

  /** The pieces put together are the text; each is a non-empty text of at most `size` bytes, and
      every one but the last has at least `size - 3`. */
  lemma {:induction false} ChunksReassemble(text: Text, size: nat)
    requires size >= 4
    ensures var c := Chunks(text, size);
            && Flatten(c) == text
            && (forall i | 0 <= i < |c| :: c[i] != [] && |Encode(c[i])| <= size)
            && (forall i | 0 <= i < |c| - 1 :: |Encode(c[i])| >= size - 3)
            && (Encodable(text) ==> forall i | 0 <= i < |c| :: Encodable(c[i]) && Decode(Encode(c[i])) == Some(c[i]))
    decreases |text|
  {
    hide Encode, Decode, FrontLength;
    if text != [] {
      var n := FrontLength(text, size);
      var c := Chunks(text, size);
      assert c == [text[..n]] + Chunks(text[n..], size);
      FrontAlmostFills(text, size);
      ChunksReassemble(text[n..], size);
      assert c[1..] == Chunks(text[n..], size);
      assert text == text[..n] + text[n..];
      if Encodable(text) {
        DecodeEncode(text[..n]);
      }
      forall i | 1 <= i < |c| ensures c[i] == c[1..][i - 1] {
      }
    }
  }

  /** A text that fits is one piece. */
  lemma ShortTextIsOnePiece(text: Text, size: nat)
    requires size >= 4 && text != [] && |Encode(text)| <= size
    ensures Chunks(text, size) == [text]
  {
    assert text[..|text|] == text;
    FrontFits(text, size, |text|);
    assert text[|text|..] == [];
  }

  lemma {:induction false} ChunksAreGreedy(text: Text, size: nat, maxCount: nat)
    requires size >= 4 && |text| <= maxCount && 1 <= maxCount
    ensures |Chunks(text, size)| == GreedyParts(Widths(text), maxCount, size)
    decreases |text|
  {
    if text != [] {
      var n := FrontLength(text, size);
      FrontAlmostFills(text, size);
      TakeIgnoresCount(Widths(text), |text|, maxCount, size);
      WidthsSlice(text, n);
      ChunksAreGreedy(text[n..], size, maxCount);
    }
  }

  lemma {:induction false} TakeIgnoresCount(w: seq<nat>, one: nat, two: nat, maxSum: nat)
    requires |w| <= one && |w| <= two
    ensures Take(w, one, maxSum) == Take(w, two, maxSum)
  {
    if w != [] && w[0] <= maxSum {
      TakeIgnoresCount(w[1..], one - 1, two - 1, maxSum - w[0]);
    }
  }

  function AllWidths(pieces: seq<Text>): (w: seq<seq<nat>>)
    ensures |w| == |pieces| && forall i | 0 <= i < |w| :: w[i] == Widths(pieces[i])
  {
    seq(|pieces|, i requires 0 <= i < |pieces| => Widths(pieces[i]))
  }

  lemma {:induction false} AllWidthsFlatten(pieces: seq<Text>)
    ensures Flatten(AllWidths(pieces)) == Widths(Flatten(pieces))
  {
    if pieces != [] {
      AllWidthsFlatten(pieces[1..]);
      assert AllWidths(pieces)[1..] == AllWidths(pieces[1..]);
      WidthsSlice(Flatten(pieces), |pieces[0]|);
      assert Widths(Flatten(pieces)) == Widths(pieces[0]) + Widths(Flatten(pieces[1..]));
    }
  }

  lemma {:induction false} PieceIsNoLonger(pieces: seq<Text>, i: nat)
    requires i < |pieces|
    ensures |pieces[i]| <= |Flatten(pieces)|
  {
    if i > 0 {
      PieceIsNoLonger(pieces[1..], i - 1);
    }
  }

  /** No other way of cutting the text between code points into pieces of at most `size` bytes has
      fewer pieces. */
  lemma ChunksAreFewest(text: Text, size: nat, pieces: seq<Text>)
    requires size >= 4
    requires Flatten(pieces) == text && forall i | 0 <= i < |pieces| :: |Encode(pieces[i])| <= size
    ensures |Chunks(text, size)| <= |pieces|
  {
    var maxCount := |text| + 1;
    ChunksAreGreedy(text, size, maxCount);
    AllWidthsFlatten(pieces);
    var parts := AllWidths(pieces);
    forall p | p in parts ensures Fits(p, maxCount, size) {
      var i :| 0 <= i < |parts| && parts[i] == p;
      EncodedLength(pieces[i]);
      PieceIsNoLonger(pieces, i);
    }
    GreedyIsFewest(Widths(text), maxCount, size, parts);
  }

  // ----- the loop over the bytes

  /** Where the backtracking stops: at the end of the longest front that fits. */
  lemma BoundaryBelow(text: Text, size: nat, at: nat)
    requires size >= 4 && size < |Encode(text)|
    requires at <= size && !Continuation(Encode(text)[at])
    requires forall p | at < p <= size :: Continuation(Encode(text)[p])
    ensures at == |Encode(text[..FrontLength(text, size)])|
  {
    var n := FrontLength(text, size);
    FrontAlmostFills(text, size);
    assert text[..|text|] == text;
    CodePointBytes(text, n);
  }

  lemma EncodeSlice(text: Text, n: nat)
    requires n <= |text|
    ensures Encode(text) == Encode(text[..n]) + Encode(text[n..])
  {
    hide Encode;
    EncodeAppend(text[..n], text[n..]);
    assert text == text[..n] + text[n..];
  }

  function Sized(chunks: seq<Text>): (r: seq<Piece>)
    ensures |r| == |chunks| && forall i | 0 <= i < |r| :: r[i] == Piece(chunks[i], |Encode(chunks[i])|)
  {
    seq(|chunks|, i requires 0 <= i < |chunks| => Piece(chunks[i], |Encode(chunks[i])|))
  }

  lemma NothingEncodesToNothing(text: Text)
    ensures Encode(text) == [] <==> text == []
  {
  }

  lemma ChunksStep(text: Text, size: nat)
    requires size >= 4 && text != []
    ensures var n := FrontLength(text, size);
            Sized(Chunks(text, size)) == [Piece(text[..n], |Encode(text[..n])|)] + Sized(Chunks(text[n..], size))
  {
    hide Encode, FrontLength;
    var n := FrontLength(text, size);
    assert Chunks(text, size) == [text[..n]] + Chunks(text[n..], size);
  }

  lemma NothingToCut(size: nat)
    requires size >= 4
    ensures Sized(Chunks([], size)) == []
  {
  }

  /** Finds the end of the piece that begins the encoding of `rest`. */
  method PieceEnd(bytes: seq<Byte>, start: nat, size: nat, ghost rest: Text) returns (end: nat, ok: bool)
    requires size >= 4 && start < |bytes| && bytes[start..] == Encode(rest)
    ensures ok && end == start + |Encode(rest[..FrontLength(rest, size)])|
    ensures start < end <= |bytes|
  {
    hide Encode, FrontLength, Continuation, MaskTest;
    NothingEncodesToNothing(rest);
    end := start + size;
    FrontAlmostFills(rest, size);
    EncodeSlice(rest, FrontLength(rest, size));
    if end >= |bytes| {
      end := |bytes|;
      assert rest[..|rest|] == rest;
      FrontFits(rest, size, |rest|);
    } else {
      CodePointBytes(rest, 0);
      NothingEncodesToNothing(rest[..0]);
      assert !Continuation(bytes[start..][0]);
      while end > start && MaskTest(bytes[end])
        invariant start <= end <= start + size
        invariant forall p | end < p <= start + size :: Continuation(bytes[p])
      {
        MaskIsHighBits(bytes[end]);
        end := end - 1;
      }
      MaskIsHighBits(bytes[end]);
      assert forall p | end - start < p <= size :: Encode(rest)[p] == bytes[start + p];
      BoundaryBelow(rest, size, end - start);
    }
    ok := end > start;
  }

  /** Cuts off and decodes the next piece. */
  method NextPiece(bytes: seq<Byte>, start: nat, size: nat, ghost rest: Text) returns (piece: Option<Piece>, end: nat)
    requires size >= 4 && start < |bytes| && bytes[start..] == Encode(rest) && Encodable(rest)
    ensures var n := FrontLength(rest, size);
            && piece == Some(Piece(rest[..n], |Encode(rest[..n])|))
            && start < end <= |bytes| && bytes[end..] == Encode(rest[n..])
  {
    hide Encode, Decode, FrontLength;
    ghost var n := FrontLength(rest, size);
    var ok: bool;
    end, ok := PieceEnd(bytes, start, size, rest);
    DecodeEncode(rest[..n]);
    SliceOfRest(bytes, start, end, rest, n);
    if !ok {
      return None, end;
    }
    var text := Decode(bytes[start..end]);
    if text.None? {
      return None, end;
    }
    piece := Some(Piece(text.value, end - start));
  }

  /** The pieces are those of `Chunks` with their exact sizes; the cut fails exactly on text that
      UTF-8 cannot encode. */
  method ChunkString(text: Text, size: nat) returns (result: Cut)
    requires size >= 4
    ensures result == if Encodable(text) then Cut(Sized(Chunks(text, size))) else ValueError
  {
    var encodable := IsEncodable(text);
    if !encodable {
      return ValueError;
    }
    hide Encode, Decode, FrontLength, Chunks, Sized, Encodable;
    var bytes := Encode(text);
    var start := 0;
    var pieces: seq<Piece> := [];
    ghost var rest := text;
    NothingToCut(size);
    while start < |bytes|
      invariant 0 <= start <= |bytes| && bytes[start..] == Encode(rest) && Encodable(rest)
      invariant Sized(Chunks(text, size)) == pieces + Sized(Chunks(rest, size))
      decreases |bytes| - start
    {
      ghost var n := FrontLength(rest, size);
      NothingEncodesToNothing(rest);
      ChunksStep(rest, size);
      var piece, end := NextPiece(bytes, start, size, rest);
      if piece.None? {
        return ValueError;
      }
      pieces := pieces + [piece.value];
      rest := rest[n..];
      start := end;
    }
    NothingEncodesToNothing(rest);
    return Cut(pieces);
  }

  lemma SliceOfRest(bytes: seq<Byte>, start: nat, end: nat, rest: Text, n: nat)
    requires start <= end <= |bytes| && n <= |rest| && bytes[start..] == Encode(rest)
    requires end == start + |Encode(rest[..n])|
    ensures bytes[start..end] == Encode(rest[..n]) && bytes[end..] == Encode(rest[n..])
  {
    hide Encode;
    EncodeSlice(rest, n);
    assert bytes[start..end] == bytes[start..][..end - start];
    assert bytes[end..] == bytes[start..][end - start..];
  }

  method IsEncodable(text: Text) returns (ok: bool)
    ensures ok <==> Encodable(text)
  {
    for i := 0 to |text|
      invariant Encodable(text[..i])
    {
      if Surrogate(text[i]) {
        return false;
      }
    }
    return true;
  }
}
