/** The UTF-8 encoding of RFC 3629, on code points and bytes as numbers. */
module Utf8 {
  import opened Actions
  import opened GreedySplit

  type CodePoint = c: int | 0 <= c <= 0x10FFFF
  type Byte = b: int | 0 <= b < 256

  /** Code points that a Python string can hold but UTF-8 cannot encode. */
  predicate Surrogate(c: CodePoint) {
    0xD800 <= c <= 0xDFFF
  }

  predicate Encodable(text: seq<CodePoint>) {
    forall i | 0 <= i < |text| :: !Surrogate(text[i])
  }

  function Width(c: CodePoint): (w: nat)
    ensures 1 <= w <= 4
  {
    if c < 0x80 then 1 else if c < 0x800 then 2 else if c < 0x10000 then 3 else 4
  }

  /** The continuation byte of the six lowest bits. */
  function Tail(c: nat): (b: Byte)
    ensures Continuation(b)
  {
    0x80 + c % 0x40
  }

  /** Section 3 of RFC 3629. */
  function EncodeOne(c: CodePoint): (bytes: seq<Byte>)
    ensures |bytes| == Width(c)
  {
    match Width(c)
    case 1 => [c]
    case 2 => [0xC0 + c / 0x40, Tail(c)]
    case 3 => [0xE0 + c / 0x40 / 0x40, Tail(c / 0x40), Tail(c)]
    case _ => [0xF0 + c / 0x40 / 0x40 / 0x40, Tail(c / 0x40 / 0x40), Tail(c / 0x40), Tail(c)]
  }

  function Encode(text: seq<CodePoint>): seq<Byte> {
    if text == [] then [] else EncodeOne(text[0]) + Encode(text[1..])
  }

  /** The bounds of each width. */
  lemma EncodesTheBounds()
    ensures EncodeOne(0x7F) == [0x7F] && EncodeOne(0x80) == [0xC2, 0x80] && EncodeOne(0x7FF) == [0xDF, 0xBF]
    ensures EncodeOne(0x800) == [0xE0, 0xA0, 0x80] && EncodeOne(0xFFFF) == [0xEF, 0xBF, 0xBF]
    ensures EncodeOne(0x10000) == [0xF0, 0x90, 0x80, 0x80] && EncodeOne(0x10FFFF) == [0xF4, 0x8F, 0xBF, 0xBF]
  {
  }

  lemma StandardBytes()
    ensures EncodeOne(0x41) == [0x41] && EncodeOne(0x2E) == [0x2E]
    ensures EncodeOne(0x2262) == [0xE2, 0x89, 0xA2] && EncodeOne(0x391) == [0xCE, 0x91]
  {
  }

  /** The first example of section 7 of RFC 3629. */
  lemma EncodesAsTheStandard()
    ensures Encode([0x41, 0x2262, 0x391, 0x2E]) == [0x41, 0xE2, 0x89, 0xA2, 0xCE, 0x91, 0x2E]
  {
    hide Encode, EncodeOne;
    StandardBytes();
    EncodeAppend([0x41, 0x2262], [0x391, 0x2E]);
    EncodeAppend([0x41], [0x2262]);
    EncodeAppend([0x391], [0x2E]);
    EncodesOne(0x41);
    EncodesOne(0x2262);
    EncodesOne(0x391);
    EncodesOne(0x2E);
    assert [0x41, 0x2262] + [0x391, 0x2E] == [0x41, 0x2262, 0x391, 0x2E];
    assert [0x41] + [0x2262] == [0x41, 0x2262] && [0x391] + [0x2E] == [0x391, 0x2E];
  }

  lemma EncodesOne(c: CodePoint)
    ensures Encode([c]) == EncodeOne(c)
  {
  }

  /** The two highest bits are 10. */
  predicate Continuation(b: Byte) {
    b / 0x40 == 2
  }

  /** The mask test that the loop over the bytes makes. */
  predicate MaskTest(b: Byte) {
    (b as bv8) & 0xC0 == 0x80
  }

  /** The mask selects the numbers from 80 up to BF. */
  lemma MaskIsRange(v: bv8)
    ensures v & 0xC0 == 0x80 <==> 0x80 <= v as int < 0xC0
  {
  }

  lemma NextBits(v: bv8)
    requires v as int < 255
    ensures v < 255 && (v + 1) as int == v as int + 1
  {
  }

  lemma BitsOfNumber(v: bv8)
    ensures (v as int) as bv8 == v
  {
  }

  /** Every byte is the number of some eight bits. */
  lemma {:induction false} BitsOf(b: Byte) returns (v: bv8)
    ensures v as int == b
    decreases b
  {
    if b == 0 {
      v := 0;
    } else {
      var w := BitsOf(b - 1);
      NextBits(w);
      v := w + 1;
    }
  }

  lemma ContinuationRange(b: Byte)
    ensures Continuation(b) <==> 0x80 <= b < 0xC0
  {
  }

  /** The mask test holds of a byte exactly when its two highest bits are 10. */
  lemma MaskIsHighBits(b: Byte)
    ensures MaskTest(b) <==> Continuation(b)
  {
    hide Continuation;
    var v := BitsOf(b);
    BitsOfNumber(v);
    MaskIsRange(v);
    ContinuationRange(b);
  }

  /** Appends the six bits of a continuation byte. */
  function Join(high: nat, b: Byte): nat
    requires Continuation(b)
  {
    high * 0x40 + b % 0x40
  }

  lemma JoinTail(c: nat)
    ensures Join(c / 0x40, Tail(c)) == c
  {
  }

  lemma TailJoin(high: nat, b: Byte)
    requires Continuation(b)
    ensures Join(high, b) / 0x40 == high && Tail(Join(high, b)) == b
  {
  }

  /** The code point at the front of `bytes`, by the syntax of section 4 of RFC 3629: the shortest
      form only, no surrogates, nothing above U+10FFFF. */
  function DecodeOne(bytes: seq<Byte>): (c: Option<CodePoint>)
    ensures c.Some? ==> Width(c.value) <= |bytes| && !Surrogate(c.value)
  {
    if bytes == [] then None
    else
      var lead: int := bytes[0];
      if lead < 0x80 then Some(lead)
      else if 0xC2 <= lead < 0xE0 && |bytes| >= 2 && Continuation(bytes[1]) then
        Some(Join(lead - 0xC0, bytes[1]))
      else if 0xE0 <= lead < 0xF0 && |bytes| >= 3 && Continuation(bytes[1]) && Continuation(bytes[2]) then
        var c := Join(Join(lead - 0xE0, bytes[1]), bytes[2]);
        if c < 0x800 || Surrogate(c) then None else Some(c)
      else if 0xF0 <= lead < 0xF5 && |bytes| >= 4
              && Continuation(bytes[1]) && Continuation(bytes[2]) && Continuation(bytes[3]) then
        var c := Join(Join(Join(lead - 0xF0, bytes[1]), bytes[2]), bytes[3]);
        if c < 0x10000 || c > 0x10FFFF then None else Some(c)
      else None
  }

  function Decode(bytes: seq<Byte>): Option<seq<CodePoint>>
    decreases |bytes|
  {
    if bytes == [] then Some([])
    else
      var c := DecodeOne(bytes);
      if c.None? then None
      else
        var rest := Decode(bytes[Width(c.value)..]);
        if rest.None? then None else Some([c.value] + rest.value)
  }

  /** The bounds of the leading byte of each length. */
  lemma LeadBounds(c: CodePoint)
    ensures Width(c) == 2 ==> 2 <= c / 0x40 < 0x20
    ensures Width(c) == 3 ==> 0 <= c / 0x40 / 0x40 < 0x10
    ensures Width(c) == 4 ==> 0 <= c / 0x40 / 0x40 / 0x40 < 5
  {
  }

  lemma DecodeTwo(bytes: seq<Byte>, high: nat, c: CodePoint)
    requires |bytes| >= 2 && 2 <= high < 0x20 && bytes[0] == 0xC0 + high
    requires Continuation(bytes[1]) && c == Join(high, bytes[1])
    ensures DecodeOne(bytes) == Some(c)
  {
    hide Join, Continuation;
  }

  lemma DecodeThree(bytes: seq<Byte>, high: nat, c: CodePoint)
    requires |bytes| >= 3 && high < 0x10 && bytes[0] == 0xE0 + high
    requires Continuation(bytes[1]) && Continuation(bytes[2]) && c == Join(Join(high, bytes[1]), bytes[2])
    requires 0x800 <= c && !Surrogate(c)
    ensures DecodeOne(bytes) == Some(c)
  {
    hide Join, Continuation;
  }

  lemma DecodeFour(bytes: seq<Byte>, high: nat, c: CodePoint)
    requires |bytes| >= 4 && high < 5 && bytes[0] == 0xF0 + high
    requires Continuation(bytes[1]) && Continuation(bytes[2]) && Continuation(bytes[3])
    requires c == Join(Join(Join(high, bytes[1]), bytes[2]), bytes[3]) && 0x10000 <= c
    ensures DecodeOne(bytes) == Some(c)
  {
    hide Join, Continuation;
  }

  lemma DecodeEncodedOne(c: CodePoint, rest: seq<Byte>)
    requires !Surrogate(c)
    ensures DecodeOne(EncodeOne(c) + rest) == Some(c)
  {
    var bytes := EncodeOne(c) + rest;
    assert forall i | 0 <= i < Width(c) :: bytes[i] == EncodeOne(c)[i];
    LeadBounds(c);
    JoinTail(c);
    JoinTail(c / 0x40);
    JoinTail(c / 0x40 / 0x40);
    hide Join, Tail, Continuation, DecodeOne;
    match Width(c) {
      case 1 => DecodeAscii(bytes);
      case 2 => DecodeTwo(bytes, c / 0x40, c);
      case 3 => DecodeThree(bytes, c / 0x40 / 0x40, c);
      case _ => DecodeFour(bytes, c / 0x40 / 0x40 / 0x40, c);
    }
  }

  lemma DecodeAscii(bytes: seq<Byte>)
    requires bytes != [] && bytes[0] < 0x80
    ensures DecodeOne(bytes) == Some(bytes[0])
  {
  }

  lemma EncodeDecodedOne(bytes: seq<Byte>)
    requires DecodeOne(bytes).Some?
    ensures EncodeOne(DecodeOne(bytes).value) == bytes[..Width(DecodeOne(bytes).value)]
  {
    var lead: int := bytes[0];
    if 0xC2 <= lead < 0xE0 {
      TailJoin(lead - 0xC0, bytes[1]);
    } else if 0xE0 <= lead < 0xF0 {
      TailJoin(lead - 0xE0, bytes[1]);
      TailJoin(Join(lead - 0xE0, bytes[1]), bytes[2]);
    } else if 0xF0 <= lead < 0xF5 {
      TailJoin(lead - 0xF0, bytes[1]);
      TailJoin(Join(lead - 0xF0, bytes[1]), bytes[2]);
      TailJoin(Join(Join(lead - 0xF0, bytes[1]), bytes[2]), bytes[3]);
    }
    hide Tail;
  }

  lemma {:induction false} DecodeEncode(text: seq<CodePoint>)
    requires Encodable(text)
    ensures Decode(Encode(text)) == Some(text)
  {
    hide DecodeOne, EncodeOne, Width;
    if text != [] {
      DecodeEncodedOne(text[0], Encode(text[1..]));
      assert Encode(text)[Width(text[0])..] == Encode(text[1..]);
      DecodeEncode(text[1..]);
      assert [text[0]] + text[1..] == text;
    }
  }

  /** Decoding accepts exactly the encodings of encodable text. */
  lemma {:induction false} DecodeIsInverse(bytes: seq<Byte>, text: seq<CodePoint>)
    ensures Decode(bytes) == Some(text) <==> Encodable(text) && Encode(text) == bytes
    decreases |bytes|
  {
    hide DecodeOne, EncodeOne, Width;
    if Encodable(text) && Encode(text) == bytes {
      DecodeEncode(text);
    }
    if bytes != [] && Decode(bytes) == Some(text) {
      var n := Width(text[0]);
      EncodeDecodedOne(bytes);
      DecodeIsInverse(bytes[n..], text[1..]);
      assert bytes == bytes[..n] + bytes[n..];
    }
  }

  lemma {:induction false} EncodeAppend(a: seq<CodePoint>, b: seq<CodePoint>)
    ensures Encode(a + b) == Encode(a) + Encode(b)
  {
    if a == [] {
      assert a + b == b;
    } else {
      assert (a + b)[1..] == a[1..] + b;
      EncodeAppend(a[1..], b);
    }
  }

  function Widths(text: seq<CodePoint>): (w: seq<nat>)
    ensures |w| == |text| && forall i | 0 <= i < |w| :: w[i] == Width(text[i])
  {
    seq(|text|, i requires 0 <= i < |text| => Width(text[i]))
  }

  lemma {:induction false} EncodedLength(text: seq<CodePoint>)
    ensures |Encode(text)| == Sum(Widths(text))
  {
    if text != [] {
      EncodedLength(text[1..]);
      assert Widths(text)[1..] == Widths(text[1..]);
    }
  }

  lemma EncodeOneShape(c: CodePoint)
    ensures !Continuation(EncodeOne(c)[0])
    ensures forall p | 0 < p < Width(c) :: Continuation(EncodeOne(c)[p])
  {
  }

  /** Where the bytes of the code point at `n` begin, and that the bytes inside it are
      continuation bytes while its first one is not. */
  lemma CodePointBytes(text: seq<CodePoint>, n: nat)
    requires n < |text|
    ensures var at := |Encode(text[..n])|;
            && at + Width(text[n]) == |Encode(text[..n + 1])| <= |Encode(text)|
            && !Continuation(Encode(text)[at])
            && forall p | at < p < at + Width(text[n]) :: Continuation(Encode(text)[p])
  {
    hide EncodeOne, Width, Continuation;
    var before, after := text[..n], text[n + 1..];
    EncodeOneShape(text[n]);
    assert text == before + ([text[n]] + after);
    EncodeAppend(before, [text[n]] + after);
    EncodeAppend(before, [text[n]]);
    assert text[..n + 1] == before + [text[n]];
    assert Encode([text[n]] + after) == EncodeOne(text[n]) + Encode(after);
    assert Encode([text[n]]) == EncodeOne(text[n]) + Encode([]);
    var at := |Encode(before)|;
    assert forall p | 0 <= p < Width(text[n]) :: Encode(text)[at + p] == EncodeOne(text[n])[p];
  }
}
