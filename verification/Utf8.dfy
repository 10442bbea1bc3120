/** Recording terminal output as text (src/session.rs): bytes arrive in chunks that may cut a
    character, and whatever is not UTF-8 (RFC 3629) becomes a replacement character. */
module Utf8 {
  import opened Model

  type Bytes = seq<Byte>

  /** A Unicode scalar value. */
  type Scalar = c: int | 0 <= c < 0xD800 || 0xE000 <= c <= 0x10FFFF witness 0

  type Text = seq<Scalar>

  const REPLACEMENT: Scalar := 0xFFFD

  // ---------------------------------------------------------------------------------------------
  // UTF-8 as section 4 of RFC 3629 defines it
  // ---------------------------------------------------------------------------------------------

  predicate Within(b: Byte, low: int, high: int) {
    low <= b as int <= high
  }

  predicate IsTail(b: Byte) {
    Within(b, 0x80, 0xBF)
  }

  /** The productions UTF8-1 to UTF8-4. */
  predicate IsUtf8Char(s: Bytes) {
    match |s|
    case 1 => Within(s[0], 0x00, 0x7F)
    case 2 => Within(s[0], 0xC2, 0xDF) && IsTail(s[1])
    case 3 =>
      && IsTail(s[2])
      && (|| (s[0] == 0xE0 && Within(s[1], 0xA0, 0xBF))
          || (Within(s[0], 0xE1, 0xEC) && IsTail(s[1]))
          || (s[0] == 0xED && Within(s[1], 0x80, 0x9F))
          || (Within(s[0], 0xEE, 0xEF) && IsTail(s[1])))
    case 4 =>
      && IsTail(s[2]) && IsTail(s[3])
      && (|| (s[0] == 0xF0 && Within(s[1], 0x90, 0xBF))
          || (Within(s[0], 0xF1, 0xF3) && IsTail(s[1]))
          || (s[0] == 0xF4 && Within(s[1], 0x80, 0x8F)))
    case _ => false
  }

  function Low(x: nat): (b: Byte)
    ensures IsTail(b)
  {
    (0x80 + x % 0x40) as Byte
  }

  function Value(tail: Byte): nat
    requires IsTail(tail)
  {
    tail as int - 0x80
  }

  /** The encoding of one scalar value (section 3). */
  function Encode(c: Scalar): (s: Bytes)
    ensures IsUtf8Char(s)
  {
    var c1 := c / 0x40;
    var c2 := c1 / 0x40;
    if c < 0x80 then [c as Byte]
    else if c < 0x800 then [(0xC0 + c1) as Byte, Low(c)]
    else if c < 0x1_0000 then [(0xE0 + c2) as Byte, Low(c1), Low(c)]
    else [(0xF0 + c2 / 0x40) as Byte, Low(c2), Low(c1), Low(c)]
  }

  function Decode(s: Bytes): (c: Scalar)
    requires IsUtf8Char(s)
  {
    match |s|
    case 1 => s[0] as int
    case 2 => (s[0] as int - 0xC0) * 0x40 + Value(s[1])
    case 3 => ((s[0] as int - 0xE0) * 0x40 + Value(s[1])) * 0x40 + Value(s[2])
    case 4 => (((s[0] as int - 0xF0) * 0x40 + Value(s[1])) * 0x40 + Value(s[2])) * 0x40 + Value(s[3])
  }

  lemma Digits(high: nat, low: Byte)
    requires IsTail(low)
    ensures (high * 0x40 + Value(low)) / 0x40 == high && Low(high * 0x40 + Value(low)) == low
  {
  }

  lemma TwoBytes(s: Bytes)
    requires IsUtf8Char(s) && |s| == 2
    ensures Encode(Decode(s)) == s
  {
    Digits(s[0] as int - 0xC0, s[1]);
  }

  lemma ThreeBytes(s: Bytes)
    requires IsUtf8Char(s) && |s| == 3
    ensures Encode(Decode(s)) == s
  {
    Digits(s[0] as int - 0xE0, s[1]);
    Digits((s[0] as int - 0xE0) * 0x40 + Value(s[1]), s[2]);
  }

  lemma FourBytes(s: Bytes)
    requires IsUtf8Char(s) && |s| == 4
    ensures Encode(Decode(s)) == s
  {
    Digits(s[0] as int - 0xF0, s[1]);
    Digits((s[0] as int - 0xF0) * 0x40 + Value(s[1]), s[2]);
    Digits(((s[0] as int - 0xF0) * 0x40 + Value(s[1])) * 0x40 + Value(s[2]), s[3]);
  }

  lemma EncodeDecode(s: Bytes)
    requires IsUtf8Char(s)
    ensures Encode(Decode(s)) == s
  {
    match |s|
    case 1 =>
    case 2 => TwoBytes(s);
    case 3 => ThreeBytes(s);
    case 4 => FourBytes(s);
  }

  lemma DecodeEncode(c: Scalar)
    ensures Decode(Encode(c)) == c
  {
    assert c / 0x40 * 0x40 + Value(Low(c)) == c;
    assert c / 0x40 / 0x40 * 0x40 + Value(Low(c / 0x40)) == c / 0x40;
  }

  /** More bytes can make it a character. */
  ghost predicate IsCharPrefix(s: Bytes) {
    exists rest :: IsUtf8Char(s + rest)
  }

  // ---------------------------------------------------------------------------------------------
  // What the standard library's validation finds at the front of the bytes
  // ---------------------------------------------------------------------------------------------

  datatype Front = Char(width: nat) | Invalid(width: nat) | Incomplete

  function WidthOf(first: Byte): nat {
    if first < 0x80 then 1
    else if Within(first, 0xC2, 0xDF) then 2
    else if Within(first, 0xE0, 0xEF) then 3
    else if Within(first, 0xF0, 0xF4) then 4
    else 0
  }

  predicate SecondFits(first: Byte, second: Byte) {
    if first == 0xE0 then Within(second, 0xA0, 0xBF)
    else if first == 0xED then Within(second, 0x80, 0x9F)
    else if first == 0xF0 then Within(second, 0x90, 0xBF)
    else if first == 0xF4 then Within(second, 0x80, 0x8F)
    else IsTail(second)
  }

  function FrontOf(s: Bytes): (front: Front)
    requires s != []
    ensures front.Char? || front.Invalid? ==> 1 <= front.width <= |s|
  {
    var width := WidthOf(s[0]);
    if width == 0 then Invalid(1)
    else if width == 1 then Char(1)
    else if |s| < 2 then Incomplete
    else if !SecondFits(s[0], s[1]) then Invalid(1)
    else if width == 2 then Char(2)
    else if |s| < 3 then Incomplete
    else if !IsTail(s[2]) then Invalid(2)
    else if width == 3 then Char(3)
    else if |s| < 4 then Incomplete
    else if !IsTail(s[3]) then Invalid(3)
    else Char(4)
  }

  /** A few more bytes that complete a prefix. */
  function Completion(s: Bytes): Bytes
    requires s != [] && FrontOf(s).Incomplete?
  {
    var width := WidthOf(s[0]);
    if |s| == 1 then
      var second: Byte := if s[0] == 0xE0 then 0xA0 else if s[0] == 0xF0 then 0x90 else 0x80;
      if width == 2 then [second] else if width == 3 then [second, 0x80] else [second, 0x80, 0x80]
    else if |s| == 2 && width == 4 then [0x80, 0x80]
    else [0x80]
  }

  lemma IncompleteIsPrefix(s: Bytes)
    requires s != []
    ensures FrontOf(s).Incomplete? <==> !IsUtf8Char(s) && IsCharPrefix(s)
  {
    if FrontOf(s).Incomplete? {
      assert IsUtf8Char(s + Completion(s));
    } else if IsCharPrefix(s) {
      var rest :| IsUtf8Char(s + rest);
      if rest == [] { assert s + rest == s; }
    }
  }

  /** The front is a character exactly if the grammar says so. */
  lemma CharIsGrammatical(s: Bytes, n: nat)
    requires 1 <= n <= |s|
    ensures FrontOf(s) == Char(n) <==> IsUtf8Char(s[..n])
  {
  }

  /** What is replaced is the longest beginning of a character, or one byte that begins none. */
  lemma InvalidIsMaximal(s: Bytes)
    requires s != [] && FrontOf(s).Invalid?
    ensures var n := FrontOf(s).width;
      || (n == 1 && !IsCharPrefix(s[..1]))
      || (n < |s| && IsCharPrefix(s[..n]) && !IsCharPrefix(s[..n + 1]))
  {
    var n := FrontOf(s).width;
    IncompleteIsPrefix(s[..n]);
    if n < |s| { IncompleteIsPrefix(s[..n + 1]); }
    if WidthOf(s[0]) == 0 { assert !IsUtf8Char(s[..1]) && !FrontOf(s[..1]).Incomplete?; }
  }

  /** The character at the front, or what replaces the invalid part there. */
  function FrontScalar(s: Bytes): Scalar
    requires s != [] && !FrontOf(s).Incomplete?
  {
    match FrontOf(s)
    case Char(n) => CharIsGrammatical(s, n); Decode(s[..n])
    case Invalid(_) => REPLACEMENT
  }

  function Behind(s: Bytes): (rest: Bytes)
    requires s != [] && !FrontOf(s).Incomplete?
    ensures |rest| < |s|
  {
    s[FrontOf(s).width..]
  }

  lemma FrontAppended(s: Bytes, more: Bytes)
    requires s != [] && !FrontOf(s).Incomplete?
    ensures FrontOf(s + more) == FrontOf(s)
    ensures FrontScalar(s + more) == FrontScalar(s) && Behind(s + more) == Behind(s) + more
  {
    var n := FrontOf(s).width;
    assert (s + more)[..n] == s[..n] && (s + more)[n..] == s[n..] + more;
  }

  // ---------------------------------------------------------------------------------------------
  // Decoding everything at once
  // ---------------------------------------------------------------------------------------------

  /** One replacement character for each maximal invalid part, also one cut off by the end. */
  function Lossy(s: Bytes): Text {
    if s == [] then []
    else if FrontOf(s).Incomplete? then [REPLACEMENT]
    else [FrontScalar(s)] + Lossy(Behind(s))
  }

  function EncodeAll(text: Text): Bytes {
    if text == [] then [] else Encode(text[0]) + EncodeAll(text[1..])
  }

  lemma EncodedFront(c: Scalar, more: Bytes)
    ensures var s := Encode(c) + more;
      FrontOf(s).Char? && FrontScalar(s) == c && Behind(s) == more
  {
    var e, s := Encode(c), Encode(c) + more;
    assert s[..|e|] == e && s[|e|..] == more;
    CharIsGrammatical(s, |e|);
    DecodeEncode(c);
  }

  /** Text that was UTF-8 comes back as it was. */
  lemma {:induction false} LossyOfEncoded(text: Text)
    ensures Lossy(EncodeAll(text)) == text
    decreases |text|
  {
    if text != [] {
      EncodedFront(text[0], EncodeAll(text[1..]));
      LossyOfEncoded(text[1..]);
    }
  }

  /** The text of the longest decidable beginning. */
  function Settled(s: Bytes): Text {
    if s == [] || FrontOf(s).Incomplete? then [] else [FrontScalar(s)] + Settled(Behind(s))
  }

  /** The bytes of a character at the end that is not complete yet. */
  function Open(s: Bytes): Bytes {
    if s == [] || FrontOf(s).Incomplete? then s else Open(Behind(s))
  }

  function AtEnd(rest: Bytes): Text {
    if rest == [] then [] else [REPLACEMENT]
  }

  lemma {:induction false} OpenIsCut(s: Bytes)
    ensures |Open(s)| <= 3 && (Open(s) != [] ==> FrontOf(Open(s)).Incomplete?)
    decreases |s|
  {
    if s != [] && !FrontOf(s).Incomplete? { OpenIsCut(Behind(s)); }
  }

  lemma {:induction false} SettledThenEnd(s: Bytes)
    ensures Lossy(s) == Settled(s) + AtEnd(Open(s))
    decreases |s|
  {
    if s != [] && !FrontOf(s).Incomplete? {
      SettledThenEnd(Behind(s));
      Associative([FrontScalar(s)], Settled(Behind(s)), AtEnd(Open(s)));
    }
  }

  /** Bytes that arrive in two parts are decoded like the whole. */
  lemma {:induction false} SettledSplits(a: Bytes, b: Bytes)
    ensures Settled(a + b) == Settled(a) + Settled(Open(a) + b)
    ensures Open(a + b) == Open(Open(a) + b)
    decreases |a|
  {
    if a == [] {
      assert a + b == b;
    } else if !FrontOf(a).Incomplete? {
      FrontAppended(a, b);
      SettledSplits(Behind(a), b);
      Associative([FrontScalar(a)], Settled(Behind(a)), Settled(Open(a) + b));
    }
  }

  // ---------------------------------------------------------------------------------------------
  // The streaming decoder
  // ---------------------------------------------------------------------------------------------

  /** What the standard library's from_utf8 answers. */
  datatype Validation = Valid(text: Text) | Malformed(validUpTo: nat, errorLen: Option<nat>)

  function Extended(c: Scalar, width: nat, v: Validation): Validation {
    match v
    case Valid(text) => Valid([c] + text)
    case Malformed(n, length) => Malformed(width + n, length)
  }

  function FromUtf8(s: Bytes): (v: Validation) {
    if s == [] then Valid([])
    else match FrontOf(s)
    case Char(n) => Extended(FrontScalar(s), n, FromUtf8(Behind(s)))
    case Invalid(n) => Malformed(0, Some(n))
    case Incomplete => Malformed(0, None)
  }

  /** The text before the first byte that validation stops at. */
  function ValidText(s: Bytes): Text {
    if s == [] || !FrontOf(s).Char? then [] else [FrontScalar(s)] + ValidText(Behind(s))
  }

  function Stop(s: Bytes): (rest: Bytes)
    ensures |rest| <= |s|
    ensures rest != [] ==> !FrontOf(rest).Char?
  {
    if s == [] || !FrontOf(s).Char? then s else Stop(Behind(s))
  }

  function ErrorLen(rest: Bytes): Option<nat>
    requires rest != []
  {
    if FrontOf(rest).Invalid? then Some(FrontOf(rest).width) else None
  }

  lemma {:induction false} ValidationStops(s: Bytes)
    ensures FromUtf8(s) ==
      if Stop(s) == [] then Valid(ValidText(s)) else Malformed(|s| - |Stop(s)|, ErrorLen(Stop(s)))
    decreases |s|
  {
    if s != [] && FrontOf(s).Char? {
      ValidationStops(Behind(s));
    }
  }

  lemma {:induction false} SettledToStop(s: Bytes)
    ensures Settled(s) == ValidText(s) + Settled(Stop(s)) && Open(s) == Open(Stop(s))
    decreases |s|
  {
    if s != [] && FrontOf(s).Char? {
      SettledToStop(Behind(s));
      Associative([FrontScalar(s)], ValidText(Behind(s)), Settled(Stop(s)));
    }
  }

  lemma FrontEncoded(s: Bytes)
    requires s != [] && FrontOf(s).Char?
    ensures Encode(FrontScalar(s)) + Behind(s) == s
  {
    CharIsGrammatical(s, FrontOf(s).width);
    EncodeDecode(s[..FrontOf(s).width]);
  }

  lemma EncodeAllFront(c: Scalar, text: Text, rest: Bytes)
    ensures EncodeAll([c] + text) + rest == Encode(c) + (EncodeAll(text) + rest)
  {
    assert ([c] + text)[1..] == text;
  }

  lemma {:induction false} ValidTextEncoded(s: Bytes)
    ensures EncodeAll(ValidText(s)) + Stop(s) == s
    decreases |s|
  {
    if s != [] && FrontOf(s).Char? {
      ValidTextEncoded(Behind(s));
      FrontEncoded(s);
      EncodeAllFront(FrontScalar(s), ValidText(Behind(s)), Stop(s));
    }
  }

  /** The valid part of the bytes, decoded by itself, and what lies behind it. */
  lemma ValidPart(s: Bytes)
    ensures var n := |s| - |Stop(s)|; Lossy(s[..n]) == ValidText(s) && s[n..] == Stop(s)
  {
    ValidTextEncoded(s);
    LossyOfEncoded(ValidText(s));
    assert s[..|s| - |Stop(s)|] == EncodeAll(ValidText(s));
  }

  lemma {:induction false} EncodedIsValid(text: Text)
    ensures FromUtf8(EncodeAll(text)) == Valid(text)
    decreases |text|
  {
    if text != [] {
      EncodedFront(text[0], EncodeAll(text[1..]));
      EncodedIsValid(text[1..]);
    }
  }

  /** Exactly the encodings of texts are valid. */
  lemma ValidIsEncoded(s: Bytes)
    ensures FromUtf8(s).Valid? <==> s == EncodeAll(Lossy(s))
  {
    if s == EncodeAll(Lossy(s)) {
      EncodedIsValid(Lossy(s));
    } else {
      ValidationStops(s);
      NotAllValid(s);
    }
  }

  lemma NotAllValid(s: Bytes)
    requires s != EncodeAll(Lossy(s))
    ensures Stop(s) != []
  {
    if Stop(s) == [] {
      ValidTextEncoded(s);
      assert EncodeAll(ValidText(s)) + [] == EncodeAll(ValidText(s));
      LossyOfEncoded(ValidText(s));
    }
  }

  function Joined(texts: seq<Text>): Text {
    if texts == [] then [] else Joined(texts[..|texts| - 1]) + texts[|texts| - 1]
  }

  lemma JoinedSnoc(texts: seq<Text>, text: Text)
    ensures Joined(texts + [text]) == Joined(texts) + text
  {
    assert (texts + [text])[..|texts|] == texts;
  }

  lemma LossyIsSome(s: Bytes)
    requires s != []
    ensures Lossy(s) != []
  {
  }

  ghost predicate NoneEmpty(output: seq<Text>) {
    forall i | 0 <= i < |output| :: output[i] != []
  }

  /** What was handed out and what is pending make up the text of the bytes. */
  ghost predicate SoFar(bytes: Bytes, output: seq<Text>, pending: Bytes) {
    Settled(bytes) == Joined(output) + Settled(pending) && Open(bytes) == Open(pending) && NoneEmpty(output)
  }

  /** The output with the valid part of the pending bytes, unless that is empty. */
  function Piece(output: seq<Text>, pending: Bytes, valid: nat): seq<Text>
    requires valid <= |pending|
  {
    if valid > 0 then output + [Lossy(pending[..valid])] else output
  }

  lemma PieceJoins(output: seq<Text>, pending: Bytes, valid: nat)
    requires valid <= |pending| && NoneEmpty(output)
    ensures Joined(Piece(output, pending, valid)) == Joined(output) + Lossy(pending[..valid])
    ensures NoneEmpty(Piece(output, pending, valid))
  {
    if valid > 0 {
      LossyIsSome(pending[..valid]);
      JoinedSnoc(output, Lossy(pending[..valid]));
    } else {
      assert Lossy(pending[..0]) == [];
    }
  }

  lemma HandLast(bytes: Bytes, output: seq<Text>, pending: Bytes)
    requires SoFar(bytes, output, pending) && Stop(pending) == []
    ensures var text := ValidText(pending);
      Joined(if text != [] then output + [text] else output) == Settled(bytes) && Open(bytes) == []
  {
    SettledToStop(pending);
    JoinedSnoc(output, ValidText(pending));
  }

  lemma Regroup(all: Text, a: Text, b: Text, c: Text, back: Text, front: Text)
    requires all == a + back && back == b + c && front == a + b
    ensures all == front + c
  {
  }

  /** Handing out the valid part. */
  lemma HandValid(bytes: Bytes, output: seq<Text>, pending: Bytes, valid: nat, text: Text, rest: Bytes)
    requires SoFar(bytes, output, pending) && valid <= |pending| && Lossy(pending[..valid]) == text
    requires Settled(pending) == text + Settled(rest) && Open(pending) == Open(rest)
    ensures SoFar(bytes, Piece(output, pending, valid), rest)
  {
    PieceJoins(output, pending, valid);
    var piece := Piece(output, pending, valid);
    Regroup(Settled(bytes), Joined(output), text, Settled(rest), Settled(pending), Joined(piece));
  }

  lemma HandCut(bytes: Bytes, output: seq<Text>, rest: Bytes)
    requires SoFar(bytes, output, rest) && rest != [] && FrontOf(rest).Incomplete?
    ensures Joined(output) == Settled(bytes) && Open(bytes) == rest
  {
  }

  lemma HandInvalid(bytes: Bytes, output: seq<Text>, rest: Bytes)
    requires SoFar(bytes, output, rest) && rest != [] && FrontOf(rest).Invalid?
    ensures SoFar(bytes, output + [[REPLACEMENT]], Behind(rest))
  {
    JoinedSnoc(output, [REPLACEMENT]);
    Associative(Joined(output), [REPLACEMENT], Settled(Behind(rest)));
  }

  /** The beginning of a character at most: what a decoder keeps between two pushes. */
  predicate IsOpen(pending: Bytes) {
    |pending| <= 3 && (pending != [] ==> FrontOf(pending).Incomplete?)
  }

  class Utf8Decoder {
    var pending: Bytes

    constructor ()
      ensures pending == [] && IsOpen(pending)
    {
      pending := [];
    }

    /** Hands out what can be decided; nothing it hands out is empty. */
    method Push(bytes: Bytes) returns (output: seq<Text>)
      modifies this
      ensures Joined(output) == Settled(old(pending) + bytes) && pending == Open(old(pending) + bytes)
      ensures IsOpen(pending) && NoneEmpty(output)
    {
      OpenIsCut(pending + bytes);
      output, pending := Decoded(pending + bytes);
    }

    static method Decoded(bytes: Bytes) returns (output: seq<Text>, pending: Bytes)
      ensures Joined(output) == Settled(bytes) && pending == Open(bytes)
      ensures NoneEmpty(output)
    {
      output, pending := [], bytes;
      while true
        invariant SoFar(bytes, output, pending)
        decreases |pending|
      {
        var validation := FromUtf8(pending);
        ValidationStops(pending);
        match validation {
          case Valid(text) =>
            HandLast(bytes, output, pending);
            if text != [] {
              output := output + [text];
            }
            return output, [];
          case Malformed(valid, errorLen) =>
            ValidPart(pending);
            SettledToStop(pending);
            HandValid(bytes, output, pending, valid, ValidText(pending), Stop(pending));
            if valid > 0 {
              output := output + [Lossy(pending[..valid])];
              pending := pending[valid..];
            }
            match errorLen {
              case Some(length) =>
                HandInvalid(bytes, output, pending);
                output := output + [[REPLACEMENT]];
                pending := pending[length..];
              case None =>
                HandCut(bytes, output, pending);
                return;
            }
        }
      }
    }

    /** What is left of a character that was cut off becomes one replacement character. */
    method Finish() returns (text: Option<Text>)
      ensures text == if pending == [] then None else Some(Lossy(pending))
      ensures IsOpen(pending) ==> (if text.Some? then text.value else []) == AtEnd(pending)
      ensures text.Some? ==> text.value != []
    {
      if pending != [] { LossyIsSome(pending); }
      return if pending == [] then None else Some(Lossy(pending));
    }
  }

  // ---------------------------------------------------------------------------------------------
  // Chunks
  // ---------------------------------------------------------------------------------------------

  function Flat(chunks: seq<Bytes>): Bytes {
    if chunks == [] then [] else Flat(chunks[..|chunks| - 1]) + chunks[|chunks| - 1]
  }

  lemma {:induction false} JoinedConcat(a: seq<Text>, b: seq<Text>)
    ensures Joined(a + b) == Joined(a) + Joined(b)
    decreases |b|
  {
    if b == [] {
      assert a + b == a;
    } else {
      assert (a + b)[..|a + b| - 1] == a + b[..|b| - 1];
      JoinedConcat(a, b[..|b| - 1]);
    }
  }

  lemma {:induction false} LossyThenOpen(s: Bytes)
    ensures Joined([Lossy(Open(s))]) == AtEnd(Open(s))
  {
    OpenIsCut(s);
    assert [Lossy(Open(s))][..0] == [];
  }

  /** The text that pushing chunk after chunk hands out, and what is pending after it. */
  function Streamed(chunks: seq<Bytes>): (Text, Bytes) {
    if chunks == [] then ([], [])
    else
      var (text, pending) := Streamed(chunks[..|chunks| - 1]);
      var bytes := pending + chunks[|chunks| - 1];
      (text + Settled(bytes), Open(bytes))
  }

  /** However the bytes are cut into chunks, streaming them gives the same text as decoding them at
      once, and never keeps more than three of them. */
  lemma {:induction false} StreamingIsLossy(chunks: seq<Bytes>)
    ensures Streamed(chunks) == (Settled(Flat(chunks)), Open(Flat(chunks)))
    ensures Streamed(chunks).0 + AtEnd(Streamed(chunks).1) == Lossy(Flat(chunks))
    ensures |Streamed(chunks).1| <= 3
    decreases |chunks|
  {
    SettledThenEnd(Flat(chunks));
    OpenIsCut(Flat(chunks));
    if chunks != [] {
      var init := chunks[..|chunks| - 1];
      StreamingIsLossy(init);
      SettledSplits(Flat(init), chunks[|chunks| - 1]);
    }
  }

  /** The bytes read up to the end of the terminal. */
  function Stream(chunks: seq<Bytes>): Bytes {
    if chunks == [] || chunks[0] == [] then [] else chunks[0] + Stream(chunks[1..])
  }

  function Kept(bytes: Bytes, limit: nat): Bytes {
    bytes[..Min(limit, |bytes|)]
  }

  /** One read: what of it is still within the limit. */
  lemma KeptGrows(before: Bytes, chunk: Bytes, limit: nat)
    ensures var record := Min(Room(limit, |Kept(before, limit)|), |chunk|);
      && Kept(before + chunk, limit) == Kept(before, limit) + chunk[..record]
      && (record < |chunk| ==> |before + chunk| > limit)
      && (|before + chunk| > limit ==> |before| > limit || record < |chunk|)
  {
  }

  ghost predicate Recorded(seen: Bytes, limit: nat, events: seq<Text>, pending: Bytes) {
    && Joined(events) == Settled(Kept(seen, limit)) && pending == Open(Kept(seen, limit))
    && forall j | 0 <= j < |events| :: events[j] != []
  }

  lemma RecordMore(seen: Bytes, chunk: Bytes, limit: nat, record: nat, events: seq<Text>, texts: seq<Text>,
                   pending: Bytes)
    requires record <= |chunk| && Kept(seen + chunk, limit) == Kept(seen, limit) + chunk[..record]
    requires Recorded(seen, limit, events, pending)
    requires Joined(texts) == Settled(pending + chunk[..record]) && forall j | 0 <= j < |texts| :: texts[j] != []
    ensures Recorded(seen + chunk, limit, events + texts, Open(pending + chunk[..record]))
  {
    SettledSplits(Kept(seen, limit), chunk[..record]);
    JoinedConcat(events, texts);
  }

  /** Records one read, except what is beyond the limit. */
  method RecordChunk(decoder: Utf8Decoder, chunk: Bytes, limit: nat, events: seq<Text>, captured: nat,
                     ghost seen: Bytes)
    returns (newEvents: seq<Text>, record: nat)
    requires Recorded(seen, limit, events, decoder.pending) && captured == |Kept(seen, limit)|
    modifies decoder
    ensures Recorded(seen + chunk, limit, newEvents, decoder.pending)
    ensures record == Min(Room(limit, captured), |chunk|)
  {
    KeptGrows(seen, chunk, limit);
    record := Min(Room(limit, captured), |chunk|);
    newEvents := events;
    if record > 0 {
      ghost var pending := decoder.pending;
      var texts := decoder.Push(chunk[..record]);
      RecordMore(seen, chunk, limit, record, events, texts, pending);
      newEvents := events + texts;
    } else {
      assert Kept(seen + chunk, limit) == Kept(seen, limit);
    }
  }

  /** The recording holds the text of the first bytes up to the limit, however they were read, and
      says that it is truncated exactly if there were more. */
  method CaptureOutput(chunks: seq<Bytes>, limit: nat) returns (events: seq<Text>, captured: nat, truncated: bool)
    ensures Joined(events) == Lossy(Kept(Stream(chunks), limit))
    ensures captured == |Kept(Stream(chunks), limit)| && (truncated <==> |Stream(chunks)| > limit)
    ensures forall i | 0 <= i < |events| :: events[i] != []
  {
    var decoder := new Utf8Decoder();
    events, captured, truncated := [], 0, false;
    ghost var seen: Bytes := [];
    var i := 0;
    while i < |chunks| && chunks[i] != []
      invariant i <= |chunks| && Stream(chunks) == seen + Stream(chunks[i..])
      invariant captured == |Kept(seen, limit)| && (truncated <==> |seen| > limit)
      invariant Recorded(seen, limit, events, decoder.pending)
    {
      StreamFront(seen, chunks, i);
      KeptGrows(seen, chunks[i], limit);
      var recordCount;
      events, recordCount := RecordChunk(decoder, chunks[i], limit, events, captured, seen);
      captured := captured + recordCount;
      if recordCount < |chunks[i]| {
        truncated := true;
      }
      seen := seen + chunks[i];
      i := i + 1;
    }
    assert Stream(chunks) == seen;
    events := RecordLast(decoder, events, seen, limit);
  }

  /** What the decoder still holds is the last event. */
  method RecordLast(decoder: Utf8Decoder, events: seq<Text>, ghost seen: Bytes, ghost limit: nat)
    returns (all: seq<Text>)
    requires Recorded(seen, limit, events, decoder.pending)
    ensures Joined(all) == Lossy(Kept(seen, limit)) && forall i | 0 <= i < |all| :: all[i] != []
  {
    var last := decoder.Finish();
    LastIsRest(Kept(seen, limit), events, last);
    all := if last.Some? then events + [last.value] else events;
  }

  lemma LastIsRest(bytes: Bytes, events: seq<Text>, last: Option<Text>)
    requires Joined(events) == Settled(bytes) && last == if Open(bytes) == [] then None else Some(Lossy(Open(bytes)))
    ensures Joined(if last.Some? then events + [last.value] else events) == Lossy(bytes)
    ensures last.Some? ==> last.value != []
  {
    SettledThenEnd(bytes);
    if last.Some? {
      LossyThenOpen(bytes);
      JoinedSnoc(events, last.value);
      JoinedSnoc([], last.value);
    }
  }

  lemma StreamFront(seen: Bytes, chunks: seq<Bytes>, i: nat)
    requires i < |chunks| && chunks[i] != []
    ensures seen + Stream(chunks[i..]) == (seen + chunks[i]) + Stream(chunks[i + 1..])
  {
    assert chunks[i..][0] == chunks[i] && chunks[i..][1..] == chunks[i + 1..];
  }
}
