/** Which byte sequences decode strictly as UTF-8. */
module Utf8 {
  import opened Wrappers

  predicate Tail(b: byte) {
    0x80 <= b <= 0xBF
  }

  /** How long the UTF-8 sequence at the start is (section 4 of RFC 3629), or None. */
  function Utf8Length(bytes: seq<byte>): (n: Option<nat>)
    ensures n.Some? ==> 0 < n.value <= |bytes|
  {
    if bytes == [] then None
    else
      var b := bytes[0];
      if b <= 0x7F then Some(1)
      else if |bytes| < 2 || !Tail(bytes[1]) then None
      else if 0xC2 <= b <= 0xDF then Some(2)
      else if |bytes| < 3 || !Tail(bytes[2]) then None
      else if (b == 0xE0 && bytes[1] >= 0xA0) || 0xE1 <= b <= 0xEC || (b == 0xED && bytes[1] <= 0x9F) || 0xEE <= b <= 0xEF
      then Some(3)
      else if |bytes| < 4 || !Tail(bytes[3]) then None
      else if (b == 0xF0 && bytes[1] >= 0x90) || 0xF1 <= b <= 0xF3 || (b == 0xF4 && bytes[1] <= 0x8F) then Some(4)
      else None
  }

  predicate ValidUtf8(bytes: seq<byte>)
    decreases |bytes|
  {
    bytes == [] || (Utf8Length(bytes).Some? && ValidUtf8(bytes[Utf8Length(bytes).value..]))
  }

  // ---------------------------------------------------------------- what is decoded

  /** Every code point but the surrogates. */
  predicate Scalar(c: nat) {
    c < 0xD800 || 0xE000 <= c <= 0x10FFFF
  }

  /** The shortest form, of one to four bytes (section 3 of RFC 3629). */
  function Encoded(c: nat): seq<byte>
    requires Scalar(c)
  {
    if c < 0x80 then [c]
    else if c < 0x800 then [0xC0 + c / 0x40, 0x80 + c % 0x40]
    else if c < 0x10000 then [0xE0 + c / 0x40 / 0x40, 0x80 + c / 0x40 % 0x40, 0x80 + c % 0x40]
    else [0xF0 + c / 0x40 / 0x40 / 0x40, 0x80 + c / 0x40 / 0x40 % 0x40, 0x80 + c / 0x40 % 0x40, 0x80 + c % 0x40]
  }

  predicate Scalars(text: seq<nat>) {
    forall i | 0 <= i < |text| :: Scalar(text[i])
  }

  function EncodedText(text: seq<nat>): seq<byte>
    requires Scalars(text)
  {
    if text == [] then [] else Encoded(text[0]) + EncodedText(text[1..])
  }

  lemma {:induction false} LengthOfEncoded(c: nat, rest: seq<byte>)
    requires Scalar(c)
    ensures Utf8Length(Encoded(c) + rest) == Some(|Encoded(c)|)
  {
  }

  /** Six more bits. */
  function Sixes(bits: nat, tail: byte): (c: nat)
    requires Tail(tail)
    ensures c / 0x40 == bits && 0x80 + c % 0x40 == tail
  {
    0x40 * bits + (tail - 0x80)
  }

  lemma {:induction false} DecodedScalar(bytes: seq<byte>) returns (c: nat)
    requires Utf8Length(bytes).Some?
    ensures Scalar(c) && Encoded(c) == bytes[..Utf8Length(bytes).value]
  {
    hide Sixes;
    var n, head := Utf8Length(bytes).value, bytes[0] as int;
    if n == 1 {
      c := head;
    } else if n == 2 {
      c := Sixes(head - 0xC0, bytes[1]);
    } else if n == 3 {
      c := Sixes(Sixes(head - 0xE0, bytes[1]), bytes[2]);
    } else {
      c := Sixes(Sixes(Sixes(head - 0xF0, bytes[1]), bytes[2]), bytes[3]);
    }
  }

  lemma {:induction false} EncodedIsValid(text: seq<nat>)
    requires Scalars(text)
    ensures ValidUtf8(EncodedText(text))
    decreases |text|
  {
    hide Utf8Length, Encoded, Scalar;
    if text != [] {
      var first, rest := Encoded(text[0]), EncodedText(text[1..]);
      EncodedIsValid(text[1..]);
      LengthOfEncoded(text[0], rest);
      assert (first + rest)[|first|..] == rest;
    }
  }

  lemma {:induction false} ValidIsEncoded(bytes: seq<byte>) returns (text: seq<nat>)
    requires ValidUtf8(bytes)
    ensures Scalars(text) && EncodedText(text) == bytes
    decreases |bytes|
  {
    hide Utf8Length, Encoded, Scalar;
    text := [];
    if bytes != [] {
      var n := Utf8Length(bytes).value;
      var c := DecodedScalar(bytes);
      var rest := ValidIsEncoded(bytes[n..]);
      text := [c] + rest;
      assert text[1..] == rest;
      assert bytes[..n] + bytes[n..] == bytes;
    }
  }

  /** Exactly the encodings of code points pass: no overlong form, no surrogate, nothing beyond U+10FFFF. */
  lemma {:induction false} DecodesExactly(bytes: seq<byte>)
    ensures ValidUtf8(bytes) <==> exists text :: Scalars(text) && EncodedText(text) == bytes
  {
    hide ValidUtf8, EncodedText, Scalars;
    if ValidUtf8(bytes) {
      var text := ValidIsEncoded(bytes);
    }
    if text :| Scalars(text) && EncodedText(text) == bytes {
      EncodedIsValid(text);
    }
  }
}
