/**
 * The standard base64 encoding with padding (RFC 4648, section 4): every
 * three input bytes become four symbols of a 64-symbol alphabet, and a final
 * group of one or two bytes is completed with two or one '=' characters.
 */
module Base64 {
  import opened Text

  const PadChar: char := '='

  /** Table 1 of RFC 4648: 'A'-'Z', 'a'-'z', '0'-'9', '+', '/'. */
  function Symbol(x: bv8): (c: char)
    requires x < 64
    ensures IsSymbol(c)
  {
    var v := x as int;
    if v < 26 then (65 + v) as char
    else if v < 52 then (97 + v - 26) as char
    else if v < 62 then (48 + v - 52) as char
    else if v == 62 then '+'
    else '/'
  }

  predicate IsSymbol(c: char) { IsAlnum(c) || c == '+' || c == '/' }

  function Encode(b: seq<bv8>): (s: string)
    ensures |s| == 4 * ((|b| + 2) / 3)
    decreases |b|
  {
    if |b| == 0 then []
    else if |b| == 1 then
      [Symbol(b[0] >> 2), Symbol((b[0] & 3) << 4), PadChar, PadChar]
    else if |b| == 2 then
      [Symbol(b[0] >> 2), Symbol(((b[0] & 3) << 4) | (b[1] >> 4)), Symbol((b[1] & 15) << 2), PadChar]
    else
      [Symbol(b[0] >> 2), Symbol(((b[0] & 3) << 4) | (b[1] >> 4)),
       Symbol(((b[1] & 15) << 2) | (b[2] >> 6)), Symbol(b[2] & 63)]
      + Encode(b[3..])
  }

  /** How many '=' characters end the encoding of `n` bytes. */
  function PadCount(n: nat): nat
  {
    if n % 3 == 1 then 2 else if n % 3 == 2 then 1 else 0
  }

  /**
   * The encoding is 4 symbols per started group of three bytes: alphabet
   * symbols first, then at most two '=' characters at the very end.
   */
  lemma {:induction false} EncodeShape(b: seq<bv8>)
    ensures |Encode(b)| == 4 * ((|b| + 2) / 3)
    ensures PadCount(|b|) <= 2 && PadCount(|b|) <= |Encode(b)|
    ensures forall i :: 0 <= i < |Encode(b)| - PadCount(|b|) ==> IsSymbol(Encode(b)[i])
    ensures forall i :: |Encode(b)| - PadCount(|b|) <= i < |Encode(b)| ==> Encode(b)[i] == PadChar
    decreases |b|
  {
    if |b| >= 3 {
      var rest := b[3..];
      EncodeShape(rest);
      var head := Encode(b)[..4];
      assert Encode(b) == head + Encode(rest);
      assert |rest| % 3 == |b| % 3;
      forall i | 0 <= i < |Encode(b)| - PadCount(|b|)
        ensures IsSymbol(Encode(b)[i])
      {
        if i >= 4 {
          assert Encode(b)[i] == Encode(rest)[i - 4];
        }
      }
      forall i | |Encode(b)| - PadCount(|b|) <= i < |Encode(b)|
        ensures Encode(b)[i] == PadChar
      {
        assert Encode(b)[i] == Encode(rest)[i - 4];
      }
    }
  }
}
