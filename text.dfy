/**
 * Text as the program handles it: Go strings are modelled as the sequence of
 * Unicode scalar values they decode to, and the bytes handed to the X server
 * are their UTF-8 encoding (RFC 3629, section 3).
 */
module Text {

  /** An octet, Go's `byte`. */
  type byte = b: int | 0 <= b < 0x100

  predicate IsAscii(c: char) {
    (c as int) < 0x80
  }

  predicate AllAscii(s: string) {
    forall i :: 0 <= i < |s| ==> IsAscii(s[i])
  }

  /** `s` starts with `p`. */
  predicate HasPrefix(s: string, p: string) {
    |p| <= |s| && s[..|p|] == p
  }

  /** The UTF-8 encoding of one scalar value. */
  function EncodeRune(c: char): (bs: seq<byte>)
    ensures 1 <= |bs| <= 4
    ensures |bs| == 1 <==> IsAscii(c)
    ensures IsAscii(c) ==> bs[0] == c as int
    ensures !IsAscii(c) ==> forall i :: 0 <= i < |bs| ==> bs[i] >= 0x80
  {
    var n := c as int;
    if n < 0x80 then [n]
    else if n < 0x800 then [0xC0 + n / 0x40, 0x80 + n % 0x40]
    else if n < 0x1_0000 then [0xE0 + n / 0x1000, 0x80 + (n / 0x40) % 0x40, 0x80 + n % 0x40]
    else [0xF0 + n / 0x4_0000, 0x80 + (n / 0x1000) % 0x40, 0x80 + (n / 0x40) % 0x40, 0x80 + n % 0x40]
  }

  /** Go's `[]byte(s)`: the UTF-8 encoding of a string. */
  function Utf8Encode(s: string): (bs: seq<byte>)
    ensures |s| <= |bs| <= 4 * |s|
  {
    if s == [] then [] else EncodeRune(s[0]) + Utf8Encode(s[1..])
  }

  /** Go's `rune(b)` applied to every byte: each byte becomes the code point of equal value. */
  function Widen(bs: seq<byte>): (s: string)
    ensures |s| == |bs|
    ensures forall i :: 0 <= i < |bs| ==> s[i] as int == bs[i]
  {
    seq(|bs|, i requires 0 <= i < |bs| => bs[i] as char)
  }

  lemma {:induction false} WidenAppend(a: seq<byte>, b: seq<byte>)
    ensures Widen(a + b) == Widen(a) + Widen(b)
  {
  }

  /** Encoding an all-ASCII string and widening its bytes gives the string back. */
  lemma {:induction false} WidenEncodeAscii(s: string)
    requires AllAscii(s)
    ensures Widen(Utf8Encode(s)) == s
  {
    if s != [] {
      WidenEncodeAscii(s[1..]);
      WidenAppend(EncodeRune(s[0]), Utf8Encode(s[1..]));
      assert Widen(EncodeRune(s[0])) == [s[0]];
      assert s == [s[0]] + s[1..];
    }
  }

  /** A string with a non-ASCII scalar value has a strictly longer UTF-8 encoding. */
  lemma {:induction false} EncodeLonger(s: string)
    ensures |Utf8Encode(s)| == |s| <==> AllAscii(s)
  {
    if s != [] {
      EncodeLonger(s[1..]);
      assert AllAscii(s) <==> IsAscii(s[0]) && AllAscii(s[1..]) by {
        if IsAscii(s[0]) && AllAscii(s[1..]) {
          forall i | 0 <= i < |s| ensures IsAscii(s[i]) {
            if i > 0 { assert s[i] == s[1..][i - 1]; }
          }
        }
      }
    }
  }

  /**
   * Widening the bytes of `[]byte(s)` rune by rune reproduces `s` exactly
   * when every character of `s` is ASCII.
   */
  lemma WidenEncodeRoundTrip(s: string)
    ensures Widen(Utf8Encode(s)) == s <==> AllAscii(s)
  {
    EncodeLonger(s);
    if AllAscii(s) {
      WidenEncodeAscii(s);
    }
  }
}
