/**
 * UTF-8 as defined in section 3 of RFC 3629: the encoder behind
 * `Buffer.from(content, 'utf8')`, a strict decoder (no overlong forms, no
 * surrogate code points, nothing above U+10FFFF), and the round trip
 * between them.
 */
module Utf8 {
  import opened Common

  /** Continuation bytes carry six bits each: `10xxxxxx`. */
  predicate IsContinuation(b: byte)
  {
    0x80 <= b < 0xC0
  }

  /** The one to four octets of one character, by the table of RFC 3629 section 3. */
  function EncodeChar(c: char): (r: seq<byte>)
    ensures 1 <= |r| <= 4
    ensures |r| == 1 <==> c as int < 0x80
    ensures forall k :: 1 <= k < |r| ==> IsContinuation(r[k])
  {
    var n := c as int;
    if n < 0x80 then [n]
    else if n < 0x800 then [0xC0 + n / 64, 0x80 + n % 64]
    else if n < 0x10000 then [0xE0 + n / 4096, 0x80 + (n / 64) % 64, 0x80 + n % 64]
    else [0xF0 + n / 262144, 0x80 + (n / 4096) % 64, 0x80 + (n / 64) % 64, 0x80 + n % 64]
  }

  /** The UTF-8 encoding of a string: the encodings of its characters, in order. */
  function Encode(s: string): (r: seq<byte>)
    ensures |s| <= |r| <= 4 * |s|
  {
    if s == "" then [] else EncodeChar(s[0]) + Encode(s[1..])
  }

  /** Decodes the character at the front of `bs`, with the number of octets it takes. */
  function DecodeFirst(bs: seq<byte>): (r: Option<(char, nat)>)
    ensures r.Some? ==> 1 <= r.value.1 <= |bs|
  {
    if bs == [] then None
    else if bs[0] < 0x80 then Some((bs[0] as char, 1))
    else if 0xC0 <= bs[0] < 0xE0 && |bs| >= 2 && IsContinuation(bs[1]) then
      var cp := (bs[0] as int - 0xC0) * 64 + (bs[1] as int - 0x80);
      if 0x80 <= cp then Some((cp as char, 2)) else None
    else if 0xE0 <= bs[0] < 0xF0 && |bs| >= 3 && IsContinuation(bs[1]) && IsContinuation(bs[2]) then
      var cp := (bs[0] as int - 0xE0) * 4096 + (bs[1] as int - 0x80) * 64 + (bs[2] as int - 0x80);
      if 0x800 <= cp && !(0xD800 <= cp < 0xE000) then Some((cp as char, 3)) else None
    else if 0xF0 <= bs[0] < 0xF8 && |bs| >= 4
            && IsContinuation(bs[1]) && IsContinuation(bs[2]) && IsContinuation(bs[3]) then
      var cp := (bs[0] as int - 0xF0) * 262144 + (bs[1] as int - 0x80) * 4096 + (bs[2] as int - 0x80) * 64 + (bs[3] as int - 0x80);
      if 0x10000 <= cp < 0x110000 then Some((cp as char, 4)) else None
    else None
  }

  /** Decodes a whole octet sequence; `None` when it is not well-formed UTF-8. */
  function Decode(bs: seq<byte>): Option<string>
    decreases |bs|
  {
    if bs == [] then Some("")
    else match DecodeFirst(bs)
      case None => None
      case Some((c, k)) =>
        match Decode(bs[k..])
        case None => None
        case Some(rest) => Some([c] + rest)
  }

  lemma DivMod64(n: int)
    requires 0 <= n
    ensures n == 64 * (n / 64) + n % 64 && 0 <= n % 64 < 64
    ensures n / 4096 == (n / 64) / 64 && n / 262144 == (n / 4096) / 64
  {
  }

  /** The decoder reads back the character the encoder wrote, whatever follows it. */
  lemma DecodeFirstEncodeChar(c: char, rest: seq<byte>)
    ensures DecodeFirst(EncodeChar(c) + rest) == Some((c, |EncodeChar(c)|))
  {
    var n := c as int;
    var bs := EncodeChar(c) + rest;
    DivMod64(n);
    DivMod64(n / 64);
    DivMod64(n / 4096);
    if n < 0x80 {
    } else if n < 0x800 {
      assert bs[0] == 0xC0 + n / 64 && bs[1] == 0x80 + n % 64;
      assert (bs[0] as int - 0xC0) * 64 + (bs[1] as int - 0x80) == n;
    } else if n < 0x10000 {
      assert bs[0] == 0xE0 + n / 4096 && bs[1] == 0x80 + (n / 64) % 64 && bs[2] == 0x80 + n % 64;
      assert (bs[0] as int - 0xE0) * 4096 + (bs[1] as int - 0x80) * 64 + (bs[2] as int - 0x80) == n;
    } else {
      assert bs[0] == 0xF0 + n / 262144 && bs[1] == 0x80 + (n / 4096) % 64;
      assert bs[2] == 0x80 + (n / 64) % 64 && bs[3] == 0x80 + n % 64;
      assert (bs[0] as int - 0xF0) * 262144 + (bs[1] as int - 0x80) * 4096 + (bs[2] as int - 0x80) * 64 + (bs[3] as int - 0x80) == n;
    }
  }

  /** Round trip: decoding the encoding of any string gives the string back. */
  lemma {:induction false} DecodeEncode(s: string)
    ensures Decode(Encode(s)) == Some(s)
    decreases |s|
  {
    if s != "" {
      var head := EncodeChar(s[0]);
      var tail := Encode(s[1..]);
      DecodeFirstEncodeChar(s[0], tail);
      assert (head + tail)[|head|..] == tail;
      DecodeEncode(s[1..]);
      assert [s[0]] + s[1..] == s;
    }
  }

  /** Distinct strings have distinct encodings. */
  lemma EncodeInjective(s: string, t: string)
    requires Encode(s) == Encode(t)
    ensures s == t
  {
    DecodeEncode(s);
    DecodeEncode(t);
  }

  /** ASCII text encodes to one octet per character. */
  lemma {:induction false} EncodeAsciiLength(s: string)
    requires forall i :: 0 <= i < |s| ==> s[i] as int < 0x80
    ensures |Encode(s)| == |s|
    decreases |s|
  {
    if s != "" { EncodeAsciiLength(s[1..]); }
  }
}
