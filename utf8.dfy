/**
 * Python's strict UTF-8 codec, `data.decode("utf-8")`, on the byte strings
 * the Deako connection receives, together with the encoder that it inverts.
 * Decoding follows the well-formed byte sequences of RFC 3629, section 4:
 * overlong forms, surrogates and code points above U+10FFFF are rejected,
 * and a rejected input raises UnicodeDecodeError (here: None).
 */
module Utf8 {
  import opened Python

  type Byte = x: int | 0 <= x < 256

  predicate InRange(x: int, lo: int, hi: int) {
    lo <= x <= hi
  }

  /** The first character of `b` and the number of bytes it takes, if well formed. */
  function DecodeFirst(b: seq<Byte>): (r: Option<(char, nat)>)
    requires |b| > 0
    ensures r.Some? ==> 1 <= r.value.1 <= 4 && r.value.1 <= |b|
  {
    var b0 := b[0] as int;
    if b0 < 0x80 then
      Some((b0 as char, 1))
    else if InRange(b0, 0xC2, 0xDF) then
      if 2 <= |b| && InRange(b[1], 0x80, 0xBF)
      then Some((((b0 - 0xC0) * 64 + (b[1] as int - 0x80)) as char, 2))
      else None
    else if InRange(b0, 0xE0, 0xEF) then
      var lo := if b0 == 0xE0 then 0xA0 else 0x80;
      var hi := if b0 == 0xED then 0x9F else 0xBF;
      if 3 <= |b| && InRange(b[1], lo, hi) && InRange(b[2], 0x80, 0xBF)
      then Some((((b0 - 0xE0) * 4096 + (b[1] as int - 0x80) * 64 + (b[2] as int - 0x80)) as char, 3))
      else None
    else if InRange(b0, 0xF0, 0xF4) then
      var lo := if b0 == 0xF0 then 0x90 else 0x80;
      var hi := if b0 == 0xF4 then 0x8F else 0xBF;
      if 4 <= |b| && InRange(b[1], lo, hi) && InRange(b[2], 0x80, 0xBF) && InRange(b[3], 0x80, 0xBF)
      then Some((((b0 - 0xF0) * 262144 + (b[1] as int - 0x80) * 4096 + (b[2] as int - 0x80) * 64 + (b[3] as int - 0x80)) as char, 4))
      else None
    else
      None
  }

  /** `data.decode("utf-8")`: the decoded text, or None where Python raises. */
  function Decode(b: seq<Byte>): (r: Option<string>)
    ensures r.Some? ==> |r.value| <= |b|
    decreases |b|
  {
    if |b| == 0 then Some("")
    else
      match DecodeFirst(b)
      case None => None
      case Some((c, n)) =>
        match Decode(b[n..])
        case None => None
        case Some(rest) => Some([c] + rest)
  }

  /** `c.encode("utf-8")`. */
  function EncodeChar(c: char): (r: seq<Byte>)
    ensures 1 <= |r| <= 4
  {
    var n := c as int;
    if n < 0x80 then [n]
    else if n < 0x800 then [0xC0 + n / 64, 0x80 + n % 64]
    else if n < 0x10000 then [0xE0 + n / 4096, 0x80 + (n / 64) % 64, 0x80 + n % 64]
    else [0xF0 + n / 262144, 0x80 + (n / 4096) % 64, 0x80 + (n / 64) % 64, 0x80 + n % 64]
  }

  /** `s.encode("utf-8")`. */
  function Encode(s: string): (r: seq<Byte>)
    ensures |r| >= |s|
  {
    if s == "" then [] else EncodeChar(s[0]) + Encode(s[1..])
  }

  lemma DecodeFirstTwo(n: int, rest: seq<Byte>)
    requires 0x80 <= n < 0x800
    ensures DecodeFirst([0xC0 + n / 64, 0x80 + n % 64] + rest) == Some((n as char, 2))
  {
    var hi, lo := n / 64, n % 64;
    assert n == hi * 64 + lo && 2 <= hi < 32 && 0 <= lo < 64;
  }

  lemma DecodeFirstThree(n: int, rest: seq<Byte>)
    requires 0x800 <= n < 0x10000 && !(0xD800 <= n < 0xE000)
    ensures DecodeFirst([0xE0 + n / 4096, 0x80 + (n / 64) % 64, 0x80 + n % 64] + rest) == Some((n as char, 3))
  {
    var top, low := n / 4096, n % 4096;
    assert n == top * 4096 + low && 0 <= low < 4096;
    var mid, last := low / 64, low % 64;
    assert low == mid * 64 + last && 0 <= last < 64;
    assert n / 64 == top * 64 + mid;
    assert (n / 64) % 64 == mid && n % 64 == last;
    assert top == 0 ==> mid >= 32;
    assert top == 13 ==> mid < 32;
  }

  lemma DecodeFirstFour(n: int, rest: seq<Byte>)
    requires 0x10000 <= n < 0x110000
    ensures DecodeFirst([0xF0 + n / 262144, 0x80 + (n / 4096) % 64, 0x80 + (n / 64) % 64, 0x80 + n % 64] + rest)
         == Some((n as char, 4))
  {
    var top, low := n / 262144, n % 262144;
    assert n == top * 262144 + low && 0 <= low < 262144 && top <= 4;
    var second, low2 := low / 4096, low % 4096;
    assert low == second * 4096 + low2 && 0 <= low2 < 4096;
    var third, last := low2 / 64, low2 % 64;
    assert low2 == third * 64 + last && 0 <= last < 64;
    assert n / 4096 == top * 64 + second;
    assert (n / 4096) % 64 == second;
    assert n / 64 == (top * 64 + second) * 64 + third;
    assert (n / 64) % 64 == third && n % 64 == last;
    assert top == 0 ==> second >= 16;
    assert top == 4 ==> second < 16;
  }

  lemma DecodeFirstEncodeChar(c: char, rest: seq<Byte>)
    ensures DecodeFirst(EncodeChar(c) + rest) == Some((c, |EncodeChar(c)|))
  {
    var n := c as int;
    if n < 0x80 {
    } else if n < 0x800 {
      DecodeFirstTwo(n, rest);
    } else if n < 0x10000 {
      DecodeFirstThree(n, rest);
    } else {
      DecodeFirstFour(n, rest);
    }
  }

  /** Decoding undoes encoding: every string survives the UTF-8 round trip. */
  lemma {:induction false} DecodeEncode(s: string)
    ensures Decode(Encode(s)) == Some(s)
  {
    if s != "" {
      var head := EncodeChar(s[0]);
      var tail := Encode(s[1..]);
      DecodeFirstEncodeChar(s[0], tail);
      assert (head + tail)[|head|..] == tail;
      DecodeEncode(s[1..]);
      assert [s[0]] + s[1..] == s;
    }
  }

  lemma EncodeTwo(b0: int, b1: int)
    requires 0xC2 <= b0 <= 0xDF && 0x80 <= b1 <= 0xBF
    ensures var n := (b0 - 0xC0) * 64 + (b1 - 0x80);
      0x80 <= n < 0x800 && 0xC0 + n / 64 == b0 && 0x80 + n % 64 == b1
  {
    var hi, lo := b0 - 0xC0, b1 - 0x80;
    var n := hi * 64 + lo;
    assert n / 64 == hi && n % 64 == lo;
  }

  lemma EncodeThree(b0: int, b1: int, b2: int)
    requires 0xE0 <= b0 <= 0xEF && 0x80 <= b1 <= 0xBF && 0x80 <= b2 <= 0xBF
    requires b0 == 0xE0 ==> b1 >= 0xA0
    ensures var n := (b0 - 0xE0) * 4096 + (b1 - 0x80) * 64 + (b2 - 0x80);
      && 0x800 <= n < 0x10000
      && 0xE0 + n / 4096 == b0 && 0x80 + (n / 64) % 64 == b1 && 0x80 + n % 64 == b2
  {
    var top, mid, last := b0 - 0xE0, b1 - 0x80, b2 - 0x80;
    var low := mid * 64 + last;
    assert 0 <= low < 4096 && low / 64 == mid && low % 64 == last;
    var n := top * 4096 + low;
    assert n / 4096 == top && n % 4096 == low;
    assert n == (top * 64 + mid) * 64 + last;
    assert n / 64 == top * 64 + mid && n % 64 == last;
    assert (n / 64) % 64 == mid;
  }

  lemma EncodeFour(b0: int, b1: int, b2: int, b3: int)
    requires 0xF0 <= b0 <= 0xF4 && 0x80 <= b1 <= 0xBF && 0x80 <= b2 <= 0xBF && 0x80 <= b3 <= 0xBF
    requires b0 == 0xF0 ==> b1 >= 0x90
    requires b0 == 0xF4 ==> b1 <= 0x8F
    ensures var n := (b0 - 0xF0) * 262144 + (b1 - 0x80) * 4096 + (b2 - 0x80) * 64 + (b3 - 0x80);
      && 0x10000 <= n < 0x110000
      && 0xF0 + n / 262144 == b0 && 0x80 + (n / 4096) % 64 == b1
      && 0x80 + (n / 64) % 64 == b2 && 0x80 + n % 64 == b3
  {
    var top, second, third, last := b0 - 0xF0, b1 - 0x80, b2 - 0x80, b3 - 0x80;
    var low2 := third * 64 + last;
    assert 0 <= low2 < 4096 && low2 / 64 == third && low2 % 64 == last;
    var low := second * 4096 + low2;
    assert 0 <= low < 262144 && low / 4096 == second && low % 4096 == low2;
    var n := top * 262144 + low;
    assert n / 262144 == top && n % 262144 == low;
    assert n == (top * 64 + second) * 4096 + low2;
    assert n / 4096 == top * 64 + second && (n / 4096) % 64 == second;
    assert n == ((top * 64 + second) * 64 + third) * 64 + last;
    assert n / 64 == (top * 64 + second) * 64 + third && n % 64 == last;
    assert (n / 64) % 64 == third;
  }

  /** The bytes the first decoded character takes are that character's encoding. */
  lemma EncodeDecodeFirst(b: seq<Byte>)
    requires |b| > 0 && DecodeFirst(b).Some?
    ensures EncodeChar(DecodeFirst(b).value.0) == b[..DecodeFirst(b).value.1]
  {
    var b0 := b[0] as int;
    if b0 < 0x80 {
    } else if InRange(b0, 0xC2, 0xDF) {
      EncodeTwo(b0, b[1]);
    } else if InRange(b0, 0xE0, 0xEF) {
      EncodeThree(b0, b[1], b[2]);
    } else {
      EncodeFour(b0, b[1], b[2], b[3]);
    }
  }

  /**
   * Whatever decodes is the encoding of what it decodes to, so strict decoding
   * accepts exactly the encodings of strings: overlong forms, surrogates and
   * stray continuation bytes, which no encoding contains, give None.
   */
  lemma {:induction false} EncodeDecode(b: seq<Byte>)
    requires Decode(b).Some?
    ensures Encode(Decode(b).value) == b
    decreases |b|
  {
    if |b| > 0 {
      var (c, n) := DecodeFirst(b).value;
      EncodeDecodeFirst(b);
      EncodeDecode(b[n..]);
      var rest := Decode(b[n..]).value;
      assert Decode(b).value == [c] + rest;
      assert ([c] + rest)[1..] == rest;
      assert b[..n] + b[n..] == b;
    }
  }

  /** `data.decode("utf-8")` succeeds with `s` exactly when `data` is the encoding of `s`. */
  lemma DecodeIffEncoding(b: seq<Byte>, s: string)
    ensures Decode(b) == Some(s) <==> b == Encode(s)
  {
    if Decode(b) == Some(s) {
      EncodeDecode(b);
    }
    if b == Encode(s) {
      DecodeEncode(s);
    }
  }

  /** Ill-formed inputs raise: an overlong form, a surrogate, a stray continuation byte, a truncated sequence. */
  lemma IllFormedRejected()
    ensures Decode([0xC0, 0x80]) == None
    ensures Decode([0xED, 0xA0, 0x80]) == None
    ensures Decode([0x80]) == None
    ensures Decode([0xE2, 0x82]) == None
  {
  }

  /** ASCII bytes decode one character per byte. */
  lemma {:induction false} DecodeAscii(b: seq<Byte>)
    requires forall i :: 0 <= i < |b| ==> b[i] < 0x80
    ensures Decode(b).Some? && |Decode(b).value| == |b|
    ensures forall i :: 0 <= i < |b| ==> Decode(b).value[i] as int == b[i]
    decreases |b|
  {
    if |b| > 0 {
      DecodeAscii(b[1..]);
    }
  }
}
