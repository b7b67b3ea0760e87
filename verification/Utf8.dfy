/** Byte strings: zero-terminated text and the UTF-8 check of `std::str::from_utf8`. */
module Utf8 {
  import opened Numbers
  import opened Framing

  predicate Continuation(b: byte) { 0x80 <= b <= 0xBF }

  /** How many bytes the scalar at the front takes, or 0 when the bytes are not well formed
      (table 3-7 of the Unicode standard). */
  function ScalarLength(s: seq<byte>): (n: nat)
    requires s != []
    ensures n <= |s|
  {
    var a := s[0];
    if a < 0x80 then 1
    else if |s| >= 2 && 0xC2 <= a <= 0xDF && Continuation(s[1]) then 2
    else if |s| >= 3 && Continuation(s[2])
            && ((a == 0xE0 && 0xA0 <= s[1] <= 0xBF)
                || ((0xE1 <= a <= 0xEC || 0xEE <= a <= 0xEF) && Continuation(s[1]))
                || (a == 0xED && 0x80 <= s[1] <= 0x9F)) then 3
    else if |s| >= 4 && Continuation(s[2]) && Continuation(s[3])
            && ((a == 0xF0 && 0x90 <= s[1] <= 0xBF)
                || (0xF1 <= a <= 0xF3 && Continuation(s[1]))
                || (a == 0xF4 && 0x80 <= s[1] <= 0x8F)) then 4
    else 0
  }

  predicate ValidUtf8(s: seq<byte>)
    decreases |s|
  {
    s == [] || (ScalarLength(s) > 0 && ValidUtf8(s[ScalarLength(s)..]))
  }

  // ------------------------------------------------------------------ scalar values

  /** A code point that is no surrogate. */
  predicate Scalar(v: int) { 0 <= v <= 0x10_FFFF && !(0xD800 <= v <= 0xDFFF) }

  /** A scalar value in as many bytes as it needs, six bits to a byte behind the first. */
  function Encoded(v: int): (r: seq<byte>)
    requires Scalar(v)
    ensures 1 <= |r| <= 4
  {
    if v < 0x80 then [v]
    else if v < 0x800 then [0xC0 + v / 64, 0x80 + v % 64]
    else if v < 0x1_0000 then [0xE0 + v / 4096, 0x80 + v / 64 % 64, 0x80 + v % 64]
    else [0xF0 + v / 262144, 0x80 + v / 4096 % 64, 0x80 + v / 64 % 64, 0x80 + v % 64]
  }

  function EncodedAll(vs: seq<int>): seq<byte>
    requires forall v :: v in vs ==> Scalar(v)
  {
    if vs == [] then [] else Encoded(vs[0]) + EncodedAll(vs[1..])
  }

  /** How long a scalar is shows in its own bytes. */
  lemma LengthIsLocal(s: seq<byte>, rest: seq<byte>)
    requires s != [] && ScalarLength(s) == |s|
    ensures ScalarLength(s + rest) == |s|
  {
    var t := s + rest;
    assert t[0] == s[0] && (|s| >= 2 ==> t[1] == s[1]) && (|s| >= 3 ==> t[2] == s[2]) && (|s| >= 4 ==> t[3] == s[3]);
  }

  lemma EncodedLength(v: int)
    requires Scalar(v)
    ensures ScalarLength(Encoded(v)) == |Encoded(v)|
  {
  }

  lemma ScalarIsRead(v: int, rest: seq<byte>)
    requires Scalar(v)
    ensures ScalarLength(Encoded(v) + rest) == |Encoded(v)|
  {
    EncodedLength(v);
    LengthIsLocal(Encoded(v), rest);
  }

  lemma SixBits(high: int, low: int)
    requires 0 <= low < 64
    ensures (high * 64 + low) / 64 == high && (high * 64 + low) % 64 == low
  {
  }

  lemma ThreeBytes(a: int, b: int, c: int)
    requires 0 <= b < 64 && 0 <= c < 64
    ensures var v := (a * 64 + b) * 64 + c; v / 4096 == a && v / 64 % 64 == b && v % 64 == c
  {
    SixBits(a * 64 + b, c);
    SixBits(a, b);
  }

  lemma FourBytes(a: int, b: int, c: int, d: int)
    requires 0 <= b < 64 && 0 <= c < 64 && 0 <= d < 64
    ensures var v := ((a * 64 + b) * 64 + c) * 64 + d;
            v / 262144 == a && v / 4096 % 64 == b && v / 64 % 64 == c && v % 64 == d
  {
    ThreeBytes(a * 64 + b, c, d);
    SixBits(a, b);
  }

  lemma TwoIsScalar(a: byte, b: byte) returns (v: int)
    requires ScalarLength([a, b]) == 2
    ensures Scalar(v) && Encoded(v) == [a, b]
  {
    SixBits(a - 0xC0, b - 0x80);
    v := (a as int - 0xC0) * 64 + (b as int - 0x80);
  }

  lemma ThreeIsScalar(a: byte, b: byte, c: byte) returns (v: int)
    requires ScalarLength([a, b, c]) == 3
    ensures Scalar(v) && Encoded(v) == [a, b, c]
  {
    ThreeBytes(a - 0xE0, b - 0x80, c - 0x80);
    v := ((a as int - 0xE0) * 64 + (b as int - 0x80)) * 64 + (c as int - 0x80);
  }

  lemma FourIsScalar(a: byte, b: byte, c: byte, d: byte) returns (v: int)
    requires ScalarLength([a, b, c, d]) == 4
    ensures Scalar(v) && Encoded(v) == [a, b, c, d]
  {
    FourBytes(a - 0xF0, b - 0x80, c - 0x80, d - 0x80);
    v := (((a as int - 0xF0) * 64 + (b as int - 0x80)) * 64 + (c as int - 0x80)) * 64 + (d as int - 0x80);
  }

  lemma ReadIsScalar(s: seq<byte>) returns (v: int)
    requires s != [] && ScalarLength(s) > 0
    ensures Scalar(v) && Encoded(v) == s[..ScalarLength(s)]
  {
    var n := ScalarLength(s);
    if n == 1 {
      v := s[0];
    } else if n == 2 {
      v := TwoIsScalar(s[0], s[1]);
    } else if n == 3 {
      v := ThreeIsScalar(s[0], s[1], s[2]);
    } else {
      v := FourIsScalar(s[0], s[1], s[2], s[3]);
    }
  }

  /** What is written from scalar values is valid. */
  lemma {:induction false} EncodedIsValid(vs: seq<int>)
    requires forall v :: v in vs ==> Scalar(v)
    ensures ValidUtf8(EncodedAll(vs))
  {
    if vs != [] {
      EncodedIsValid(vs[1..]);
      ScalarIsRead(vs[0], EncodedAll(vs[1..]));
      assert EncodedAll(vs)[|Encoded(vs[0])|..] == EncodedAll(vs[1..]);
    }
  }

  /** And whatever is valid was written from scalar values. */
  lemma {:induction false} ValidIsEncoded(s: seq<byte>) returns (vs: seq<int>)
    requires ValidUtf8(s)
    ensures (forall v :: v in vs ==> Scalar(v)) && EncodedAll(vs) == s
    decreases |s|
  {
    if s == [] {
      vs := [];
    } else {
      var n := ScalarLength(s);
      var v := ReadIsScalar(s);
      var rest := ValidIsEncoded(s[n..]);
      vs := [v] + rest;
      assert vs[1..] == rest && s == s[..n] + s[n..];
    }
  }

  /** `str::is_char_boundary`: a character starts here, or the text ends. */
  predicate Boundary(s: seq<byte>, k: nat) {
    k == 0 || k == |s| || (k < |s| && !Continuation(s[k]))
  }

  lemma StartIsBoundary(s: seq<byte>)
    requires ValidUtf8(s)
    ensures Boundary(s, 0) && (s != [] ==> !Continuation(s[0]))
  {
  }

  /** In well-formed text a character starts right after every ASCII byte. */
  lemma {:induction false} AfterAscii(s: seq<byte>, k: nat)
    requires ValidUtf8(s) && k < |s| && s[k] < 0x80
    ensures Boundary(s, k + 1)
    decreases |s|
  {
    var n := ScalarLength(s);
    var rest := s[n..];
    StartIsBoundary(rest);
    if k >= n {
      AfterAscii(rest, k - n);
    }
  }

  /** Where the first zero byte is. */
  function FirstNul(s: seq<byte>): (r: Option<nat>)
    ensures r.Some? ==> r.value < |s| && s[r.value] == 0 && 0 !in s[..r.value]
    ensures r.None? ==> 0 !in s
  {
    if s == [] then None
    else if s[0] == 0 then Some(0)
    else
      var r := FirstNul(s[1..]);
      if r.None? then None else
        assert s[..r.value + 1] == [s[0]] + s[1..][..r.value];
        Some(r.value + 1)
  }

  /** Text without a zero byte is what is found before the terminator. */
  lemma {:induction false} NulAfterText(text: seq<byte>, rest: seq<byte>)
    requires 0 !in text
    ensures FirstNul(text + [0] + rest) == Some(|text|)
  {
    var s := text + [0] + rest;
    if text != [] {
      assert text[0] in text;
      NulAfterText(text[1..], rest);
      assert s[1..] == text[1..] + [0] + rest;
    }
  }
}
