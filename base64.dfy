/**
 * Base64 as `encoding/base64.StdEncoding` decodes it (RFC 4648 section 4:
 * standard alphabet, `=` padding required). Like Go's non-strict decoder,
 * `Decode` skips carriage returns and line feeds anywhere in the input and
 * accepts non-zero bits in the last character before padding. `Encode` is the
 * RFC's encoder, the partner the round trip is proved against.
 */
module Base64 {
  import opened Wrappers
  import opened Text

  predicate IsByte(c: char) { c as int < 256 }

  predicate IsBytes(s: Bytes) { forall i :: 0 <= i < |s| ==> IsByte(s[i]) }

  /** A character of the standard alphabet `A-Z a-z 0-9 + /`. */
  predicate InAlphabet(c: char) {
    ('A' <= c <= 'Z') || ('a' <= c <= 'z') || ('0' <= c <= '9') || c == '+' || c == '/'
  }

  /** The alphabet character for a 6-bit value. */
  function Digit(v: nat): (c: char)
    requires v < 64
    ensures InAlphabet(c)
  {
    if v < 26 then ('A' as int + v) as char
    else if v < 52 then ('a' as int + v - 26) as char
    else if v < 62 then ('0' as int + v - 52) as char
    else if v == 62 then '+'
    else '/'
  }

  /** The 6-bit value of an alphabet character; the inverse of `Digit`. */
  function Value(c: char): (v: nat)
    requires InAlphabet(c)
    ensures v < 64 && Digit(v) == c
  {
    if 'A' <= c <= 'Z' then c as int - 'A' as int
    else if 'a' <= c <= 'z' then c as int - 'a' as int + 26
    else if '0' <= c <= '9' then c as int - '0' as int + 52
    else if c == '+' then 62
    else 63
  }

  lemma ValueOfDigit(v: nat)
    requires v < 64
    ensures Value(Digit(v)) == v
  {
  }

  /** The input with every `'\r'` and `'\n'` removed, as the decoder skips them. */
  function WithoutLineBreaks(s: string): (r: string)
    ensures '\r' !in r && '\n' !in r
    ensures |r| <= |s|
  {
    if s == [] then []
    else (if s[0] == '\r' || s[0] == '\n' then [] else [s[0]]) + WithoutLineBreaks(s[1..])
  }

  function Byte(v: nat): (c: char)
    requires v < 256
    ensures IsByte(c)
  {
    v as char
  }

  /** The three bytes packed in four 6-bit values (the first one, two or all three are used). */
  function Bytes3(a: nat, b: nat, c: nat, d: nat): (r: Bytes)
    requires a < 64 && b < 64 && c < 64 && d < 64
    ensures |r| == 3 && IsBytes(r)
  {
    [Byte(a * 4 + b / 16), Byte((b % 16) * 16 + c / 4), Byte((c % 4) * 64 + d)]
  }

  /** The last quantum: four characters, full or ending in `=` or `==`. */
  function DecodeFinal(a: char, b: char, c: char, d: char): (r: Option<Bytes>)
    ensures r.Some? ==> 1 <= |r.value| <= 3 && IsBytes(r.value)
  {
    if !InAlphabet(a) || !InAlphabet(b) then None
    else if InAlphabet(c) && InAlphabet(d) then Some(Bytes3(Value(a), Value(b), Value(c), Value(d)))
    else if InAlphabet(c) && d == '=' then Some(Bytes3(Value(a), Value(b), Value(c), 0)[..2])
    else if c == '=' && d == '=' then Some(Bytes3(Value(a), Value(b), 0, 0)[..1])
    else None
  }

  /** Quanta of four characters; padding may only close the last one. */
  function DecodeQuanta(s: string): (r: Option<Bytes>)
    ensures r.Some? ==> IsBytes(r.value)
    decreases |s|
  {
    if s == [] then Some([])
    else if |s| < 4 then None
    else if |s| == 4 then DecodeFinal(s[0], s[1], s[2], s[3])
    else if InAlphabet(s[0]) && InAlphabet(s[1]) && InAlphabet(s[2]) && InAlphabet(s[3]) then
      match DecodeQuanta(s[4..])
      case None => None
      case Some(rest) => Some(Bytes3(Value(s[0]), Value(s[1]), Value(s[2]), Value(s[3])) + rest)
    else None
  }

  /** `base64.StdEncoding.DecodeString(s)`; None when Go reports a `CorruptInputError`. */
  function Decode(s: string): (r: Option<Bytes>)
    ensures r.Some? ==> IsBytes(r.value)
  {
    DecodeQuanta(WithoutLineBreaks(s))
  }

  /** Only whole quanta decode, each to three bytes but the last, which gives one to three: the length `Encode` gives. */
  lemma {:induction false} DecodedLength(s: string)
    ensures var r := DecodeQuanta(s);
      r.Some? ==> |s| == 4 * Quanta(|r.value|)
    decreases |s|
  {
    if |s| > 4 {
      DecodedLength(s[4..]);
    }
  }

  /** The four characters that encode three bytes. */
  function Quad(b0: nat, b1: nat, b2: nat): (r: string)
    requires b0 < 256 && b1 < 256 && b2 < 256
    ensures |r| == 4 && InAlphabet(r[0]) && InAlphabet(r[1]) && InAlphabet(r[2]) && InAlphabet(r[3])
  {
    [Digit(b0 / 4), Digit((b0 % 4) * 16 + b1 / 16), Digit((b1 % 16) * 4 + b2 / 64), Digit(b2 % 64)]
  }

  /** Alphabet characters and padding only. */
  predicate IsEncoding(s: string) {
    forall i :: 0 <= i < |s| ==> InAlphabet(s[i]) || s[i] == '='
  }

  lemma EncodingAppend(a: string, b: string)
    requires IsEncoding(a) && IsEncoding(b)
    ensures IsEncoding(a + b)
  {
    forall i | 0 <= i < |a + b| ensures InAlphabet((a + b)[i]) || (a + b)[i] == '=' {
      if i >= |a| {
        assert (a + b)[i] == b[i - |a|];
      }
    }
  }

  /** The last one or two bytes: two or three characters and the padding. */
  function EncodeFinal(b: Bytes): (s: string)
    requires IsBytes(b) && 1 <= |b| <= 2
    ensures |s| == 4 && IsEncoding(s)
  {
    if |b| == 1 then Quad(b[0] as nat, 0, 0)[..2] + "=="
    else Quad(b[0] as nat, b[1] as nat, 0)[..3] + "="
  }

  /** The number of four-character quanta for `n` bytes: one per three bytes, rounded up. */
  function Quanta(n: nat): nat {
    if n == 0 then 0 else if n <= 3 then 1 else 1 + Quanta(n - 3)
  }

  /** Three bytes to four characters: `Encode` is a quarter longer, rounded up to whole quanta. */
  lemma {:induction false} QuantaCount(n: nat)
    ensures Quanta(n) == (n + 2) / 3
  {
    if n > 3 {
      QuantaCount(n - 3);
    }
  }

  /** RFC 4648 base64 with the standard alphabet and padding. */
  function Encode(b: Bytes): (s: string)
    requires IsBytes(b)
    ensures |s| == 4 * Quanta(|b|)
    ensures |b| > 0 ==> |s| >= 4
    ensures |b| > 3 ==> |s| > 4
    ensures IsEncoding(s)
    decreases |b|
  {
    if |b| == 0 then ""
    else if |b| <= 2 then EncodeFinal(b)
    else
      var q, rest := Quad(b[0] as nat, b[1] as nat, b[2] as nat), Encode(b[3..]);
      EncodingAppend(q, rest);
      q + rest
  }

  lemma {:induction false} EncodeHasNoLineBreaks(b: Bytes)
    requires IsBytes(b)
    ensures WithoutLineBreaks(Encode(b)) == Encode(b)
    decreases |b|
  {
    var e := Encode(b);
    if |b| >= 3 {
      EncodeHasNoLineBreaks(b[3..]);
    }
    WithoutLineBreaksOfClean(e);
  }

  lemma {:induction false} WithoutLineBreaksOfClean(s: string)
    requires IsEncoding(s)
    ensures WithoutLineBreaks(s) == s
  {
    if s != [] {
      WithoutLineBreaksOfClean(s[1..]);
      assert [s[0]] + s[1..] == s;
    }
  }

  /** The 6-bit fields of three bytes put back together give the bytes. */
  lemma FieldsRoundTrip(b0: nat, b1: nat, b2: nat)
    requires b0 < 256 && b1 < 256 && b2 < 256
    ensures var c1, c2 := (b0 % 4) * 16 + b1 / 16, (b1 % 16) * 4 + b2 / 64;
      && (b0 / 4) * 4 + c1 / 16 == b0
      && (c1 % 16) * 16 + c2 / 4 == b1
      && (c2 % 4) * 64 + b2 % 64 == b2
  {
    var c1, c2 := (b0 % 4) * 16 + b1 / 16, (b1 % 16) * 4 + b2 / 64;
    assert c1 / 16 == b0 % 4 && c1 % 16 == b1 / 16;
    assert c2 / 4 == b1 % 16 && c2 % 4 == b2 / 64;
  }

  /** Decoding the four characters of `Quad` gives the three bytes back. */
  lemma QuadRoundTrip(b0: nat, b1: nat, b2: nat)
    requires b0 < 256 && b1 < 256 && b2 < 256
    ensures var q := Quad(b0, b1, b2);
      Bytes3(Value(q[0]), Value(q[1]), Value(q[2]), Value(q[3])) == [Byte(b0), Byte(b1), Byte(b2)]
  {
    var c0, c1, c2, c3 := b0 / 4, (b0 % 4) * 16 + b1 / 16, (b1 % 16) * 4 + b2 / 64, b2 % 64;
    ValueOfDigit(c0); ValueOfDigit(c1); ValueOfDigit(c2); ValueOfDigit(c3);
    FieldsRoundTrip(b0, b1, b2);
  }

  /** Decoding what `Encode` produced gives the bytes back. */
  lemma {:induction false} RoundTrip(b: Bytes)
    requires IsBytes(b)
    ensures Decode(Encode(b)) == Some(b)
  {
    EncodeHasNoLineBreaks(b);
    QuantaRoundTrip(b);
  }

  lemma {:induction false} QuantaRoundTrip(b: Bytes)
    requires IsBytes(b)
    ensures DecodeQuanta(Encode(b)) == Some(b)
    decreases |b|
  {
    if |b| == 1 {
      OneByteRoundTrip(b);
    } else if |b| == 2 {
      TwoBytesRoundTrip(b);
    } else if |b| == 3 {
      ThreeBytesRoundTrip(b);
    } else if |b| > 3 {
      QuantaRoundTrip(b[3..]);
      LongRoundTrip(b);
    }
  }

  lemma OneByteRoundTrip(b: Bytes)
    requires IsBytes(b) && |b| == 1
    ensures DecodeQuanta(Encode(b)) == Some(b)
  {
    var v := b[0] as nat;
    var c0, c1 := v / 4, (v % 4) * 16;
    EncodeOne(b);
    DecodeTwoPads(c0, c1);
    FieldsRoundTrip(v, 0, 0);
    SameByte(b, c0 * 4 + c1 / 16);
  }

  lemma EncodeOne(b: Bytes)
    requires IsBytes(b) && |b| == 1
    ensures Encode(b) == [Digit(b[0] as nat / 4), Digit((b[0] as nat % 4) * 16), '=', '=']
  {
  }

  lemma SameByte(b: Bytes, v: nat)
    requires |b| == 1 && v == b[0] as nat
    ensures v < 256 ==> [Byte(v)] == b
  {
  }

  lemma DecodeTwoPads(c0: nat, c1: nat)
    requires c0 < 64 && c1 < 64
    ensures DecodeQuanta([Digit(c0), Digit(c1), '=', '=']) == Some([Byte(c0 * 4 + c1 / 16)])
  {
    var e := [Digit(c0), Digit(c1), '=', '='];
    ValueOfDigit(c0); ValueOfDigit(c1);
    assert DecodeQuanta(e) == DecodeFinal(e[0], e[1], e[2], e[3]);
    assert !InAlphabet('=');
    assert DecodeFinal(e[0], e[1], e[2], e[3]) == Some(Bytes3(c0, c1, 0, 0)[..1]);
    assert Bytes3(c0, c1, 0, 0)[..1] == [Byte(c0 * 4 + c1 / 16)];
  }

  lemma TwoBytesRoundTrip(b: Bytes)
    requires IsBytes(b) && |b| == 2
    ensures DecodeQuanta(Encode(b)) == Some(b)
  {
    var v0, v1 := b[0] as nat, b[1] as nat;
    var c0, c1, c2 := v0 / 4, (v0 % 4) * 16 + v1 / 16, (v1 % 16) * 4;
    TwoFields(v0, v1);
    EncodeTwo(b);
    DecodeOnePad(c0, c1, c2);
    SameBytes(b, c0 * 4 + c1 / 16, (c1 % 16) * 16 + c2 / 4);
  }

  lemma TwoFields(v0: nat, v1: nat)
    requires v0 < 256 && v1 < 256
    ensures var c0, c1, c2 := v0 / 4, (v0 % 4) * 16 + v1 / 16, (v1 % 16) * 4;
      && c0 < 64 && c1 < 64 && c2 < 64
      && c0 * 4 + c1 / 16 == v0
      && (c1 % 16) * 16 + c2 / 4 == v1
  {
    FieldsRoundTrip(v0, v1, 0);
  }

  lemma EncodeTwo(b: Bytes)
    requires IsBytes(b) && |b| == 2
    ensures var v0, v1 := b[0] as nat, b[1] as nat;
      Encode(b) == [Digit(v0 / 4), Digit((v0 % 4) * 16 + v1 / 16), Digit((v1 % 16) * 4), '=']
  {
    var v0, v1 := b[0] as nat, b[1] as nat;
    var q := Quad(v0, v1, 0);
    assert Encode(b) == q[..3] + "=";
    assert q[..3] == [Digit(v0 / 4), Digit((v0 % 4) * 16 + v1 / 16), Digit((v1 % 16) * 4)];
  }

  lemma SameBytes(b: Bytes, v0: nat, v1: nat)
    requires |b| == 2 && v0 == b[0] as nat && v1 == b[1] as nat
    ensures v0 < 256 && v1 < 256 ==> [Byte(v0), Byte(v1)] == b
  {
  }

  lemma DecodeOnePad(c0: nat, c1: nat, c2: nat)
    requires c0 < 64 && c1 < 64 && c2 < 64
    ensures DecodeQuanta([Digit(c0), Digit(c1), Digit(c2), '='])
         == Some([Byte(c0 * 4 + c1 / 16), Byte((c1 % 16) * 16 + c2 / 4)])
  {
    var e := [Digit(c0), Digit(c1), Digit(c2), '='];
    ValueOfDigit(c0); ValueOfDigit(c1); ValueOfDigit(c2);
    assert DecodeQuanta(e) == DecodeFinal(e[0], e[1], e[2], e[3]);
    assert !InAlphabet('=');
    assert DecodeFinal(e[0], e[1], e[2], e[3]) == Some(Bytes3(c0, c1, c2, 0)[..2]);
    assert Bytes3(c0, c1, c2, 0)[..2] == [Byte(c0 * 4 + c1 / 16), Byte((c1 % 16) * 16 + c2 / 4)];
  }

  lemma ThreeBytesRoundTrip(b: Bytes)
    requires IsBytes(b) && |b| == 3
    ensures DecodeQuanta(Encode(b)) == Some(b)
  {
    var v0, v1, v2 := b[0] as nat, b[1] as nat, b[2] as nat;
    var q := Quad(v0, v1, v2);
    EncodeThree(b);
    DecodeFull(q);
    QuadRoundTrip(v0, v1, v2);
    SameThree(b, v0, v1, v2);
  }

  lemma DecodeFull(q: string)
    requires |q| == 4 && InAlphabet(q[0]) && InAlphabet(q[1]) && InAlphabet(q[2]) && InAlphabet(q[3])
    ensures DecodeQuanta(q) == Some(Bytes3(Value(q[0]), Value(q[1]), Value(q[2]), Value(q[3])))
  {
  }

  lemma SameThree(b: Bytes, v0: nat, v1: nat, v2: nat)
    requires |b| == 3 && v0 == b[0] as nat && v1 == b[1] as nat && v2 == b[2] as nat
    ensures v0 < 256 && v1 < 256 && v2 < 256 ==> [Byte(v0), Byte(v1), Byte(v2)] == b
  {
  }

  lemma EncodeThree(b: Bytes)
    requires IsBytes(b) && |b| == 3
    ensures Encode(b) == Quad(b[0] as nat, b[1] as nat, b[2] as nat)
  {
    assert Encode(b[3..]) == "";
  }

  lemma LongRoundTrip(b: Bytes)
    requires IsBytes(b) && |b| > 3
    requires DecodeQuanta(Encode(b[3..])) == Some(b[3..])
    ensures DecodeQuanta(Encode(b)) == Some(b)
  {
    var e := Encode(b);
    var q := Quad(b[0] as nat, b[1] as nat, b[2] as nat);
    EncodeLong(b);
    assert e[4..] == Encode(b[3..]);
    assert e[..4] == q;
    QuadRoundTrip(b[0] as nat, b[1] as nat, b[2] as nat);
    SplitThree(b);
  }

  lemma EncodeLong(b: Bytes)
    requires IsBytes(b) && |b| > 3
    ensures Encode(b) == Quad(b[0] as nat, b[1] as nat, b[2] as nat) + Encode(b[3..])
  {
  }

  lemma SplitThree(b: Bytes)
    requires IsBytes(b) && |b| >= 3
    ensures b == [Byte(b[0] as nat), Byte(b[1] as nat), Byte(b[2] as nat)] + b[3..]
  {
  }
}
