/**
 * Cutting text to a number of UTF-8 bytes and decoding what is left, as the container logs are
 * before they are stored. UTF-8 is that of section 3 of RFC 3629; a decoder replaces each
 * malformed or truncated sequence by U+FFFD.
 */
module Utf8Truncation {

  type Byte = b: int | 0 <= b < 256
  /** A code point. Text may hold unpaired surrogates, which have no encoding of their own. */
  type Rune = c: int | 0 <= c < 0x110000

  const REPLACEMENT: Rune := 0xFFFD

  predicate IsSurrogate(c: Rune) {
    0xD800 <= c < 0xE000
  }

  /** What becomes of a code point when it is encoded and decoded again. */
  function Scalar(c: Rune): Rune {
    if IsSurrogate(c) then REPLACEMENT else c
  }

  function Scalars(text: seq<Rune>): seq<Rune> {
    seq(|text|, i requires 0 <= i < |text| => Scalar(text[i]))
  }

  /** Section 3 of RFC 3629, for a code point that is not a surrogate. */
  function EncodeScalar(c: Rune): (bytes: seq<Byte>)
    ensures 1 <= |bytes| <= 4
  {
    if c < 0x80 then [c]
    else if c < 0x800 then [0xC0 + c / 64, 0x80 + c % 64]
    else if c < 0x10000 then [0xE0 + c / 4096, 0x80 + c / 64 % 64, 0x80 + c % 64]
    else [0xF0 + c / 262144, 0x80 + c / 4096 % 64, 0x80 + c / 64 % 64, 0x80 + c % 64]
  }

  function EncodeRune(c: Rune): seq<Byte> {
    EncodeScalar(Scalar(c))
  }

  function Encode(text: seq<Rune>): seq<Byte> {
    if text == [] then [] else EncodeRune(text[0]) + Encode(text[1..])
  }

  /** How many bytes follow a lead byte; 0 for an ASCII byte, -1 for a byte that cannot lead. */
  function Followers(lead: Byte): int {
    if lead < 0x80 then 0
    else if 0xC2 <= lead < 0xE0 then 1
    else if 0xE0 <= lead < 0xF0 then 2
    else if 0xF0 <= lead < 0xF5 then 3
    else -1
  }

  /**
   * The range of the byte after the lead is narrowed to exclude overlong forms, surrogates and values
   * past U+10FFFF.
   */
  predicate Follows(lead: Byte, position: nat, b: Byte) {
    var low := if position == 1 && lead == 0xE0 then 0xA0 else if position == 1 && lead == 0xF0 then 0x90 else 0x80;
    var high := if position == 1 && lead == 0xED then 0x9F else if position == 1 && lead == 0xF4 then 0x8F else 0xBF;
    low <= b <= high
  }

  /** The length of the longest well-formed beginning of a sequence at the start of `bytes`. */
  function GoodPrefix(bytes: seq<Byte>, n: nat): (k: nat)
    requires bytes != [] && n >= 1
    ensures 1 <= k <= n && k <= |bytes|
  {
    if n == 1 then 1
    else
      var k := GoodPrefix(bytes, n - 1);
      if k == n - 1 && n - 1 < |bytes| && Follows(bytes[0], n - 1, bytes[n - 1]) then n else k
  }

  function Combine(bytes: seq<Byte>): int
    requires 1 <= |bytes| <= 4
  {
    var value: seq<int> := bytes;
    if |bytes| == 1 then value[0]
    else if |bytes| == 2 then (value[0] - 0xC0) * 64 + (value[1] - 0x80)
    else if |bytes| == 3 then (value[0] - 0xE0) * 4096 + (value[1] - 0x80) * 64 + (value[2] - 0x80)
    else (value[0] - 0xF0) * 262144 + (value[1] - 0x80) * 4096 + (value[2] - 0x80) * 64 + (value[3] - 0x80)
  }

  /** One decoded code point and the number of bytes it consumed. */
  function DecodeOne(bytes: seq<Byte>): (r: (Rune, nat))
    requires bytes != []
    ensures 1 <= r.1 <= |bytes|
  {
    var n := Followers(bytes[0]);
    if n < 0 then (REPLACEMENT, 1)
    else
      var k := GoodPrefix(bytes, n + 1);
      if k < n + 1 then (REPLACEMENT, k)
      else
        var c := Combine(bytes[..k]);
        (if 0 <= c < 0x110000 then c else REPLACEMENT, k)
  }

  function Decode(bytes: seq<Byte>): seq<Rune>
    decreases |bytes|
  {
    if bytes == [] then []
    else
      var (c, k) := DecodeOne(bytes);
      [c] + Decode(bytes[k..])
  }

  /** The cut: text that fits is returned as it is. */
  function Truncate(text: seq<Rune>, max: nat): seq<Rune> {
    if |Encode(text)| <= max then text else Decode(Encode(text)[..max])
  }

  // ---- Decoding what was encoded -------------------------------------------------

  /** A whole encoded code point decodes to itself, whatever follows it. */
  lemma DecodeWhole(c: Rune, rest: seq<Byte>)
    requires !IsSurrogate(c)
    ensures DecodeOne(EncodeScalar(c) + rest) == (c, |EncodeScalar(c)|)
  {
    var e := EncodeScalar(c);
    var bytes := e + rest;
    assert bytes[..|e|] == e;
    EncodedPrefixIsGood(c, bytes, |e|);
    CombineEncoded(c);
  }

  lemma CombineEncoded(c: Rune)
    ensures Combine(EncodeScalar(c)) == c
  {
    var q, r := c / 64, c / 4096;
    assert c == q * 64 + c % 64 && q == r * 64 + q % 64 && r == c / 262144 * 64 + r % 64 by { Digits(c); }
    var e := EncodeScalar(c);
    if c < 0x80 {
      assert e == [c];
    } else if c < 0x800 {
      assert e == [0xC0 + q, 0x80 + c % 64];
    } else if c < 0x10000 {
      assert e == [0xE0 + r, 0x80 + q % 64, 0x80 + c % 64];
    } else {
      assert e == [0xF0 + c / 262144, 0x80 + r % 64, 0x80 + q % 64, 0x80 + c % 64];
    }
  }

  lemma Digits(c: nat)
    ensures c / 64 / 64 == c / 4096 && c / 4096 / 64 == c / 262144
  {
  }

  lemma EncodedPrefixIsGood(c: Rune, bytes: seq<Byte>, n: nat)
    requires !IsSurrogate(c) && 1 <= n <= |bytes| && n <= |EncodeScalar(c)| && bytes[..n] == EncodeScalar(c)[..n]
    ensures GoodPrefix(bytes, n) == n && Followers(bytes[0]) == |EncodeScalar(c)| - 1
    decreases n
  {
    assert bytes[0] == bytes[..n][0] == EncodeScalar(c)[0];
    if n > 1 {
      assert bytes[..n - 1] == EncodeScalar(c)[..n - 1] by {
        assert bytes[..n - 1] == bytes[..n][..n - 1];
      }
      EncodedPrefixIsGood(c, bytes, n - 1);
      assert bytes[n - 1] == bytes[..n][n - 1] == EncodeScalar(c)[n - 1];
    }
  }

  /** A code point cut off in the middle decodes to one replacement character. */
  lemma DecodeCut(c: Rune, k: nat)
    requires !IsSurrogate(c) && 1 <= k < |EncodeScalar(c)|
    ensures Decode(EncodeScalar(c)[..k]) == [REPLACEMENT]
  {
    var cut := EncodeScalar(c)[..k];
    EncodedPrefixIsGood(c, cut, k);
    var n := |EncodeScalar(c)|;
    CutIsShort(cut, k, n);
    assert cut[k..] == [];
  }

  lemma CutIsShort(bytes: seq<Byte>, k: nat, n: nat)
    requires 1 <= k == |bytes| <= n && GoodPrefix(bytes, k) == k
    ensures GoodPrefix(bytes, n) == k
    decreases n
  {
    if k < n {
      CutIsShort(bytes, k, n - 1);
    }
  }

  /** Encoding and decoding returns the text, except that unpaired surrogates are replaced. */
  lemma {:induction false} DecodeEncode(text: seq<Rune>)
    ensures Decode(Encode(text)) == Scalars(text)
    decreases |text|
  {
    if text != [] {
      var c := Scalar(text[0]);
      DecodeStep(c, Encode(text[1..]));
      DecodeEncode(text[1..]);
      assert Scalars(text) == [c] + Scalars(text[1..]);
    }
  }

  lemma DecodeStep(c: Rune, rest: seq<Byte>)
    requires !IsSurrogate(c)
    ensures Decode(EncodeScalar(c) + rest) == [c] + Decode(rest)
  {
    DecodeWhole(c, rest);
    assert (EncodeScalar(c) + rest)[|EncodeScalar(c)|..] == rest;
  }

  /** The table of section 3 of RFC 3629: the ranges of code points and bytes, and what the bytes add up to. */
  lemma EncodingIsUtf8(c: Rune)
    ensures var b: seq<int> := EncodeScalar(c);
            && (c <= 0x7F ==> |b| == 1 && b[0] == c)
            && (0x80 <= c <= 0x7FF ==>
                  |b| == 2 && 0xC0 <= b[0] <= 0xDF && InTail(b[1]) && c == (b[0] - 0xC0) * 64 + (b[1] - 0x80))
            && (0x800 <= c <= 0xFFFF ==>
                  && |b| == 3 && 0xE0 <= b[0] <= 0xEF && InTail(b[1]) && InTail(b[2])
                  && c == (b[0] - 0xE0) * 4096 + (b[1] - 0x80) * 64 + (b[2] - 0x80))
            && (0x10000 <= c ==>
                  && |b| == 4 && 0xF0 <= b[0] <= 0xF7 && InTail(b[1]) && InTail(b[2]) && InTail(b[3])
                  && c == (b[0] - 0xF0) * 262144 + (b[1] - 0x80) * 4096 + (b[2] - 0x80) * 64 + (b[3] - 0x80))
  {
    CombineEncoded(c);
  }

  predicate InTail(b: int) {
    0x80 <= b <= 0xBF
  }

  /** The decoder accepts nothing but encodings: no overlong forms, no surrogates, nothing past U+10FFFF. */
  lemma DecodesOnlyEncodings(bytes: seq<Byte>)
    requires bytes != [] && DecodeOne(bytes).0 != REPLACEMENT
    ensures var (c, k) := DecodeOne(bytes); !IsSurrogate(c) && bytes[..k] == EncodeScalar(c)
  {
    var (c, k) := DecodeOne(bytes);
    AllFollow(bytes, k);
    if k == 1 {
      assert bytes[..1] == [bytes[0]];
    } else if k == 2 {
      TwoBytes(bytes[0], bytes[1]);
      assert bytes[..2] == [bytes[0], bytes[1]];
    } else if k == 3 {
      ThreeBytes(bytes[0], bytes[1], bytes[2]);
      assert bytes[..3] == [bytes[0], bytes[1], bytes[2]];
    } else {
      FourBytes(bytes[0], bytes[1], bytes[2], bytes[3]);
      assert bytes[..4] == [bytes[0], bytes[1], bytes[2], bytes[3]];
    }
  }

  lemma AllFollow(bytes: seq<Byte>, n: nat)
    requires bytes != [] && n >= 1 && GoodPrefix(bytes, n) == n
    ensures n <= |bytes| && forall i :: 1 <= i < n ==> Follows(bytes[0], i, bytes[i])
  {
    if n > 1 {
      AllFollow(bytes, n - 1);
    }
  }

  lemma TwoBytes(a: int, b: int)
    requires 0xC2 <= a < 0xE0 && InTail(b)
    ensures var c := (a - 0xC0) * 64 + (b - 0x80); 0x80 <= c < 0x800 && c / 64 == a - 0xC0 && c % 64 == b - 0x80
  {
  }

  lemma ThreeBytes(a: int, b: int, d: int)
    requires 0xE0 <= a < 0xF0 && InTail(b) && InTail(d)
    requires (a == 0xE0 ==> b >= 0xA0) && (a == 0xED ==> b <= 0x9F)
    ensures var c := (a - 0xE0) * 4096 + (b - 0x80) * 64 + (d - 0x80);
            && 0x800 <= c < 0x10000 && !(0xD800 <= c < 0xE000)
            && c / 4096 == a - 0xE0 && c / 64 % 64 == b - 0x80 && c % 64 == d - 0x80
  {
  }

  lemma FourBytes(a: int, b: int, d: int, e: int)
    requires 0xF0 <= a < 0xF5 && InTail(b) && InTail(d) && InTail(e)
    requires (a == 0xF0 ==> b >= 0x90) && (a == 0xF4 ==> b <= 0x8F)
    ensures var c := (a - 0xF0) * 262144 + (b - 0x80) * 4096 + (d - 0x80) * 64 + (e - 0x80);
            && 0x10000 <= c < 0x110000
            && c / 262144 == a - 0xF0 && c / 4096 % 64 == b - 0x80 && c / 64 % 64 == d - 0x80 && c % 64 == e - 0x80
  {
    var p := (a - 0xF0) * 64 + (b - 0x80);
    var q := p * 64 + (d - 0x80);
    LastDigit(a - 0xF0, b - 0x80);
    LastDigit(p, d - 0x80);
    LastDigit(q, e - 0x80);
    Digits(q * 64 + (e - 0x80));
    assert q * 64 + (e - 0x80) == (a - 0xF0) * 262144 + (b - 0x80) * 4096 + (d - 0x80) * 64 + (e - 0x80);
  }

  lemma LastDigit(q: int, r: int)
    requires 0 <= r < 64
    ensures (q * 64 + r) / 64 == q && (q * 64 + r) % 64 == r
  {
  }

  // ---- What a cut yields --------------------------------------------------------

  /** The number of whole code points among the first m bytes. */
  function Whole(text: seq<Rune>, m: nat): (n: nat)
    ensures n <= |text|
  {
    if text == [] || |EncodeRune(text[0])| > m then 0
    else 1 + Whole(text[1..], m - |EncodeRune(text[0])|)
  }

  /** The first m bytes decode to the whole code points among them, and a replacement for a cut one. */
  function CutOf(text: seq<Rune>, m: nat): seq<Rune> {
    var n := Whole(text, m);
    Scalars(text[..n]) + if |Encode(text[..n])| < m then [REPLACEMENT] else []
  }

  lemma CutInFirst(text: seq<Rune>, m: nat)
    requires text != [] && m < |EncodeRune(text[0])|
    ensures |Encode(text[..Whole(text, m)])| <= m <= |Encode(text)|
    ensures Decode(Encode(text)[..m]) == CutOf(text, m)
  {
    assert text[..0] == [];
    assert Encode(text)[..m] == EncodeRune(text[0])[..m];
    if m > 0 {
      DecodeCut(Scalar(text[0]), m);
    }
  }

  lemma CutPastFirst(text: seq<Rune>, m: nat)
    requires text != [] && |EncodeRune(text[0])| <= m
    ensures var left := m - |EncodeRune(text[0])|;
            && CutOf(text, m) == [Scalar(text[0])] + CutOf(text[1..], left)
            && |Encode(text[..Whole(text, m)])| == |EncodeRune(text[0])| + |Encode(text[1..][..Whole(text[1..], left)])|
  {
    var rest := text[1..];
    var n := Whole(rest, m - |EncodeRune(text[0])|);
    assert text[..n + 1] == [text[0]] + rest[..n];
    assert text[..n + 1][0] == text[0] && text[..n + 1][1..] == rest[..n];
    assert Scalars(text[..n + 1]) == [Scalar(text[0])] + Scalars(rest[..n]);
  }

  lemma {:induction false} DecodeOfCut(text: seq<Rune>, m: nat)
    requires m <= |Encode(text)|
    ensures |Encode(text[..Whole(text, m)])| <= m
    ensures Decode(Encode(text)[..m]) == CutOf(text, m)
    decreases |text|
  {
    if text == [] {
    } else {
      var e, rest := EncodeRune(text[0]), text[1..];
      if |e| > m {
        CutInFirst(text, m);
      } else {
        DecodeOfCut(rest, m - |e|);
        assert Encode(text)[..m] == e + Encode(rest)[..m - |e|];
        DecodeStep(Scalar(text[0]), Encode(rest)[..m - |e|]);
        CutPastFirst(text, m);
      }
    }
  }

  lemma {:induction false} EncodeIgnoresScalars(text: seq<Rune>)
    ensures Encode(Scalars(text)) == Encode(text)
    decreases |text|
  {
    if text != [] {
      EncodeIgnoresScalars(text[1..]);
      assert Scalars(text)[1..] == Scalars(text[1..]);
    }
  }

  lemma {:induction false} EncodeAppend(a: seq<Rune>, b: seq<Rune>)
    ensures Encode(a + b) == Encode(a) + Encode(b)
    decreases |a|
  {
    if a == [] {
      assert a + b == b;
    } else {
      EncodeAppend(a[1..], b);
      assert (a + b)[1..] == a[1..] + b;
    }
  }

  /** The bytes of the cut code point that the limit left over. */
  function Leftover(text: seq<Rune>, m: nat): nat
    requires m <= |Encode(text)|
  {
    DecodeOfCut(text, m);
    m - |Encode(text[..Whole(text, m)])|
  }

  /**
   * Text that fits stays as it is. Text that is too long is cut to its whole code points within the
   * limit, followed by one U+FFFD if a code point was cut. So all but a final U+FFFD is the beginning of
   * the text, and the result takes at most two bytes more than the limit: exactly when one or two bytes were left over.
   */
  lemma TruncateResult(text: seq<Rune>, m: nat)
    ensures |Encode(text)| <= m ==> Truncate(text, m) == text
    ensures |Encode(text)| > m ==>
            var n, r := Whole(text, m), Truncate(text, m);
            && r == Scalars(text[..n]) + (if Leftover(text, m) > 0 then [REPLACEMENT] else [])
            && |Encode(r)| == m - Leftover(text, m) + (if Leftover(text, m) > 0 then 3 else 0)
            && |Encode(r)| <= m + 2
            && (|Encode(r)| > m <==> 1 <= Leftover(text, m) <= 2)
  {
    if |Encode(text)| <= m {
      return;
    }
    DecodeOfCut(text, m);
    var n := Whole(text, m);
    EncodeIgnoresScalars(text[..n]);
    EncodeAppend(Scalars(text[..n]), [REPLACEMENT]);
    assert Scalars(text[..n]) + [] == Scalars(text[..n]);
    assert Encode([REPLACEMENT]) == EncodeRune(REPLACEMENT) + Encode([]);
  }

  /** The limit can be overrun: one two-byte character cut to one byte comes back as three. */
  lemma TruncateCanOverrun()
    ensures |Encode(Truncate([0xE9], 1))| == 3
  {
    assert EncodeRune(0xE9) == [0xC3, 0xA9];
    assert Encode([0xE9]) == EncodeRune(0xE9) + Encode([]);
    assert Whole([0xE9], 1) == 0;
    TruncateResult([0xE9], 1);
    assert [0xE9][..0] == [];
    assert Leftover([0xE9], 1) == 1;
  }

  // ---- Cutting twice ------------------------------------------------------------

  lemma CutFirstAgain(text: seq<Rune>, m: nat)
    requires text != [] && m < |EncodeRune(text[0])|
    ensures CutOf(text, m) == if m == 0 then [] else [REPLACEMENT]
  {
    assert text[..0] == [];
  }

  /** What has to be shown: cutting at `small` what is left of a cut at `big`. */
  ghost predicate CutsAgree(text: seq<Rune>, big: nat, small: nat) {
    var u := CutOf(text, big);
    if |Encode(u)| <= small then u == CutOf(text, small) else CutOf(u, small) == CutOf(text, small)
  }

  lemma CutFirstTwice(text: seq<Rune>, big: nat, small: nat)
    requires text != [] && small <= big < |EncodeRune(text[0])|
    ensures CutsAgree(text, big, small)
  {
    CutFirstAgain(text, big);
    CutFirstAgain(text, small);
    if big > 0 {
      assert Encode([REPLACEMENT]) == EncodeRune(REPLACEMENT) + Encode([]);
      if small < 3 {
        CutFirstAgain([REPLACEMENT], small);
      }
    }
  }

  lemma CutLaterThenFirst(text: seq<Rune>, big: nat, small: nat)
    requires text != [] && small < |EncodeRune(text[0])| <= big
    ensures CutsAgree(text, big, small)
  {
    CutPastFirst(text, big);
    var u := CutOf(text, big);
    assert EncodeRune(u[0]) == EncodeRune(text[0]);
    CutFirstAgain(text, small);
    CutFirstAgain(u, small);
  }

  lemma CutHead(text: seq<Rune>, m: nat)
    requires text != [] && |EncodeRune(text[0])| <= m
    ensures var e, u := |EncodeRune(text[0])|, CutOf(text, m);
            && u != [] && u == [Scalar(text[0])] + CutOf(text[1..], m - e) && u[1..] == CutOf(text[1..], m - e)
            && |EncodeRune(u[0])| == e && |Encode(u)| == e + |Encode(CutOf(text[1..], m - e))|
  {
    CutPastFirst(text, m);
    var u, rest := CutOf(text, m), CutOf(text[1..], m - |EncodeRune(text[0])|);
    assert u[0] == Scalar(text[0]) && u[1..] == rest;
  }

  lemma CutLaterTwice(text: seq<Rune>, big: nat, small: nat)
    requires text != [] && |EncodeRune(text[0])| <= small <= big
    requires CutsAgree(text[1..], big - |EncodeRune(text[0])|, small - |EncodeRune(text[0])|)
    ensures CutsAgree(text, big, small)
  {
    CutHead(text, big);
    CutHead(text, small);
    var u := CutOf(text, big);
    if |Encode(u)| > small {
      CutHead(u, small);
      assert Scalar(u[0]) == Scalar(text[0]);
    }
  }

  lemma {:induction false} CutOfCut(text: seq<Rune>, big: nat, small: nat)
    requires small <= big < |Encode(text)|
    ensures CutsAgree(text, big, small)
    decreases |text|
  {
    var e := |EncodeRune(text[0])|;
    if e > big {
      CutFirstTwice(text, big, small);
    } else if e > small {
      CutLaterThenFirst(text, big, small);
    } else {
      CutOfCut(text[1..], big - e, small - e);
      CutLaterTwice(text, big, small);
    }
  }

  /** Cutting to `big` bytes and then to `small` bytes, no more than `big`, is cutting to `small` bytes. */
  lemma TruncateComposes(text: seq<Rune>, big: nat, small: nat)
    requires small <= big
    ensures Truncate(Truncate(text, big), small) == Truncate(text, small)
  {
    if |Encode(text)| > big {
      DecodeOfCut(text, big);
      DecodeOfCut(text, small);
      CutOfCut(text, big, small);
      if |Encode(CutOf(text, big))| > small {
        DecodeOfCut(CutOf(text, big), small);
      }
    }
  }

  const MAX_LOG_BYTES := 10 * 1024
  const MAX_CONTAINER_LOGS_BYTES := 10 * 1024
  const MAX_FAILURE_LOG_BYTES := 2 * 1024

  /** The second cut of the logs of a successful run changes nothing; that of a failed run is all that counts. */
  lemma LogCuts(logs: seq<Rune>)
    ensures Truncate(Truncate(logs, MAX_LOG_BYTES), MAX_CONTAINER_LOGS_BYTES) == Truncate(logs, MAX_LOG_BYTES)
    ensures Truncate(Truncate(logs, MAX_LOG_BYTES), MAX_FAILURE_LOG_BYTES) == Truncate(logs, MAX_FAILURE_LOG_BYTES)
  {
    TruncateComposes(logs, MAX_LOG_BYTES, MAX_CONTAINER_LOGS_BYTES);
    TruncateComposes(logs, MAX_LOG_BYTES, MAX_FAILURE_LOG_BYTES);
  }
}
