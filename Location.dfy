/** The browser's location fragment as the client's hash routing uses it.
    Writing `location.hash` runs the URL parser's fragment state: tabs and
    newlines are removed, printable ASCII other than the space, `"`, `<`,
    `>` and the backquote is kept, and every other character is written as
    its UTF-8 bytes, percent-encoded. `decodeURIComponent` reads such
    escapes back and throws a URIError on a malformed one. */
module Location {
  import opened Common

  /** A character the fragment state copies unchanged. */
  predicate FragmentKeeps(c: char) {
    '!' <= c <= '~' && c != '"' && c != '<' && c != '>' && c != '`'
  }

  predicate FragmentSafe(s: string) {
    forall i :: 0 <= i < |s| ==> FragmentKeeps(s[i])
  }

  /** The characters the URL parser removes before it parses. */
  predicate IsTabOrNewline(c: char) { c == '\t' || c == '\n' || c == '\r' }

  type Byte = b: int | 0 <= b < 256

  /** The UTF-8 encoding of a Unicode scalar value: one byte below U+0080,
      two below U+0800, three below U+10000, four above. */
  function Utf8(c: char): (r: seq<Byte>)
    ensures 1 <= |r| <= 4
  {
    var n := c as int;
    if n < 0x80 then [n]
    else if n < 0x800 then [0xC0 + n / 64, 0x80 + n % 64]
    else if n < 0x10000 then [0xE0 + n / 4096, 0x80 + n / 64 % 64, 0x80 + n % 64]
    else [0xF0 + n / 262144, 0x80 + n / 4096 % 64, 0x80 + n / 64 % 64, 0x80 + n % 64]
  }

  /** The value of a hexadecimal digit of either case. */
  function HexValue(c: char): (r: Option<nat>)
    ensures r.Some? <==> ('0' <= c <= '9' || 'A' <= c <= 'F' || 'a' <= c <= 'f')
    ensures r.Some? ==> r.value < 16
  {
    if '0' <= c <= '9' then Some(c as int - '0' as int)
    else if 'A' <= c <= 'F' then Some(c as int - 'A' as int + 10)
    else if 'a' <= c <= 'f' then Some(c as int - 'a' as int + 10)
    else None
  }

  /** An upper-case hexadecimal digit, as the URL standard writes them. */
  function HexDigit(d: nat): (c: char)
    requires d < 16
    ensures FragmentKeeps(c) && HexValue(c) == Some(d)
  {
    if d < 10 then ('0' as int + d) as char else ('A' as int + d - 10) as char
  }

  function PercentByte(b: Byte): (r: string)
    ensures |r| == 3 && r[0] == '%' && FragmentSafe(r)
  {
    ['%', HexDigit(b / 16), HexDigit(b % 16)]
  }

  function PercentEncode(bytes: seq<Byte>): (r: string)
    ensures |r| == 3 * |bytes| && FragmentSafe(r)
    ensures bytes != [] ==> r[0] == '%'
  {
    if bytes == [] then [] else PercentByte(bytes[0]) + PercentEncode(bytes[1..])
  }

  /** How the fragment state writes one character. */
  function EncodeChar(c: char): (r: string)
    ensures FragmentSafe(r)
    ensures FragmentKeeps(c) ==> r == [c]
    ensures IsTabOrNewline(c) ==> r == []
    ensures !FragmentKeeps(c) && !IsTabOrNewline(c) ==> r != [] && r[0] == '%'
  {
    if FragmentKeeps(c) then [c]
    else if IsTabOrNewline(c) then []
    else PercentEncode(Utf8(c))
  }

  /** The fragment that `location.hash = s` stores, which `location.hash`
      then returns after its `#`. What it stores is always fragment-safe,
      and a fragment-safe text is stored as it is. */
  function FragmentEncode(s: string): (r: string)
    ensures FragmentSafe(r)
    ensures FragmentSafe(s) ==> r == s
  {
    if s == [] then [] else EncodeChar(s[0]) + FragmentEncode(s[1..])
  }

  lemma {:induction false} EncodeAppend(a: string, b: string)
    ensures FragmentEncode(a + b) == FragmentEncode(a) + FragmentEncode(b)
  {
    if a == [] {
      assert a + b == b;
    } else {
      var ab := a + b;
      assert ab[0] == a[0] && ab[1..] == a[1..] + b;
      EncodeAppend(a[1..], b);
      var e := EncodeChar(a[0]);
      assert FragmentEncode(ab) == e + FragmentEncode(a[1..] + b);
      assert e + (FragmentEncode(a[1..]) + FragmentEncode(b)) == (e + FragmentEncode(a[1..])) + FragmentEncode(b);
    }
  }

  // ---------------------------------------------------------------------
  // decodeURIComponent
  // ---------------------------------------------------------------------

  /** The byte written `%XY` at the head of `s`, if there is one. */
  function ByteAt(s: string): (r: Option<Byte>)
    ensures r.Some? ==> |s| >= 3 && s[0] == '%'
  {
    if |s| >= 3 && s[0] == '%' && HexValue(s[1]).Some? && HexValue(s[2]).Some?
    then Some(HexValue(s[1]).value * 16 + HexValue(s[2]).value)
    else None
  }

  /** The six payload bits of the continuation byte (`10xxxxxx`) written
      as the `i`-th `%XY` group of `s`. */
  function Continuation(s: string, i: nat): (r: Option<int>)
    ensures r.Some? ==> 3 * i + 3 <= |s| && 0 <= r.value < 64
  {
    if 3 * i <= |s| then
      match ByteAt(s[3 * i..])
      case Some(b) => if 0x80 <= b < 0xC0 then Some(b - 0x80) else None
      case None => None
    else None
  }

  /** A code point a UTF-8 sequence of one length may encode: within that
      length's range (so not overlong), not a surrogate. */
  function Scalar(n: int, lo: int, hi: int, k: nat): (r: Option<(char, nat)>)
    ensures r.Some? ==> r.value.1 == k && r.value.0 as int == n
  {
    if lo <= n <= hi && 0 <= n <= 0x10FFFF && !(0xD800 <= n < 0xE000) then Some((n as char, k)) else None
  }

  /** The character written by the escapes at the head of `s` and the number
      of characters they take; None where `decodeURIComponent` throws. */
  function DecodeEscape(s: string): (r: Option<(char, nat)>)
    ensures r.Some? ==> 3 <= r.value.1 <= |s|
  {
    match ByteAt(s)
    case None => None
    case Some(b) =>
      if b < 0x80 then Some((b as char, 3))
      else if 0xC0 <= b < 0xE0 then
        match Continuation(s, 1)
        case Some(x1) => Scalar((b - 0xC0) * 64 + x1, 0x80, 0x7FF, 6)
        case None => None
      else if 0xE0 <= b < 0xF0 then
        match (Continuation(s, 1), Continuation(s, 2))
        case (Some(x1), Some(x2)) => Scalar((b - 0xE0) * 4096 + x1 * 64 + x2, 0x800, 0xFFFF, 9)
        case _ => None
      else if 0xF0 <= b < 0xF8 then
        match (Continuation(s, 1), Continuation(s, 2), Continuation(s, 3))
        case (Some(x1), Some(x2), Some(x3)) =>
          Scalar((b - 0xF0) * 262144 + x1 * 4096 + x2 * 64 + x3, 0x10000, 0x10FFFF, 12)
        case _ => None
      else None
  }

  function Prepend(c: char, rest: Option<string>): (r: Option<string>)
    ensures r.Some? <==> rest.Some?
    ensures r.Some? ==> r.value == [c] + rest.value
  {
    match rest
    case Some(t) => Some([c] + t)
    case None => None
  }

  /** `decodeURIComponent(s)`; None where it throws a URIError. */
  function DecodeUriComponent(s: string): (r: Option<string>)
    ensures FragmentSafe(s) && (forall i :: 0 <= i < |s| ==> s[i] != '%') ==> r == Some(s)
    decreases |s|
  {
    if s == [] then Some([])
    else if s[0] != '%' then
      assert [s[0]] + s[1..] == s;
      Prepend(s[0], DecodeUriComponent(s[1..]))
    else
      match DecodeEscape(s)
      case None => None
      case Some((c, k)) => Prepend(c, DecodeUriComponent(s[k..]))
  }

  // ---------------------------------------------------------------------
  // Decoding what the fragment state wrote
  // ---------------------------------------------------------------------

  lemma {:induction false} PercentEncodeAt(bytes: seq<Byte>, i: nat, rest: string)
    requires i < |bytes|
    ensures (PercentEncode(bytes) + rest)[3 * i..] == PercentByte(bytes[i]) + (PercentEncode(bytes[i + 1..]) + rest)
  {
    var s := PercentEncode(bytes) + rest;
    var tail := PercentEncode(bytes[1..]) + rest;
    assert s == PercentByte(bytes[0]) + tail;
    if i == 0 {
      assert s[0..] == s;
    } else {
      PercentEncodeAt(bytes[1..], i - 1, rest);
      assert bytes[1..][i - 1] == bytes[i] && bytes[1..][i..] == bytes[i + 1..];
      DropFront(PercentByte(bytes[0]), tail, 3 * i);
    }
  }

  lemma DropFront<T>(a: seq<T>, b: seq<T>, k: nat)
    requires |a| <= k <= |a| + |b|
    ensures (a + b)[k..] == b[k - |a|..]
  {
  }

  lemma ByteOfPercent(b: Byte, rest: string)
    ensures ByteAt(PercentByte(b) + rest) == Some(b)
  {
    var s := PercentByte(b) + rest;
    assert s[0] == '%' && s[1] == HexDigit(b / 16) && s[2] == HexDigit(b % 16);
  }

  /** The `i`-th group of a percent-encoded byte sequence reads back as the
      `i`-th byte. */
  lemma ByteAtGroup(bytes: seq<Byte>, i: nat, rest: string)
    requires i < |bytes|
    ensures 3 * i <= |PercentEncode(bytes) + rest|
    ensures ByteAt((PercentEncode(bytes) + rest)[3 * i..]) == Some(bytes[i])
  {
    PercentEncodeAt(bytes, i, rest);
    ByteOfPercent(bytes[i], PercentEncode(bytes[i + 1..]) + rest);
  }

  lemma SixBits(n: int)
    requires n >= 0
    ensures n / 64 * 64 + n % 64 == n
    ensures n / 4096 == n / 64 / 64
    ensures n / 262144 == n / 4096 / 64
  {
  }

  /** The escapes written for a character decode to that character and
      take exactly their own length. */
  lemma DecodeEncodedChar(c: char, rest: string)
    ensures DecodeEscape(PercentEncode(Utf8(c)) + rest) == Some((c, 3 * |Utf8(c)|))
  {
    var n := c as int;
    ByteAtGroup(Utf8(c), 0, rest);
    if n < 0x80 {
    } else if n < 0x800 {
      DecodeTwo(c, rest);
    } else if n < 0x10000 {
      DecodeThree(c, rest);
    } else {
      DecodeFour(c, rest);
    }
  }

  /** A continuation byte written as the `i`-th group reads back as its
      six payload bits. */
  lemma ContinuationAt(bytes: seq<Byte>, i: nat, rest: string)
    requires i < |bytes| && 0x80 <= bytes[i] < 0xC0
    ensures Continuation(PercentEncode(bytes) + rest, i) == Some(bytes[i] - 0x80)
  {
    ByteAtGroup(bytes, i, rest);
  }

  lemma DecodeTwo(c: char, rest: string)
    requires 0x80 <= c as int < 0x800
    ensures DecodeEscape(PercentEncode(Utf8(c)) + rest) == Some((c, 6))
  {
    var n := c as int;
    var bytes := Utf8(c);
    assert |bytes| == 2 && bytes[0] == 0xC0 + n / 64 && bytes[1] == 0x80 + n % 64;
    TwoByteGroups(bytes, n / 64, n % 64, rest);
    SixBits(n);
  }

  /** Two percent-encoded bytes of the UTF-8 two-byte shape decode to the
      code point their payload bits spell. */
  lemma TwoByteGroups(bytes: seq<Byte>, q: int, x1: int, rest: string)
    requires 0 <= q < 32 && 0 <= x1 < 64
    requires |bytes| == 2 && bytes[0] == 0xC0 + q && bytes[1] == 0x80 + x1
    ensures DecodeEscape(PercentEncode(bytes) + rest) == Scalar(q * 64 + x1, 0x80, 0x7FF, 6)
  {
    var s := PercentEncode(bytes) + rest;
    assert ByteAt(s) == Some(bytes[0]) by {
      ByteAtGroup(bytes, 0, rest);
      assert s[0..] == s;
    }
    assert Continuation(s, 1) == Some(x1) by {
      ContinuationAt(bytes, 1, rest);
    }
  }

  lemma DecodeThree(c: char, rest: string)
    requires 0x800 <= c as int < 0x10000
    ensures DecodeEscape(PercentEncode(Utf8(c)) + rest) == Some((c, 9))
  {
    var n := c as int;
    var bytes := Utf8(c);
    assert |bytes| == 3 && bytes[0] == 0xE0 + n / 4096 && bytes[1] == 0x80 + n / 64 % 64 && bytes[2] == 0x80 + n % 64;
    ThreeByteGroups(bytes, n / 4096, n / 64 % 64, n % 64, rest);
    ThreeScalar(c);
  }

  /** Three percent-encoded bytes of the UTF-8 three-byte shape decode to the
      code point their payload bits spell. */
  lemma ThreeByteGroups(bytes: seq<Byte>, q: int, x1: int, x2: int, rest: string)
    requires 0 <= q < 16 && 0 <= x1 < 64 && 0 <= x2 < 64
    requires |bytes| == 3 && bytes[0] == 0xE0 + q && bytes[1] == 0x80 + x1 && bytes[2] == 0x80 + x2
    ensures DecodeEscape(PercentEncode(bytes) + rest) == Scalar(q * 4096 + x1 * 64 + x2, 0x800, 0xFFFF, 9)
  {
    var s := PercentEncode(bytes) + rest;
    assert ByteAt(s) == Some(bytes[0]) by {
      ByteAtGroup(bytes, 0, rest);
      assert s[0..] == s;
    }
    assert Continuation(s, 1) == Some(x1) by {
      ContinuationAt(bytes, 1, rest);
    }
    assert Continuation(s, 2) == Some(x2) by {
      ContinuationAt(bytes, 2, rest);
    }
  }

  /** A code point of the three-byte range is the value its three base-64
      digits spell. */
  lemma ThreeScalar(c: char)
    requires 0x800 <= c as int < 0x10000
    ensures var n := c as int;
      Scalar(n / 4096 * 4096 + n / 64 % 64 * 64 + n % 64, 0x800, 0xFFFF, 9) == Some((c, 9))
  {
    var n := c as int;
    SixBits(n);
    SixBits(n / 64);
    assert n / 64 == n / 4096 * 64 + n / 64 % 64;
  }

  lemma DecodeFour(c: char, rest: string)
    requires 0x10000 <= c as int
    ensures DecodeEscape(PercentEncode(Utf8(c)) + rest) == Some((c, 12))
  {
    var n := c as int;
    assert 0 <= n / 262144 < 8;
    var bytes := Utf8(c);
    assert |bytes| == 4 && bytes[0] == 0xF0 + n / 262144 && bytes[1] == 0x80 + n / 4096 % 64
      && bytes[2] == 0x80 + n / 64 % 64 && bytes[3] == 0x80 + n % 64;
    FourByteGroups(bytes, n / 262144, n / 4096 % 64, n / 64 % 64, n % 64, rest);
    FourScalar(c);
  }

  /** A supplementary code point is the value its four base-64 digits spell. */
  lemma FourScalar(c: char)
    requires 0x10000 <= c as int
    ensures var n := c as int;
      Scalar(n / 262144 * 262144 + n / 4096 % 64 * 4096 + n / 64 % 64 * 64 + n % 64, 0x10000, 0x10FFFF, 12) == Some((c, 12))
  {
    FourDigits(c as int);
  }

  /** Four percent-encoded bytes of the UTF-8 four-byte shape decode to the
      code point their payload bits spell. */
  lemma FourByteGroups(bytes: seq<Byte>, q: int, x1: int, x2: int, x3: int, rest: string)
    requires 0 <= q < 8 && 0 <= x1 < 64 && 0 <= x2 < 64 && 0 <= x3 < 64
    requires |bytes| == 4 && bytes[0] == 0xF0 + q && bytes[1] == 0x80 + x1 && bytes[2] == 0x80 + x2 && bytes[3] == 0x80 + x3
    ensures DecodeEscape(PercentEncode(bytes) + rest) == Scalar(q * 262144 + x1 * 4096 + x2 * 64 + x3, 0x10000, 0x10FFFF, 12)
  {
    var s := PercentEncode(bytes) + rest;
    assert ByteAt(s) == Some(bytes[0]) by {
      ByteAtGroup(bytes, 0, rest);
      assert s[0..] == s;
    }
    assert Continuation(s, 1) == Some(bytes[1] as int - 0x80) by {
      ContinuationAt(bytes, 1, rest);
    }
    assert Continuation(s, 2) == Some(bytes[2] as int - 0x80) by {
      ContinuationAt(bytes, 2, rest);
    }
    assert Continuation(s, 3) == Some(bytes[3] as int - 0x80) by {
      ContinuationAt(bytes, 3, rest);
    }
    FourByteEscape(s, bytes);
  }

  /** The four base-64 digits of a supplementary code point. */
  lemma FourDigits(n: int)
    requires 0x10000 <= n <= 0x10FFFF
    ensures 0 <= n / 262144 <= 4
    ensures 0 <= n / 4096 % 64 < 64 && 0 <= n / 64 % 64 < 64 && 0 <= n % 64 < 64
    ensures n / 262144 * 262144 + n / 4096 % 64 * 4096 + n / 64 % 64 * 64 + n % 64 == n
  {
    SixBits(n);
    SixBits(n / 64);
    SixBits(n / 4096);
    var a, b, q := n / 64, n / 4096, n / 262144;
    assert n == a * 64 + n % 64 && a == b * 64 + a % 64 && b == q * 64 + b % 64;
    assert a % 64 == n / 64 % 64 && b % 64 == n / 4096 % 64;
  }

  /** The escapes of a four-byte sequence decode to the code point its
      payload bits spell. */
  lemma FourByteEscape(s: string, bytes: seq<Byte>)
    requires |bytes| == 4 && ByteAt(s) == Some(bytes[0]) && 0xF0 <= bytes[0] < 0xF8
    requires Continuation(s, 1) == Some(bytes[1] as int - 0x80)
    requires Continuation(s, 2) == Some(bytes[2] as int - 0x80)
    requires Continuation(s, 3) == Some(bytes[3] as int - 0x80)
    ensures DecodeEscape(s) == Scalar((bytes[0] as int - 0xF0) * 262144 + (bytes[1] as int - 0x80) * 4096
      + (bytes[2] as int - 0x80) * 64 + (bytes[3] as int - 0x80), 0x10000, 0x10FFFF, 12)
  {
  }

  /** Decoding one encoded character in front of some text gives that
      character in front of the decoded text. */
  lemma DecodeChar(c: char, t: string)
    requires c != '%' && !IsTabOrNewline(c)
    ensures DecodeUriComponent(EncodeChar(c) + t) == Prepend(c, DecodeUriComponent(t))
  {
    var s := EncodeChar(c) + t;
    if FragmentKeeps(c) {
      assert s[0] == c && s[1..] == t;
    } else {
      var bytes := Utf8(c);
      DecodeEncodedChar(c, t);
      assert s == PercentEncode(bytes) + t;
      assert s[0] == '%';
      assert s[3 * |bytes|..] == t;
    }
  }

  /** `decodeURIComponent` gives back what the fragment state stored for a
      text with no `%` (which the fragment keeps as is, so that it starts
      an escape on reading) and no tab or newline (which it removes). */
  lemma {:induction false} DecodeFragment(s: string)
    requires forall i :: 0 <= i < |s| ==> s[i] != '%' && !IsTabOrNewline(s[i])
    ensures DecodeUriComponent(FragmentEncode(s)) == Some(s)
  {
    if s != [] {
      DecodeFragment(s[1..]);
      DecodeChar(s[0], FragmentEncode(s[1..]));
      assert [s[0]] + s[1..] == s;
    }
  }
}
