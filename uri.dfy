/**
 * `encodeURIComponent` as ECMAScript defines it (section 19.2.6.5 of
 * ECMA-262): the unreserved characters stay, every other character is
 * written as the `%XX` escapes of its UTF-8 bytes, with upper-case hex.
 * Dafny characters are Unicode scalar values, so the URIError a lone
 * surrogate raises cannot arise.
 */
module Uri {
  import opened Values

  predicate Unreserved(c: char) {
    || ('A' <= c <= 'Z') || ('a' <= c <= 'z') || ('0' <= c <= '9')
    || c == '-' || c == '_' || c == '.' || c == '!' || c == '~' || c == '*' || c == '\'' || c == '(' || c == ')'
  }

  predicate IsScalar(cp: int) {
    (0 <= cp < 0xD800) || (0xE000 <= cp < 0x11_0000)
  }

  /** The UTF-8 bytes of a code point. */
  function Utf8(cp: int): (bs: seq<int>)
    requires IsScalar(cp)
    ensures 1 <= |bs| <= 4
    ensures forall i | 0 <= i < |bs| :: 0 <= bs[i] < 256
  {
    if cp < 0x80 then [cp]
    else if cp < 0x800 then [0xC0 + cp / 64, 0x80 + cp % 64]
    else if cp < 0x1_0000 then [0xE0 + cp / 4096, 0x80 + (cp / 64) % 64, 0x80 + cp % 64]
    else [0xF0 + cp / 262144, 0x80 + (cp / 4096) % 64, 0x80 + (cp / 64) % 64, 0x80 + cp % 64]
  }

  function HexDigit(n: int): char
    requires 0 <= n < 16
  {
    if n < 10 then (48 + n) as char else (55 + n) as char
  }

  /** `%XX` for one byte. */
  function Escape(b: int): string
    requires 0 <= b < 256
  {
    ['%', HexDigit(b / 16), HexDigit(b % 16)]
  }

  function Escapes(bs: seq<int>): (s: string)
    requires forall i | 0 <= i < |bs| :: 0 <= bs[i] < 256
    ensures |s| == 3 * |bs|
  {
    if bs == [] then [] else Escape(bs[0]) + Escapes(bs[1..])
  }

  function EncodeChar(c: char): string {
    if Unreserved(c) then [c] else Escapes(Utf8(c as int))
  }

  function EncodeURIComponent(s: string): (r: string)
    ensures '/' !in r
  {
    if s == [] then []
    else
      var h := EncodeChar(s[0]);
      assert '/' !in h by { NoSlashInChar(s[0]); }
      h + EncodeURIComponent(s[1..])
  }

  lemma NoSlashInChar(c: char)
    ensures '/' !in EncodeChar(c)
  {
    if !Unreserved(c) {
      NoSlashInEscapes(Utf8(c as int));
    }
  }

  lemma {:induction false} NoSlashInEscapes(bs: seq<int>)
    requires forall i | 0 <= i < |bs| :: 0 <= bs[i] < 256
    ensures '/' !in Escapes(bs)
    decreases bs
  {
    if bs != [] {
      NoSlashInEscapes(bs[1..]);
    }
  }

  // ---------------------------------------------------------------------
  // Decoding, the inverse the name construction relies on

  predicate IsHex(c: char) {
    ('0' <= c <= '9') || ('A' <= c <= 'F')
  }

  function HexValue(c: char): int
    requires IsHex(c)
  {
    if c <= '9' then c as int - 48 else c as int - 55
  }

  /** The byte written at s[3 * i .. 3 * i + 3], if it is a `%XX` escape. */
  function ByteAt(s: string, i: nat): Option<int> {
    if 3 * i + 3 <= |s| && s[3 * i] == '%' && IsHex(s[3 * i + 1]) && IsHex(s[3 * i + 2])
    then Some(HexValue(s[3 * i + 1]) * 16 + HexValue(s[3 * i + 2]))
    else None
  }

  predicate Continuation(b: Option<int>) {
    b.Some? && 0x80 <= b.value < 0xC0
  }

  /** The first character of an encoded string and how many characters
      encode it. */
  function DecodeChar(s: string): Option<(char, nat)>
    requires s != []
  {
    if s[0] != '%' then Some((s[0], 1))
    else
      var b0 := ByteAt(s, 0);
      if b0.None? then None
      else
        var lead := b0.value;
        var cp :=
          if lead < 0x80 then lead
          else if 0xC0 <= lead < 0xE0 && Continuation(ByteAt(s, 1)) then
            (lead - 0xC0) * 64 + (ByteAt(s, 1).value - 0x80)
          else if 0xE0 <= lead < 0xF0 && Continuation(ByteAt(s, 1)) && Continuation(ByteAt(s, 2)) then
            (lead - 0xE0) * 4096 + (ByteAt(s, 1).value - 0x80) * 64 + (ByteAt(s, 2).value - 0x80)
          else if 0xF0 <= lead < 0xF8 && Continuation(ByteAt(s, 1)) && Continuation(ByteAt(s, 2)) && Continuation(ByteAt(s, 3)) then
            (lead - 0xF0) * 262144 + (ByteAt(s, 1).value - 0x80) * 4096 + (ByteAt(s, 2).value - 0x80) * 64 + (ByteAt(s, 3).value - 0x80)
          else -1;
        var n := if lead < 0x80 then 1 else if lead < 0xE0 then 2 else if lead < 0xF0 then 3 else 4;
        if IsScalar(cp) then Some((cp as char, 3 * n)) else None
  }

  /** The inverse of `EncodeURIComponent` on the strings it writes: `%XX`
      escapes in upper-case hex of UTF-8 sequences. It is not ECMAScript's
      `decodeURIComponent` (lower-case hex is refused here, and overlong
      sequences are not); the code itself never decodes, and this function
      serves only to state what a share name determines. */
  function DecodeEncoded(s: string): Option<string>
    decreases |s|
  {
    if s == [] then Some([])
    else
      match DecodeChar(s)
      case None => None
      case Some((c, n)) =>
        if n == 0 || n > |s| then None
        else
          match DecodeEncoded(s[n..])
          case None => None
          case Some(t) => Some([c] + t)
  }

  lemma HexRoundTrip(n: int)
    requires 0 <= n < 16
    ensures IsHex(HexDigit(n)) && HexValue(HexDigit(n)) == n
  {
  }

  /** The bytes of an escape run are read back one by one. */
  lemma {:induction false} EscapesRead(bs: seq<int>, rest: string, i: nat)
    requires forall k | 0 <= k < |bs| :: 0 <= bs[k] < 256
    requires i < |bs|
    ensures ByteAt(Escapes(bs) + rest, i) == Some(bs[i])
    decreases bs
  {
    if i == 0 {
      HexRoundTrip(bs[0] / 16);
      HexRoundTrip(bs[0] % 16);
      assert (Escapes(bs) + rest)[..3] == Escape(bs[0]);
    } else {
      EscapesRead(bs[1..], rest, i - 1);
      assert Escapes(bs) + rest == Escape(bs[0]) + (Escapes(bs[1..]) + rest);
      assert (Escapes(bs) + rest)[3 * i..] == (Escapes(bs[1..]) + rest)[3 * (i - 1)..];
    }
  }

  /** UTF-8 arithmetic: the bytes of a code point combine back into it. */
  lemma Utf8Combine(cp: int)
    requires IsScalar(cp)
    ensures var bs := Utf8(cp);
      && (|bs| == 1 ==> bs[0] < 0x80 && bs[0] == cp)
      && (|bs| == 2 ==> 0xC0 <= bs[0] < 0xE0 && 0x80 <= bs[1] < 0xC0 && (bs[0] - 0xC0) * 64 + (bs[1] - 0x80) == cp)
      && (|bs| == 3 ==>
            && 0xE0 <= bs[0] < 0xF0 && 0x80 <= bs[1] < 0xC0 && 0x80 <= bs[2] < 0xC0
            && (bs[0] - 0xE0) * 4096 + (bs[1] - 0x80) * 64 + (bs[2] - 0x80) == cp)
      && (|bs| == 4 ==>
            && 0xF0 <= bs[0] < 0xF8 && 0x80 <= bs[1] < 0xC0 && 0x80 <= bs[2] < 0xC0 && 0x80 <= bs[3] < 0xC0
            && (bs[0] - 0xF0) * 262144 + (bs[1] - 0x80) * 4096 + (bs[2] - 0x80) * 64 + (bs[3] - 0x80) == cp)
  {
    var q := cp / 64;
    var r := cp % 64;
    assert cp == q * 64 + r;
    var q2 := q / 64;
    assert q == q2 * 64 + q % 64;
    assert cp / 4096 == q2;
    assert cp == q2 * 4096 + (q % 64) * 64 + r;
    var q3 := q2 / 64;
    assert q2 == q3 * 64 + q2 % 64;
    assert cp / 262144 == q3;
    assert (cp / 4096) % 64 == q2 % 64;
    assert cp == q3 * 262144 + (q2 % 64) * 4096 + (q % 64) * 64 + r;
  }

  lemma DecodeEncodedChar(c: char, rest: string)
    ensures EncodeChar(c) + rest != []
    ensures DecodeChar(EncodeChar(c) + rest) == Some((c, |EncodeChar(c)|))
  {
    if !Unreserved(c) {
      var cp := c as int;
      var bs := Utf8(cp);
      var s := EncodeChar(c) + rest;
      assert s == Escapes(bs) + rest;
      Utf8Combine(cp);
      forall i | 0 <= i < |bs|
        ensures ByteAt(s, i) == Some(bs[i])
      {
        EscapesRead(bs, rest, i);
      }
      assert s[0] == '%';
      if |bs| == 1 {
        DecodeOneByte(s, cp);
      } else if |bs| == 2 {
        DecodeTwoBytes(s, bs[0], bs[1], cp);
      } else if |bs| == 3 {
        DecodeThreeBytes(s, bs[0], bs[1], bs[2], cp);
      } else {
        DecodeFourBytes(s, bs[0], bs[1], bs[2], bs[3], cp);
      }
      assert (cp as char) == c;
    }
  }

  lemma DecodeOneByte(s: string, cp: int)
    requires s != [] && s[0] == '%' && ByteAt(s, 0) == Some(cp) && 0 <= cp < 0x80
    ensures DecodeChar(s) == Some((cp as char, 3))
  {
  }

  lemma DecodeTwoBytes(s: string, b0: int, b1: int, cp: int)
    requires s != [] && s[0] == '%' && ByteAt(s, 0) == Some(b0) && ByteAt(s, 1) == Some(b1)
    requires 0xC0 <= b0 < 0xE0 && 0x80 <= b1 < 0xC0
    requires IsScalar(cp) && cp == (b0 - 0xC0) * 64 + (b1 - 0x80)
    ensures DecodeChar(s) == Some((cp as char, 6))
  {
  }

  lemma DecodeThreeBytes(s: string, b0: int, b1: int, b2: int, cp: int)
    requires s != [] && s[0] == '%' && ByteAt(s, 0) == Some(b0) && ByteAt(s, 1) == Some(b1) && ByteAt(s, 2) == Some(b2)
    requires 0xE0 <= b0 < 0xF0 && 0x80 <= b1 < 0xC0 && 0x80 <= b2 < 0xC0
    requires IsScalar(cp) && cp == (b0 - 0xE0) * 4096 + (b1 - 0x80) * 64 + (b2 - 0x80)
    ensures DecodeChar(s) == Some((cp as char, 9))
  {
  }

  lemma DecodeFourBytes(s: string, b0: int, b1: int, b2: int, b3: int, cp: int)
    requires s != [] && s[0] == '%'
    requires ByteAt(s, 0) == Some(b0) && ByteAt(s, 1) == Some(b1) && ByteAt(s, 2) == Some(b2) && ByteAt(s, 3) == Some(b3)
    requires 0xF0 <= b0 < 0xF8 && 0x80 <= b1 < 0xC0 && 0x80 <= b2 < 0xC0 && 0x80 <= b3 < 0xC0
    requires IsScalar(cp) && cp == (b0 - 0xF0) * 262144 + (b1 - 0x80) * 4096 + (b2 - 0x80) * 64 + (b3 - 0x80)
    ensures DecodeChar(s) == Some((cp as char, 12))
  {
  }

  /** `DecodeEncoded` undoes encodeURIComponent. */
  lemma {:induction false} DecodeEncode(s: string)
    ensures DecodeEncoded(EncodeURIComponent(s)) == Some(s)
    decreases |s|
  {
    if s != [] {
      var h := EncodeChar(s[0]);
      var t := EncodeURIComponent(s[1..]);
      assert |h| > 0 by {
        if !Unreserved(s[0]) {
          assert |Utf8(s[0] as int)| >= 1;
        }
      }
      DecodeEncodedChar(s[0], t);
      assert EncodeURIComponent(s) == h + t;
      assert (h + t)[|h|..] == t;
      DecodeEncode(s[1..]);
      DecodeFirst(h + t, s[0], |h|, s[1..]);
      assert [s[0]] + s[1..] == s;
    }
  }

  /** Decoding proceeds one encoded character at a time. */
  lemma DecodeFirst(e: string, c: char, n: nat, t: string)
    requires e != [] && DecodeChar(e) == Some((c, n)) && 0 < n <= |e|
    requires DecodeEncoded(e[n..]) == Some(t)
    ensures DecodeEncoded(e) == Some([c] + t)
  {
  }

  /** encodeURIComponent never maps two strings to one. */
  lemma EncodeInjective(a: string, b: string)
    requires EncodeURIComponent(a) == EncodeURIComponent(b)
    ensures a == b
  {
    DecodeEncode(a);
    DecodeEncode(b);
  }
}
