/**
 * Request signing: the lowercase-hex MD5 digest of the bytes of the method, the
 * URL, the body and the app master secret, concatenated with no separators. The digest
 * function itself (RFC 1321) is a parameter: only its 16-byte shape is modelled.
 */
module Signing {

  newtype byte = x: int | 0 <= x < 256

  /** What md5.Sum returns: exactly 16 bytes. */
  type Digest = s: seq<byte> | |s| == 16 witness seq(16, _ => 0)

  /** The UTF-8 bytes of one character: what Go stores for it in a string. */
  function EncodeChar(c: char): (bs: seq<byte>)
    ensures 1 <= |bs| <= 4
    ensures |bs| == 1 <==> c as int < 0x80
    ensures |bs| == 1 ==> bs[0] as int == c as int
    ensures |bs| > 1 ==> bs[0] >= 0xC0 && forall i :: 1 <= i < |bs| ==> 0x80 <= bs[i] < 0xC0
  {
    var n := c as int;
    if n < 0x80 then [n as byte]
    else if n < 0x800 then [(0xC0 + n / 64) as byte, (0x80 + n % 64) as byte]
    else if n < 0x1_0000 then [(0xE0 + n / 4096) as byte, (0x80 + n / 64 % 64) as byte, (0x80 + n % 64) as byte]
    else [(0xF0 + n / 262144) as byte, (0x80 + n / 4096 % 64) as byte, (0x80 + n / 64 % 64) as byte, (0x80 + n % 64) as byte]
  }

  /** []byte(str) for a Go string holding the text s: its UTF-8 encoding. */
  function Utf8(s: string): (bs: seq<byte>)
    ensures |bs| >= |s|
    decreases |s|
  {
    if |s| == 0 then [] else EncodeChar(s[0]) + Utf8(s[1..])
  }

  /** Encoding distributes over concatenation: a Go string's bytes are its parts' bytes, in order. */
  lemma {:induction false} Utf8Concat(a: string, b: string)
    ensures Utf8(a + b) == Utf8(a) + Utf8(b)
    decreases |a|
  {
    if |a| == 0 {
      assert a + b == b;
    } else {
      var c, rest := EncodeChar(a[0]), a[1..];
      assert (a + b)[0] == a[0] && (a + b)[1..] == rest + b;
      Utf8Concat(rest, b);
      calc {
        Utf8(a + b);
        c + Utf8(rest + b);
        c + (Utf8(rest) + Utf8(b));
        (c + Utf8(rest)) + Utf8(b);
      }
    }
  }

  /**
   * The bytes fed to the digest: []byte(method + url + string(postBody) + secret).
   * string(postBody) keeps the body's bytes, so the body appears unchanged
   * between the encoded URL and the encoded secret.
   */
  function SignedString(httpMethod: string, url: string, postBody: seq<byte>, secret: string): (s: seq<byte>)
    ensures var m, u, b := |Utf8(httpMethod)|, |Utf8(url)|, |postBody|;
      |s| == m + u + b + |Utf8(secret)| &&
      s[..m] == Utf8(httpMethod) && s[m..m + u] == Utf8(url) &&
      s[m + u..m + u + b] == postBody && s[m + u + b..] == Utf8(secret)
  {
    Utf8(httpMethod) + Utf8(url) + postBody + Utf8(secret)
  }

  /** A non-ASCII character is signed as its UTF-8 bytes, not as a byte of the same value. */
  lemma NonAsciiSignedAsUtf8()
    ensures Utf8("\U{E9}") == [0xC3, 0xA9]
    ensures SignedString("\U{E9}", "", [], "") != SignedString("", "", [0xE9], "")
  {
    assert Utf8("\U{E9}") == EncodeChar('\U{E9}') + Utf8("");
  }

  predicate IsLowerHexDigit(c: char) {
    '0' <= c <= '9' || 'a' <= c <= 'f'
  }

  /** A string made of lowercase hex digit pairs. */
  predicate IsHexText(s: string) {
    |s| % 2 == 0 && forall i :: 0 <= i < |s| ==> IsLowerHexDigit(s[i])
  }

  /** The lowercase digit fmt's %x prints for a nibble. */
  function HexDigit(n: int): (c: char)
    requires 0 <= n < 16
    ensures IsLowerHexDigit(c)
  {
    if n < 10 then ('0' as int + n) as char else ('a' as int + n - 10) as char
  }

  function HexValue(c: char): (n: int)
    requires IsLowerHexDigit(c)
    ensures 0 <= n < 16 && HexDigit(n) == c
  {
    if c <= '9' then c as int - '0' as int else c as int - 'a' as int + 10
  }

  /** %x of one byte: the high nibble, then the low one. */
  function HexByte(b: byte): (s: string)
    ensures |s| == 2 && IsLowerHexDigit(s[0]) && IsLowerHexDigit(s[1])
  {
    [HexDigit(b as int / 16), HexDigit(b as int % 16)]
  }

  /** %x of a byte array: every byte as two lowercase digits, in order. */
  function Hex(bs: seq<byte>): (s: string)
    ensures |s| == 2 * |bs| && IsHexText(s)
    decreases |bs|
  {
    if |bs| == 0 then "" else HexByte(bs[0]) + Hex(bs[1..])
  }

  /** Reads a hex text back into bytes, two digits per byte. */
  function Unhex(s: string): (bs: seq<byte>)
    requires IsHexText(s)
    ensures |bs| == |s| / 2
    decreases |s|
  {
    if |s| == 0 then []
    else [(16 * HexValue(s[0]) + HexValue(s[1])) as byte] + Unhex(s[2..])
  }

  lemma {:induction false} UnhexHex(bs: seq<byte>)
    ensures Unhex(Hex(bs)) == bs
    decreases |bs|
  {
    if |bs| > 0 {
      var s := Hex(bs);
      assert s[2..] == Hex(bs[1..]);
      UnhexHex(bs[1..]);
      var b := bs[0] as int;
      assert HexValue(s[0]) == b / 16 && HexValue(s[1]) == b % 16 by {
        assert s[0] == HexDigit(b / 16) && s[1] == HexDigit(b % 16);
        HexDigitInjective(HexValue(s[0]), b / 16);
        HexDigitInjective(HexValue(s[1]), b % 16);
      }
    }
  }

  /** Every hex text is the rendering of the bytes it decodes to, so `Unhex` and `Hex` are inverses. */
  lemma {:induction false} HexUnhex(s: string)
    requires IsHexText(s)
    ensures Hex(Unhex(s)) == s
    decreases |s|
  {
    if |s| > 0 {
      var bs := Unhex(s);
      assert bs[1..] == Unhex(s[2..]);
      HexUnhex(s[2..]);
      var b := bs[0] as int;
      assert b / 16 == HexValue(s[0]) && b % 16 == HexValue(s[1]);
      assert HexByte(bs[0]) == [s[0], s[1]];
      assert s == [s[0], s[1]] + s[2..];
    }
  }

  lemma HexDigitInjective(m: int, n: int)
    requires 0 <= m < 16 && 0 <= n < 16 && HexDigit(m) == HexDigit(n)
    ensures m == n
  {
  }

  /** Byte i of the input is rendered at characters 2i and 2i+1: order is preserved. */
  lemma {:induction false} HexAt(bs: seq<byte>, i: int)
    requires 0 <= i < |bs|
    ensures Hex(bs)[2 * i..2 * i + 2] == HexByte(bs[i])
    decreases |bs|
  {
    var s := Hex(bs);
    if i == 0 {
      assert s[..2] == HexByte(bs[0]);
    } else {
      HexAt(bs[1..], i - 1);
      assert s[2..] == Hex(bs[1..]);
      assert s[2 * i..2 * i + 2] == s[2..][2 * (i - 1)..2 * (i - 1) + 2];
    }
  }

  /** Different digests never render as the same hex text. */
  lemma HexInjective(a: seq<byte>, b: seq<byte>)
    requires Hex(a) == Hex(b)
    ensures a == b
  {
    UnhexHex(a);
    UnhexHex(b);
  }

  /**
   * Sign(method, url, postBody, appMasterSecret): 32 lowercase hex digits that
   * decode to the digest of the signed string.
   */
  function Sign(md5: seq<byte> -> Digest, httpMethod: string, url: string, postBody: seq<byte>, secret: string): (sig: string)
    ensures |sig| == 32 && IsHexText(sig)
    ensures Unhex(sig) == md5(SignedString(httpMethod, url, postBody, secret))
  {
    var d := md5(SignedString(httpMethod, url, postBody, secret));
    UnhexHex(d);
    Hex(d)
  }

  /** The signature depends on the four inputs only through their concatenation. */
  lemma SignSeesOnlyConcatenation(md5: seq<byte> -> Digest, m1: string, u1: string, b1: seq<byte>, s1: string,
                                  m2: string, u2: string, b2: seq<byte>, s2: string)
    requires SignedString(m1, u1, b1, s1) == SignedString(m2, u2, b2, s2)
    ensures Sign(md5, m1, u1, b1, s1) == Sign(md5, m2, u2, b2, s2)
  {
  }

  /** For example, moving a character from the end of the method to the front of the URL keeps the signature. */
  lemma SignBoundaryShift(md5: seq<byte> -> Digest, body: seq<byte>, secret: string)
    ensures Sign(md5, "a", "bc", body, secret) == Sign(md5, "ab", "c", body, secret)
  {
    assert "a" + "bc" == "ab" + "c";
    Utf8Concat("a", "bc");
    Utf8Concat("ab", "c");
    assert SignedString("a", "bc", body, secret) == SignedString("ab", "c", body, secret);
  }
}
