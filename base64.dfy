/**
 * The share-state token alphabet: base64 as in section 4 of RFC 4648
 * (`Buffer.toString("base64")`), turned into the URL- and filename-safe
 * form of section 5 by replacing `+` with `-`, `/` with `_` and dropping the
 * trailing `=` padding (server/finops-core.js:948-958), and the reverse
 * chain that restores `(4 - len % 4) % 4` padding characters before decoding
 * (server/finops-core.js:961-966).
 */
module Base64 {
  import opened Wrappers

  type byte = x: int | 0 <= x < 256

  /** A base64 digit value. */
  type sextet = x: int | 0 <= x < 64

  // ---------------------------------------------------------------------------
  // The alphabet (section 4 of RFC 4648)
  // ---------------------------------------------------------------------------

  /** The character of a digit value: A-Z, a-z, 0-9, then `+` and `/`. */
  function CharOf(v: sextet): char {
    if v < 26 then ('A' as int + v) as char
    else if v < 52 then ('a' as int + (v - 26)) as char
    else if v < 62 then ('0' as int + (v - 52)) as char
    else if v == 62 then '+'
    else '/'
  }

  /** The digit value of a character, if it is in the alphabet. */
  function ValueOf(c: char): (r: Option<sextet>)
    ensures r.Some? ==> CharOf(r.value) == c
  {
    if 'A' <= c <= 'Z' then Some(c as int - 'A' as int)
    else if 'a' <= c <= 'z' then Some(c as int - 'a' as int + 26)
    else if '0' <= c <= '9' then Some(c as int - '0' as int + 52)
    else if c == '+' then Some(62)
    else if c == '/' then Some(63)
    else None
  }

  /** Every digit's character reads back as that digit, and none is padding or URL-safe. */
  lemma CharOfValue(v: sextet)
    ensures ValueOf(CharOf(v)) == Some(v)
    ensures CharOf(v) != '=' && CharOf(v) != '-' && CharOf(v) != '_'
    ensures CharOf(v) == '+' <==> v == 62
    ensures CharOf(v) == '/' <==> v == 63
  {
  }

  /** No character of s is c. */
  predicate Avoids(s: string, c: char) {
    forall i :: 0 <= i < |s| ==> s[i] != c
  }

  /** Every character of s is a digit of the alphabet. */
  predicate AllDigits(s: string) {
    forall i :: 0 <= i < |s| ==> ValueOf(s[i]).Some?
  }

  // ---------------------------------------------------------------------------
  // Encoding (`Buffer.from(json, "utf8").toString("base64")`)
  // ---------------------------------------------------------------------------

  /** Three bytes become four digits, six bits at a time, high bits first. */
  function EncodeGroup(a: byte, b: byte, c: byte): string {
    [CharOf(a / 4), CharOf(a % 4 * 16 + b / 16), CharOf(b % 16 * 4 + c / 64), CharOf(c % 64)]
  }

  /** The digits of the last, short group, before padding. */
  function EncodeTail(bs: seq<byte>): string
    requires |bs| < 3
  {
    if |bs| == 0 then []
    else if |bs| == 1 then [CharOf(bs[0] / 4), CharOf(bs[0] % 4 * 16)]
    else [CharOf(bs[0] / 4), CharOf(bs[0] % 4 * 16 + bs[1] / 16), CharOf(bs[1] % 16 * 4)]
  }

  /** The number of `=` characters that complete the last group of n bytes. */
  function PadCount(n: nat): (p: nat)
    ensures p <= 2
  {
    (3 - n % 3) % 3
  }

  /** k copies of c. */
  function Repeat(c: char, k: nat): (r: string)
    ensures |r| == k && forall i :: 0 <= i < k ==> r[i] == c
  {
    seq(k, _ => c)
  }

  /** The digits without padding. */
  function Digits(bs: seq<byte>): string
    decreases |bs|
  {
    if |bs| < 3 then EncodeTail(bs)
    else EncodeGroup(bs[0], bs[1], bs[2]) + Digits(bs[3..])
  }

  /** Standard base64 with padding. */
  function Encode(bs: seq<byte>): string {
    Digits(bs) + Repeat('=', PadCount(|bs|))
  }

  lemma GroupDigits(a: byte, b: byte, c: byte)
    ensures AllDigits(EncodeGroup(a, b, c))
  {
    CharOfValue(a / 4);
    CharOfValue(a % 4 * 16 + b / 16);
    CharOfValue(b % 16 * 4 + c / 64);
    CharOfValue(c % 64);
  }

  lemma TailDigits(bs: seq<byte>)
    requires |bs| < 3
    ensures AllDigits(EncodeTail(bs))
    ensures |EncodeTail(bs)| + PadCount(|bs|) == (|bs| + 2) / 3 * 4
  {
    if |bs| == 1 {
      CharOfValue(bs[0] / 4);
      CharOfValue(bs[0] % 4 * 16);
    } else if |bs| == 2 {
      CharOfValue(bs[0] / 4);
      CharOfValue(bs[0] % 4 * 16 + bs[1] / 16);
      CharOfValue(bs[1] % 16 * 4);
    }
  }

  lemma AllDigitsConcat(s: string, t: string)
    requires AllDigits(s) && AllDigits(t)
    ensures AllDigits(s + t)
  {
    assert forall i :: |s| <= i < |s + t| ==> (s + t)[i] == t[i - |s|];
  }

  /** One more full group adds four characters and leaves the padding unchanged. */
  lemma GroupCount(n: nat)
    requires n >= 3
    ensures (n + 2) / 3 * 4 == (n - 3 + 2) / 3 * 4 + 4
    ensures PadCount(n) == PadCount(n - 3)
  {
  }

  /** The digits fill whole groups once the padding is added. */
  lemma {:induction false} DigitsLength(bs: seq<byte>)
    ensures |Digits(bs)| + PadCount(|bs|) == (|bs| + 2) / 3 * 4
    decreases |bs|
  {
    if |bs| < 3 {
      TailDigits(bs);
    } else {
      DigitsLength(bs[3..]);
      GroupCount(|bs|);
    }
  }

  /** The digits are all in the alphabet. */
  lemma {:induction false} DigitsAlphabet(bs: seq<byte>)
    ensures AllDigits(Digits(bs))
    decreases |bs|
  {
    if |bs| < 3 {
      TailDigits(bs);
    } else {
      DigitsAlphabet(bs[3..]);
      GroupDigits(bs[0], bs[1], bs[2]);
      AllDigitsConcat(EncodeGroup(bs[0], bs[1], bs[2]), Digits(bs[3..]));
    }
  }

  lemma DigitsShape(bs: seq<byte>)
    ensures |Digits(bs)| + PadCount(|bs|) == (|bs| + 2) / 3 * 4
    ensures AllDigits(Digits(bs))
  {
    DigitsLength(bs);
    DigitsAlphabet(bs);
  }

  /** Every encoding is a whole number of four-character groups. */
  lemma EncodeLength(bs: seq<byte>)
    ensures |Encode(bs)| == (|bs| + 2) / 3 * 4
  {
    DigitsShape(bs);
  }

  // ---------------------------------------------------------------------------
  // Decoding (`Buffer.from(padded, "base64")`, read strictly)
  // ---------------------------------------------------------------------------

  /** One group of four characters; `=` may only end it, as `xx==` or `xxx=`. */
  function DecodeQuad(w: char, x: char, y: char, z: char): Option<seq<byte>> {
    if ValueOf(w).None? || ValueOf(x).None? then None
    else
      var a, b := ValueOf(w).value, ValueOf(x).value;
      if y == '=' && z == '=' then Some([a * 4 + b / 16])
      else if ValueOf(y).None? then None
      else
        var c := ValueOf(y).value;
        if z == '=' then Some([a * 4 + b / 16, b % 16 * 16 + c / 4])
        else if ValueOf(z).None? then None
        else
          var d := ValueOf(z).value;
          Some([a * 4 + b / 16, b % 16 * 16 + c / 4, c % 4 * 64 + d])
  }

  /** Standard base64 with padding: groups of four, padding only in the last one. */
  function Decode(s: string): Option<seq<byte>>
    decreases |s|
  {
    if |s| == 0 then Some([])
    else if |s| < 4 then None
    else
      var head := DecodeQuad(s[0], s[1], s[2], s[3]);
      if head.None? then None
      else if |s| == 4 then head
      else if |head.value| < 3 then None
      else
        var rest := Decode(s[4..]);
        if rest.None? then None else Some(head.value + rest.value)
  }

  /** The byte arithmetic of a full group inverts. */
  lemma GroupRoundTrip(a: byte, b: byte, c: byte)
    ensures a / 4 * 4 + (a % 4 * 16 + b / 16) / 16 == a
    ensures (a % 4 * 16 + b / 16) % 16 * 16 + (b % 16 * 4 + c / 64) / 4 == b
    ensures (b % 16 * 4 + c / 64) % 4 * 64 + c % 64 == c
  {
  }

  /** A full group decodes to its three bytes. */
  lemma DecodeGroup(a: byte, b: byte, c: byte)
    ensures var g := EncodeGroup(a, b, c);
      DecodeQuad(g[0], g[1], g[2], g[3]) == Some([a, b, c])
  {
    CharOfValue(a / 4);
    CharOfValue(a % 4 * 16 + b / 16);
    CharOfValue(b % 16 * 4 + c / 64);
    CharOfValue(c % 64);
    GroupRoundTrip(a, b, c);
  }

  /** A short group decodes, with its padding, to its one or two bytes. */
  lemma DecodeTail(bs: seq<byte>)
    requires 0 < |bs| < 3
    ensures var e := EncodeTail(bs) + Repeat('=', PadCount(|bs|));
      |e| == 4 && DecodeQuad(e[0], e[1], e[2], e[3]) == Some(bs)
  {
    var e := EncodeTail(bs) + Repeat('=', PadCount(|bs|));
    CharOfValue(bs[0] / 4);
    if |bs| == 1 {
      CharOfValue(bs[0] % 4 * 16);
      assert e == [CharOf(bs[0] / 4), CharOf(bs[0] % 4 * 16), '=', '='];
      assert [bs[0]] == bs;
    } else {
      CharOfValue(bs[0] % 4 * 16 + bs[1] / 16);
      CharOfValue(bs[1] % 16 * 4);
      GroupRoundTrip(bs[0], bs[1], 0);
      assert e == [CharOf(bs[0] / 4), CharOf(bs[0] % 4 * 16 + bs[1] / 16), CharOf(bs[1] % 16 * 4), '='];
      assert [bs[0], bs[1]] == bs;
    }
  }

  /** Decoding inverts encoding. */
  lemma {:induction false} DecodeEncode(bs: seq<byte>)
    ensures Decode(Encode(bs)) == Some(bs)
    decreases |bs|
  {
    var e := Encode(bs);
    if |bs| == 0 {
      assert e == [];
    } else if |bs| < 3 {
      DecodeTail(bs);
    } else {
      var g := EncodeGroup(bs[0], bs[1], bs[2]);
      DecodeGroup(bs[0], bs[1], bs[2]);
      var rest := Encode(bs[3..]);
      GroupCount(|bs|);
      assert e == g + rest;
      assert e[..4] == g && e[4..] == rest;
      assert bs == [bs[0], bs[1], bs[2]] + bs[3..];
      if |bs| == 3 {
        assert rest == [];
        assert e == g;
        assert Decode(e) == DecodeQuad(g[0], g[1], g[2], g[3]);
        assert bs == [bs[0], bs[1], bs[2]];
      } else {
        EncodeLength(bs[3..]);
        DecodeEncode(bs[3..]);
      }
    }
  }

  // ---------------------------------------------------------------------------
  // The URL-safe token (section 5 of RFC 4648, padding dropped)
  // ---------------------------------------------------------------------------

  /** `s.replace(/from/g, to)` for a single-character pattern. */
  function ReplaceAll(s: string, from: char, to: char): (r: string)
    ensures |r| == |s|
    ensures forall i :: 0 <= i < |s| ==> r[i] == (if s[i] == from then to else s[i])
  {
    seq(|s|, i requires 0 <= i < |s| => if s[i] == from then to else s[i])
  }

  /** `s.replace(/=+$/g, "")`: the longest prefix that does not end in `=`. */
  function StripPadding(s: string): (r: string)
    ensures r <= s
    ensures |r| == 0 || r[|r| - 1] != '='
    ensures forall i :: |r| <= i < |s| ==> s[i] == '='
    decreases |s|
  {
    if |s| > 0 && s[|s| - 1] == '=' then StripPadding(s[..|s| - 1]) else s
  }

  /**
   * `encodeShareState`'s string chain on the serialised bytes: the token is
   * exactly the URL-safe digits; the padding goes and nothing else.
   */
  function ToToken(bs: seq<byte>): (r: string)
    ensures r == ReplaceAll(ReplaceAll(Digits(bs), '+', '-'), '/', '_')
  {
    StrippedUrlEncoding(bs);
    StripPadding(ReplaceAll(ReplaceAll(Encode(bs), '+', '-'), '/', '_'))
  }

  /**
   * `decodeShareState`'s string chain: undo the alphabet change, restore
   * padding, decode. A token of length 1 modulo 4 never decodes.
   */
  function FromToken(token: string): (r: Option<seq<byte>>)
    ensures |token| % 4 == 1 ==> r.None?
  {
    var normalized := ReplaceAll(ReplaceAll(token, '-', '+'), '_', '/');
    var padded := normalized + Repeat('=', (4 - |normalized| % 4) % 4);
    if |token| % 4 == 1 then
      assert |padded| % 4 == 0 && padded[|padded| - 3] == '=';
      LastQuadPadded(padded);
      Decode(padded)
    else
      Decode(padded)
  }

  /** A padded string whose last group has a digit then three `=` is rejected. */
  lemma {:induction false} LastQuadPadded(s: string)
    requires |s| >= 4 && |s| % 4 == 0 && s[|s| - 3] == '='
    ensures Decode(s).None?
    decreases |s|
  {
    if |s| > 4 {
      var rest := s[4..];
      assert rest[|rest| - 3] == s[|s| - 3];
      LastQuadPadded(rest);
    }
  }

  /** Stripping the padding from the URL-safe encoding leaves the URL-safe digits. */
  lemma StrippedUrlEncoding(bs: seq<byte>)
    ensures StripPadding(ReplaceAll(ReplaceAll(Encode(bs), '+', '-'), '/', '_'))
         == ReplaceAll(ReplaceAll(Digits(bs), '+', '-'), '/', '_')
  {
    var d := Digits(bs);
    var p := PadCount(|bs|);
    DigitsShape(bs);
    var urlE := ReplaceAll(ReplaceAll(Encode(bs), '+', '-'), '/', '_');
    var urlD := ReplaceAll(ReplaceAll(d, '+', '-'), '/', '_');
    assert urlE == urlD + Repeat('=', p);
    assert |urlD| == 0 || urlD[|urlD| - 1] != '=' by {
      if |urlD| > 0 {
        CharOfValue(ValueOf(d[|d| - 1]).value);
      }
    }
    UrlStripped(urlD, p);
  }

  lemma {:induction false} UrlStripped(u: string, p: nat)
    requires |u| == 0 || u[|u| - 1] != '='
    ensures StripPadding(u + Repeat('=', p)) == u
    decreases p
  {
    if p > 0 {
      var s := u + Repeat('=', p);
      assert s[..|s| - 1] == u + Repeat('=', p - 1);
      UrlStripped(u, p - 1);
    } else {
      assert u + Repeat('=', 0) == u;
    }
  }

  /** The token uses only the URL-safe alphabet: no `+`, `/` or `=`. */
  lemma TokenAlphabet(bs: seq<byte>)
    ensures Avoids(ToToken(bs), '+') && Avoids(ToToken(bs), '/') && Avoids(ToToken(bs), '=')
  {
    DigitsShape(bs);
    var d := Digits(bs);
    forall i | 0 <= i < |d|
      ensures d[i] != '='
    {
      CharOfValue(ValueOf(d[i]).value);
    }
  }

  /** Undoing the alphabet change restores digits that had neither `-` nor `_`. */
  lemma UrlSafeReverts(d: string)
    requires AllDigits(d)
    ensures ReplaceAll(ReplaceAll(ReplaceAll(ReplaceAll(d, '+', '-'), '/', '_'), '-', '+'), '_', '/') == d
  {
    forall i | 0 <= i < |d|
      ensures d[i] != '-' && d[i] != '_'
    {
      CharOfValue(ValueOf(d[i]).value);
    }
  }

  /** The restored padding is the padding the encoder dropped. */
  lemma PadRestored(n: nat, digits: nat)
    requires digits + PadCount(n) == (n + 2) / 3 * 4
    ensures (4 - digits % 4) % 4 == PadCount(n)
  {
  }

  /** Decoding a token gives back the bytes it was made from. */
  lemma TokenRoundTrip(bs: seq<byte>)
    ensures FromToken(ToToken(bs)) == Some(bs)
  {
    var d := Digits(bs);
    DigitsShape(bs);
    UrlSafeReverts(d);
    PadRestored(|bs|, |d|);
    DecodeEncode(bs);
  }
}
