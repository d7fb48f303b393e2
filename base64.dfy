/**
 * The browser's `btoa`: Base64 (RFC 4648, section 4, with `=` padding) of a string whose characters
 * are all Latin-1; any other character makes it throw. The batch generator builds each barcode
 * URL with it. `Atob` is its inverse and is used only to state the round trip.
 */
module Base64 {
  import opened Wrappers

  /** The character for a 6-bit value: `A`-`Z`, `a`-`z`, `0`-`9`, `+`, `/`. */
  function SextetChar(k: int): char
    requires 0 <= k < 64
  {
    if k < 26 then ('A' as int + k) as char
    else if k < 52 then ('a' as int + (k - 26)) as char
    else if k < 62 then ('0' as int + (k - 52)) as char
    else if k == 62 then '+'
    else '/'
  }

  /** The 6-bit value of an alphabet character; `None` for any other character (including `=`). */
  function SextetValue(c: char): (r: Option<int>)
    ensures r.Some? ==> 0 <= r.value < 64
  {
    if 'A' <= c <= 'Z' then Some(c as int - 'A' as int)
    else if 'a' <= c <= 'z' then Some(c as int - 'a' as int + 26)
    else if '0' <= c <= '9' then Some(c as int - '0' as int + 52)
    else if c == '+' then Some(62)
    else if c == '/' then Some(63)
    else None
  }

  predicate IsLatin1(s: string)
  {
    forall i :: 0 <= i < |s| ==> s[i] as int < 256
  }

  /** Three bytes become four alphabet characters. */
  function EncodeGroup(a: int, b: int, c: int): string
    requires 0 <= a < 256 && 0 <= b < 256 && 0 <= c < 256
  {
    [SextetChar(a / 4), SextetChar(a % 4 * 16 + b / 16), SextetChar(b % 16 * 4 + c / 64), SextetChar(c % 64)]
  }

  function Encode(s: string): string
    requires IsLatin1(s)
  {
    if |s| == 0 then ""
    else if |s| == 1 then
      var a := s[0] as int;
      [SextetChar(a / 4), SextetChar(a % 4 * 16), '=', '=']
    else if |s| == 2 then
      var a, b := s[0] as int, s[1] as int;
      [SextetChar(a / 4), SextetChar(a % 4 * 16 + b / 16), SextetChar(b % 16 * 4), '=']
    else
      EncodeGroup(s[0] as int, s[1] as int, s[2] as int) + Encode(s[3..])
  }

  /** `btoa(s)`: `None` stands for the `InvalidCharacterError` thrown on a non-Latin-1 character. */
  function Btoa(s: string): (r: Option<string>)
    ensures r.Some? <==> IsLatin1(s)
  {
    if IsLatin1(s) then Some(Encode(s)) else None
  }

  /** Every three characters (or a final one or two) become four. */
  lemma {:induction false} EncodeLength(s: string)
    requires IsLatin1(s)
    ensures |Encode(s)| == 4 * ((|s| + 2) / 3)
  {
    if |s| >= 3 {
      assert IsLatin1(s[3..]);
      EncodeLength(s[3..]);
      assert s[0] as int < 256 && s[1] as int < 256 && s[2] as int < 256;
      var k := (|s| - 1) / 3;
      assert (|s| + 2) / 3 == k + 1;
      assert |Encode(s)| == 4 + 4 * k;
    }
  }

  /**
   * One block of four characters. `last` says the block ends the input, where `=` padding may
   * stand for a missing second or third byte.
   */
  function DecodeQuad(q0: char, q1: char, q2: char, q3: char, last: bool): (r: Option<string>)
    ensures r.Some? ==> 1 <= |r.value| <= 3 && (!last ==> |r.value| == 3)
  {
    var v0, v1, v2, v3 := SextetValue(q0), SextetValue(q1), SextetValue(q2), SextetValue(q3);
    if v0.None? || v1.None? then None
    else
      var a := (v0.value * 4 + v1.value / 16) as char;
      if last && q2 == '=' && q3 == '=' then Some([a])
      else if v2.None? then None
      else
        var b := (v1.value % 16 * 16 + v2.value / 4) as char;
        if last && q3 == '=' then Some([a, b])
        else if v3.None? then None
        else Some([a, b, (v2.value % 4 * 64 + v3.value) as char])
  }

  /** `atob` on padded input, block by block. */
  function Atob(t: string): Option<string>
  {
    if |t| == 0 then Some("")
    else if |t| < 4 then None
    else
      var head := DecodeQuad(t[0], t[1], t[2], t[3], |t| == 4);
      if head.None? then None
      else if |t| == 4 then head
      else
        var rest := Atob(t[4..]);
        if rest.None? then None else Some(head.value + rest.value)
  }

  lemma SextetRoundTrip(k: int)
    requires 0 <= k < 64
    ensures SextetValue(SextetChar(k)) == Some(k)
  {
  }

  lemma DecodeOneByte(a: int)
    requires 0 <= a < 256
    ensures DecodeQuad(SextetChar(a / 4), SextetChar(a % 4 * 16), '=', '=', true) == Some([a as char])
  {
    SextetRoundTrip(a / 4);
    SextetRoundTrip(a % 4 * 16);
  }

  lemma DecodeTwoBytes(a: int, b: int)
    requires 0 <= a < 256 && 0 <= b < 256
    ensures DecodeQuad(SextetChar(a / 4), SextetChar(a % 4 * 16 + b / 16), SextetChar(b % 16 * 4), '=', true)
         == Some([a as char, b as char])
  {
    SextetRoundTrip(a / 4);
    SextetRoundTrip(a % 4 * 16 + b / 16);
    SextetRoundTrip(b % 16 * 4);
    assert (a % 4 * 16 + b / 16) / 16 == a % 4;
    assert (a % 4 * 16 + b / 16) % 16 == b / 16;
  }

  lemma DecodeThreeBytes(a: int, b: int, c: int, last: bool)
    requires 0 <= a < 256 && 0 <= b < 256 && 0 <= c < 256
    ensures var g := EncodeGroup(a, b, c);
      DecodeQuad(g[0], g[1], g[2], g[3], last) == Some([a as char, b as char, c as char])
  {
    SextetRoundTrip(a / 4);
    SextetRoundTrip(a % 4 * 16 + b / 16);
    SextetRoundTrip(b % 16 * 4 + c / 64);
    SextetRoundTrip(c % 64);
    assert (a % 4 * 16 + b / 16) / 16 == a % 4;
    assert (a % 4 * 16 + b / 16) % 16 == b / 16;
    assert (b % 16 * 4 + c / 64) / 4 == b % 16;
    assert (b % 16 * 4 + c / 64) % 4 == c / 64;
  }

  lemma OneByteRoundTrip(s: string)
    requires IsLatin1(s) && |s| == 1
    ensures Atob(Encode(s)) == Some(s)
  {
    var a := s[0] as int;
    assert a < 256;
    var t := Encode(s);
    assert t == [SextetChar(a / 4), SextetChar(a % 4 * 16), '=', '='];
    DecodeOneByte(a);
    assert [a as char] == s;
  }

  lemma TwoBytesRoundTrip(s: string)
    requires IsLatin1(s) && |s| == 2
    ensures Atob(Encode(s)) == Some(s)
  {
    var a, b := s[0] as int, s[1] as int;
    assert a < 256 && b < 256;
    var t := Encode(s);
    assert t == [SextetChar(a / 4), SextetChar(a % 4 * 16 + b / 16), SextetChar(b % 16 * 4), '='];
    DecodeTwoBytes(a, b);
    assert [a as char, b as char] == s;
  }

  /** A decoded full block in front of a decodable rest decodes to the concatenation. */
  lemma AtobPrepend(g: string, rest: string, x: string, y: string)
    requires |g| == 4
    requires DecodeQuad(g[0], g[1], g[2], g[3], |rest| == 0) == Some(x)
    requires Atob(rest) == Some(y)
    ensures Atob(g + rest) == Some(x + y)
  {
    var t := g + rest;
    assert t[0] == g[0] && t[1] == g[1] && t[2] == g[2] && t[3] == g[3];
    assert t[4..] == rest;
    if |rest| == 0 {
      assert x + y == x;
    }
  }

  lemma DecodeGroupThenRest(a: int, b: int, c: int, rest: string, y: string)
    requires 0 <= a < 256 && 0 <= b < 256 && 0 <= c < 256
    requires Atob(rest) == Some(y)
    ensures Atob(EncodeGroup(a, b, c) + rest) == Some([a as char, b as char, c as char] + y)
  {
    DecodeThreeBytes(a, b, c, |rest| == 0);
    AtobPrepend(EncodeGroup(a, b, c), rest, [a as char, b as char, c as char], y);
  }

  lemma EncodeStep(s: string)
    requires IsLatin1(s) && |s| >= 3
    ensures s[0] as int < 256 && s[1] as int < 256 && s[2] as int < 256
    ensures Encode(s) == EncodeGroup(s[0] as int, s[1] as int, s[2] as int) + Encode(s[3..])
  {
    assert s[0] as int < 256 && s[1] as int < 256 && s[2] as int < 256;
  }

  lemma GroupRoundTrip(s: string)
    requires IsLatin1(s) && |s| >= 3
    requires Atob(Encode(s[3..])) == Some(s[3..])
    ensures Atob(Encode(s)) == Some(s)
  {
    EncodeStep(s);
    var a, b, c := s[0] as int, s[1] as int, s[2] as int;
    DecodeGroupThenRest(a, b, c, Encode(s[3..]), s[3..]);
    SplitThree(s);
  }

  lemma SplitThree(s: string)
    requires |s| >= 3
    ensures [s[0] as int as char, s[1] as int as char, s[2] as int as char] + s[3..] == s
  {
    assert [s[0], s[1], s[2]] + s[3..] == s;
  }

  /** Decoding what `btoa` produced gives back the original string. */
  lemma {:induction false} BtoaRoundTrip(s: string)
    requires IsLatin1(s)
    ensures Btoa(s).Some? && Atob(Btoa(s).value) == Some(s)
  {
    if |s| == 1 {
      OneByteRoundTrip(s);
    } else if |s| == 2 {
      TwoBytesRoundTrip(s);
    } else if |s| >= 3 {
      assert IsLatin1(s[3..]);
      BtoaRoundTrip(s[3..]);
      GroupRoundTrip(s);
    }
  }
}
