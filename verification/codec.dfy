/** A self-delimiting text encoding that stands in for `JSON.stringify` followed by
    base64url. Only its two properties matter to the model: decoding an encoded value
    gives it back, and the encoded text uses only base64url characters (so it can sit
    in a cookie value). Numbers are written as little-endian hexadecimal digits ended
    by 'x'; a string is its character codes followed by 'y'. */
module Codec {
  import opened Wrappers

  /** The base64url alphabet of section 5 of RFC 4648. */
  predicate IsUrlSafeChar(c: char) {
    ('a' <= c <= 'z') || ('A' <= c <= 'Z') || ('0' <= c <= '9') || c == '-' || c == '_'
  }

  predicate UrlSafe(s: string) {
    forall i :: 0 <= i < |s| ==> IsUrlSafeChar(s[i])
  }

  function HexDigit(d: nat): (c: char)
    requires d < 16
    ensures IsUrlSafeChar(c) && c != 'x' && c != 'y' && c != 'm'
  {
    if d < 10 then ('0' as int + d) as char else ('a' as int + d - 10) as char
  }

  function HexValue(c: char): (r: Option<nat>)
    ensures r.Some? ==> r.value < 16 && HexDigit(r.value) == c
  {
    if '0' <= c <= '9' then Some(c as int - '0' as int)
    else if 'a' <= c <= 'f' then Some(c as int - 'a' as int + 10)
    else None
  }

  lemma HexValueOfDigit(d: nat)
    requires d < 16
    ensures HexValue(HexDigit(d)) == Some(d)
  {
  }

  /** The hexadecimal digits of `n`, least significant first. */
  function HexDigits(n: nat): (s: string)
    ensures |s| >= 1 && s[0] == HexDigit(n % 16)
    decreases n
  {
    if n < 16 then [HexDigit(n)] else [HexDigit(n % 16)] + HexDigits(n / 16)
  }

  function EncodeNat(n: nat): (s: string)
    ensures |s| >= 2 && s[0] == HexDigit(n % 16)
  {
    HexDigits(n) + "x"
  }

  /** Reads one number off the front of `s`, giving it and what follows. */
  function DecodeNat(s: string): (r: Option<(nat, string)>)
    ensures r.Some? ==> |r.value.1| < |s|
    decreases |s|
  {
    if |s| < 2 then None
    else match HexValue(s[0])
      case None => None
      case Some(d) =>
        if s[1] == 'x' then Some((d, s[2..]))
        else match DecodeNat(s[1..])
          case None => None
          case Some((m, rest)) => Some((d + 16 * m, rest))
  }

  lemma {:induction false} DecodeEncodeNat(n: nat, rest: string)
    ensures DecodeNat(EncodeNat(n) + rest) == Some((n, rest))
    decreases n
  {
    var s := EncodeNat(n) + rest;
    HexValueOfDigit(n % 16);
    if n < 16 {
      assert s[2..] == rest;
    } else {
      var tail := HexDigits(n / 16);
      assert s == [HexDigit(n % 16)] + (EncodeNat(n / 16) + rest);
      assert s[1] == tail[0];
      assert s[1] != 'x';
      assert s[1..] == EncodeNat(n / 16) + rest;
      DecodeEncodeNat(n / 16, rest);
    }
  }

  function EncodeInt(i: int): (s: string)
    ensures |s| >= 2
  {
    if i < 0 then "m" + EncodeNat(-i) else EncodeNat(i)
  }

  function DecodeInt(s: string): (r: Option<(int, string)>)
    ensures r.Some? ==> |r.value.1| < |s|
  {
    if |s| > 0 && s[0] == 'm' then
      match DecodeNat(s[1..])
      case None => None
      case Some((n, rest)) => Some((-(n as int), rest))
    else DecodeNat(s)
  }

  lemma DecodeEncodeInt(i: int, rest: string)
    ensures DecodeInt(EncodeInt(i) + rest) == Some((i, rest))
  {
    var s := EncodeInt(i) + rest;
    if i < 0 {
      assert s == ['m'] + (EncodeNat(-i) + rest);
      assert s[1..] == EncodeNat(-i) + rest;
      DecodeEncodeNat(-i, rest);
      assert DecodeNat(s[1..]) == Some((-i, rest));
    } else {
      assert s == EncodeNat(i) + rest;
      assert s[0] == EncodeNat(i)[0];
      assert s[0] != 'm';
      DecodeEncodeNat(i, rest);
    }
  }

  /** Code points a `char` can hold (Unicode scalar values). */
  predicate IsCharCode(n: nat) {
    n < 0xD800 || 0xE000 <= n < 0x11_0000
  }

  function EncodeString(s: string): (e: string)
    ensures |e| >= 1
  {
    if s == [] then "y" else EncodeNat(s[0] as int) + EncodeString(s[1..])
  }

  function DecodeString(s: string): (r: Option<(string, string)>)
    ensures r.Some? ==> |r.value.1| < |s|
    decreases |s|
  {
    if |s| == 0 then None
    else if s[0] == 'y' then Some(("", s[1..]))
    else match DecodeNat(s)
      case None => None
      case Some((n, rest)) =>
        if !IsCharCode(n) then None
        else match DecodeString(rest)
          case None => None
          case Some((t, rest')) => Some(([n as char] + t, rest'))
  }

  /** One step of the string decoding: a character code, then the rest of the string. */
  lemma DecodeStringCons(v: string, n: nat, r1: string, t: string, r2: string)
    requires |v| > 0 && v[0] != 'y'
    requires DecodeNat(v) == Some((n, r1)) && IsCharCode(n)
    requires DecodeString(r1) == Some((t, r2))
    ensures DecodeString(v) == Some(([n as char] + t, r2))
  {
  }

  lemma {:induction false} DecodeEncodeString(s: string, rest: string)
    ensures DecodeString(EncodeString(s) + rest) == Some((s, rest))
    decreases |s|
  {
    if s == [] {
      assert ("y" + rest)[1..] == rest;
    } else {
      var head := EncodeNat(s[0] as int);
      var tail := EncodeString(s[1..]) + rest;
      var v := EncodeString(s) + rest;
      assert v == head + tail;
      assert v[0] == head[0] && v[0] != 'y';
      DecodeEncodeNat(s[0] as int, tail);
      assert DecodeNat(v) == Some((s[0] as int, tail));
      DecodeEncodeString(s[1..], rest);
      DecodeStringCons(v, s[0] as int, tail, s[1..], rest);
      assert [s[0]] + s[1..] == s;
    }
  }

  function EncodeOptInt(o: Option<int>): (e: string)
    ensures |e| >= 1
  {
    match o
    case None => "n"
    case Some(i) => "s" + EncodeInt(i)
  }

  function DecodeOptInt(s: string): (r: Option<(Option<int>, string)>)
    ensures r.Some? ==> |r.value.1| < |s|
  {
    if |s| == 0 then None
    else if s[0] == 'n' then Some((None, s[1..]))
    else if s[0] == 's' then
      match DecodeInt(s[1..])
      case None => None
      case Some((i, rest)) => Some((Some(i), rest))
    else None
  }

  lemma DecodeEncodeOptInt(o: Option<int>, rest: string)
    ensures DecodeOptInt(EncodeOptInt(o) + rest) == Some((o, rest))
  {
    match o
    case None =>
      var s := "n" + rest;
      assert s[0] == 'n' && s[1..] == rest;
    case Some(i) =>
      var s := "s" + (EncodeInt(i) + rest);
      assert EncodeOptInt(o) + rest == s;
      assert s[0] == 's' && s[1..] == EncodeInt(i) + rest;
      DecodeEncodeInt(i, rest);
  }

  // ---------------------------------------------------------------------------
  // Every encoding is URL-safe
  // ---------------------------------------------------------------------------

  lemma UrlSafeConcat(a: string, b: string)
    requires UrlSafe(a) && UrlSafe(b)
    ensures UrlSafe(a + b)
  {
    forall i | 0 <= i < |a + b| ensures IsUrlSafeChar((a + b)[i]) {
      if i < |a| { assert (a + b)[i] == a[i]; } else { assert (a + b)[i] == b[i - |a|]; }
    }
  }

  lemma {:induction false} HexDigitsUrlSafe(n: nat)
    ensures UrlSafe(HexDigits(n))
    decreases n
  {
    if n >= 16 {
      HexDigitsUrlSafe(n / 16);
      UrlSafeConcat([HexDigit(n % 16)], HexDigits(n / 16));
    }
  }

  lemma EncodeNatUrlSafe(n: nat)
    ensures UrlSafe(EncodeNat(n))
  {
    HexDigitsUrlSafe(n);
    UrlSafeConcat(HexDigits(n), "x");
  }

  lemma EncodeIntUrlSafe(i: int)
    ensures UrlSafe(EncodeInt(i))
  {
    if i < 0 {
      EncodeNatUrlSafe(-i);
      UrlSafeConcat("m", EncodeNat(-i));
    } else {
      EncodeNatUrlSafe(i);
    }
  }

  /** A string's encoding, followed by URL-safe text, is URL-safe. */
  lemma {:induction false} EncodeStringUrlSafe(s: string, more: string)
    requires UrlSafe(more)
    ensures UrlSafe(EncodeString(s) + more)
    decreases |s|
  {
    if s == [] {
      UrlSafeConcat("y", more);
    } else {
      EncodeNatUrlSafe(s[0] as int);
      EncodeStringUrlSafe(s[1..], more);
      UrlSafeConcat(EncodeNat(s[0] as int), EncodeString(s[1..]) + more);
      assert EncodeString(s) + more == EncodeNat(s[0] as int) + (EncodeString(s[1..]) + more);
    }
  }

  lemma EncodeOptIntUrlSafe(o: Option<int>)
    ensures UrlSafe(EncodeOptInt(o))
  {
    if o.Some? {
      EncodeIntUrlSafe(o.value);
      UrlSafeConcat("s", EncodeInt(o.value));
    }
  }
}
