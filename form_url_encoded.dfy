/**
 * The `URLSearchParams` behaviour the query builders rely on: an ordered list of
 * name/value pairs, appended one by one, and serialized as
 * application/x-www-form-urlencoded (WHATWG URL Standard, section 5.2,
 * "application/x-www-form-urlencoded serializing"): each name and value is
 * UTF-8 encoded and percent-encoded, except ASCII alphanumerics and `*-._`,
 * with space written as `+`; pairs are joined as `name=value` with `&`.
 *
 * `Parse` is the matching reader (section 5.1 of the same standard); it is
 * specified to invert `Serialize`, which is the property the query builders need.
 */
module FormUrlEncoded {
  import opened Types
  import opened Text

  type Byte = b: int | 0 <= b < 256
  type Pair = (string, string)

  /** Characters outside the application/x-www-form-urlencoded percent-encode set. */
  predicate Unreserved(c: char) {
    'a' <= c <= 'z' || 'A' <= c <= 'Z' || '0' <= c <= '9' || c == '*' || c == '-' || c == '.' || c == '_'
  }

  /** The UTF-8 encoding of one Unicode scalar value. */
  function Utf8(c: char): (bs: seq<Byte>)
    ensures 1 <= |bs| <= 4
  {
    var n := c as int;
    if n < 0x80 then [n]
    else if n < 0x800 then [0xC0 + n / 64, 0x80 + n % 64]
    else if n < 0x10000 then [0xE0 + n / 4096, 0x80 + (n / 64) % 64, 0x80 + n % 64]
    else [0xF0 + n / 262144, 0x80 + (n / 4096) % 64, 0x80 + (n / 64) % 64, 0x80 + n % 64]
  }

  predicate IsHex(c: char) {
    '0' <= c <= '9' || 'A' <= c <= 'F' || 'a' <= c <= 'f'
  }

  /** An upper-case hexadecimal digit, as percent-encoding writes it. */
  function HexDigit(d: nat): (c: char)
    requires d < 16
    ensures IsHex(c) && Unreserved(c)
  {
    if d < 10 then (('0' as int) + d) as char else (('A' as int) + d - 10) as char
  }

  function HexValue(c: char): (d: nat)
    requires IsHex(c)
    ensures d < 16
  {
    if '0' <= c <= '9' then (c as int) - ('0' as int)
    else if 'A' <= c <= 'F' then (c as int) - ('A' as int) + 10
    else (c as int) - ('a' as int) + 10
  }

  lemma HexValueDigit(d: nat)
    requires d < 16
    ensures HexValue(HexDigit(d)) == d
  {
  }

  function PercentByte(b: Byte): (s: string)
    ensures |s| == 3
  {
    ['%', HexDigit(b / 16), HexDigit(b % 16)]
  }

  function PercentBytes(bs: seq<Byte>): (s: string)
    ensures |s| == 3 * |bs|
  {
    if bs == [] then "" else PercentByte(bs[0]) + PercentBytes(bs[1..])
  }

  function EncodeChar(c: char): string {
    if Unreserved(c) then [c] else if c == ' ' then "+" else PercentBytes(Utf8(c))
  }

  /** The name or value as it appears in the serialized query. */
  function Encode(s: string): string {
    if s == [] then "" else EncodeChar(s[0]) + Encode(s[1..])
  }

  function SerializePair(p: Pair): string {
    Encode(p.0) + "=" + Encode(p.1)
  }

  /** `URLSearchParams.prototype.toString()`. */
  function Serialize(ps: seq<Pair>): string {
    if ps == [] then ""
    else if |ps| == 1 then SerializePair(ps[0])
    else SerializePair(ps[0]) + "&" + Serialize(ps[1..])
  }

  /** `URLSearchParams.prototype.get`: the value of the first pair with this name. */
  function GetParam(ps: seq<Pair>, name: string): (r: Option<string>)
    ensures r.Some? <==> exists i :: 0 <= i < |ps| && ps[i].0 == name
  {
    if ps == [] then None
    else if ps[0].0 == name then Some(ps[0].1)
    else
      var r := GetParam(ps[1..], name);
      assert forall i :: 1 <= i < |ps| ==> ps[i] == ps[1..][i - 1];
      r
  }

  /** The first value of `name` in `a + b` comes from `a` when `a` has the name. */
  lemma {:induction false} GetParamAppend(a: seq<Pair>, b: seq<Pair>, name: string)
    ensures GetParam(a + b, name) == if GetParam(a, name).Some? then GetParam(a, name) else GetParam(b, name)
  {
    if a != [] {
      assert (a + b)[0] == a[0] && (a + b)[1..] == a[1..] + b;
      GetParamAppend(a[1..], b, name);
    } else {
      assert a + b == b;
    }
  }

  // ---------------------------------------------------------------------------
  // Reading a query back

  predicate PercentAt(s: string, i: nat) {
    i + 3 <= |s| && s[i] == '%' && IsHex(s[i + 1]) && IsHex(s[i + 2])
  }

  function ByteAt(s: string, i: nat): Byte
    requires PercentAt(s, i)
  {
    HexValue(s[i + 1]) * 16 + HexValue(s[i + 2])
  }

  predicate ContinuationAt(s: string, i: nat) {
    PercentAt(s, i) && 0x80 <= ByteAt(s, i) < 0xC0
  }

  /** How many bytes a UTF-8 sequence with this lead byte has (0: not a lead byte). */
  function SequenceLength(b: Byte): nat {
    if b < 0x80 then 1
    else if 0xC0 <= b < 0xE0 then 2
    else if 0xE0 <= b < 0xF0 then 3
    else if 0xF0 <= b < 0xF8 then 4
    else 0
  }

  /** The `len` percent-encoded bytes at the start of `s` form a lead byte and its continuations. */
  predicate WellFormedAt(s: string, len: nat) {
    PercentAt(s, 0) && SequenceLength(ByteAt(s, 0)) == len && 2 <= len
    && ContinuationAt(s, 3) && (len >= 3 ==> ContinuationAt(s, 6)) && (len >= 4 ==> ContinuationAt(s, 9))
  }

  function CodePoint(s: string, len: nat): int
    requires WellFormedAt(s, len)
  {
    var b0, b1 := ByteAt(s, 0) as int, ByteAt(s, 3) as int - 0x80;
    if len == 2 then (b0 - 0xC0) * 64 + b1
    else if len == 3 then (b0 - 0xE0) * 4096 + b1 * 64 + (ByteAt(s, 6) as int - 0x80)
    else (b0 - 0xF0) * 262144 + b1 * 4096 + (ByteAt(s, 6) as int - 0x80) * 64 + (ByteAt(s, 9) as int - 0x80)
  }

  predicate IsScalar(n: int) {
    0 <= n < 0xD800 || 0xE000 <= n < 0x110000
  }

  const Replacement: char := '�'

  /**
   * Turns `+` into space and percent-encoded UTF-8 back into characters. A byte
   * that does not start a well-formed sequence becomes U+FFFD. Exact on
   * everything `Encode` produces, which is what `DecodeEncode` states.
   */
  function Decode(s: string): string
    decreases |s|
  {
    if s == [] then ""
    else if s[0] == '+' then " " + Decode(s[1..])
    else if PercentAt(s, 0) then
      var b0 := ByteAt(s, 0);
      var len := SequenceLength(b0);
      if len == 1 then [b0 as char] + Decode(s[3..])
      else if WellFormedAt(s, len) && IsScalar(CodePoint(s, len)) then
        [CodePoint(s, len) as char] + Decode(s[3 * len..])
      else [Replacement] + Decode(s[3..])
    else [s[0]] + Decode(s[1..])
  }

  function ParsePair(chunk: string): Pair {
    var i := IndexOf(chunk, '=');
    (Decode(chunk[..i]), Decode(if i < |chunk| then chunk[i + 1..] else ""))
  }

  /** Splits on `&`, skips empty pieces, splits each piece at its first `=`, decodes both halves. */
  function Parse(q: string): seq<Pair>
    decreases |q|
  {
    if q == "" then []
    else
      var i := IndexOf(q, '&');
      var rest := if i < |q| then Parse(q[i + 1..]) else [];
      if i == 0 then rest else [ParsePair(q[..i])] + rest
  }

  // ---------------------------------------------------------------------------
  // Properties

  /** Only unreserved characters, `+` and `%` occur in an encoded component. */
  predicate QuerySafe(t: string) {
    forall i :: 0 <= i < |t| ==> Unreserved(t[i]) || t[i] == '+' || t[i] == '%'
  }

  lemma {:induction false} PercentBytesSafe(bs: seq<Byte>)
    ensures QuerySafe(PercentBytes(bs))
  {
    if bs != [] {
      PercentBytesSafe(bs[1..]);
      var a, b := PercentByte(bs[0]), PercentBytes(bs[1..]);
      assert forall i :: |a| <= i < |a + b| ==> (a + b)[i] == b[i - |a|];
    }
  }

  /** Encoding never produces the separators `&` and `=`. */
  lemma {:induction false} EncodeSafe(s: string)
    ensures QuerySafe(Encode(s))
  {
    if s != [] {
      EncodeSafe(s[1..]);
      if !Unreserved(s[0]) && s[0] != ' ' {
        PercentBytesSafe(Utf8(s[0]));
      }
      var a, b := EncodeChar(s[0]), Encode(s[1..]);
      assert forall i :: |a| <= i < |a + b| ==> (a + b)[i] == b[i - |a|];
    }
  }

  /** A string of unreserved characters is sent as it is. */
  lemma {:induction false} EncodeUnreserved(s: string)
    requires forall i :: 0 <= i < |s| ==> Unreserved(s[i])
    ensures Encode(s) == s
  {
    if s != [] {
      EncodeUnreserved(s[1..]);
    }
  }

  lemma PercentByteAt(b: Byte, rest: string)
    ensures PercentAt(PercentByte(b) + rest, 0) && ByteAt(PercentByte(b) + rest, 0) == b
  {
    HexValueDigit(b / 16);
    HexValueDigit(b % 16);
  }

  /** The `k`-th encoded byte sits at offset `3 * k`. */
  lemma {:induction false} PercentBytesAt(bs: seq<Byte>, rest: string, k: nat)
    requires k < |bs|
    ensures var s := PercentBytes(bs) + rest;
      PercentAt(s, 3 * k) && ByteAt(s, 3 * k) == bs[k] && s[3 * |bs|..] == rest
  {
    var s := PercentBytes(bs) + rest;
    var tail := PercentBytes(bs[1..]) + rest;
    assert s == PercentByte(bs[0]) + tail;
    if k == 0 {
      PercentByteAt(bs[0], tail);
      if |bs| > 1 {
        PercentBytesAt(bs[1..], rest, 0);
      }
    } else {
      PercentBytesAt(bs[1..], rest, k - 1);
      assert s[3 * k..] == tail[3 * (k - 1)..];
    }
  }

  /** The value a lead byte and its continuation bytes stand for. */
  function Combine(bs: seq<Byte>): int
    requires 2 <= |bs| <= 4
  {
    var b0, b1 := bs[0] as int, bs[1] as int - 0x80;
    if |bs| == 2 then (b0 - 0xC0) * 64 + b1
    else if |bs| == 3 then (b0 - 0xE0) * 4096 + b1 * 64 + (bs[2] as int - 0x80)
    else (b0 - 0xF0) * 262144 + b1 * 4096 + (bs[2] as int - 0x80) * 64 + (bs[3] as int - 0x80)
  }

  predicate Continuation(b: Byte) {
    0x80 <= b < 0xC0
  }

  lemma Utf8Two(n: int)
    requires 0x80 <= n < 0x800
    ensures 0xC0 <= 0xC0 + n / 64 < 0xE0 && Continuation(0x80 + n % 64)
    ensures Combine([0xC0 + n / 64, 0x80 + n % 64]) == n
  {
    assert n == (n / 64) * 64 + n % 64;
  }

  lemma Utf8Three(n: int)
    requires 0x800 <= n < 0x10000
    ensures 0xE0 <= 0xE0 + n / 4096 < 0xF0
    ensures Continuation(0x80 + (n / 64) % 64) && Continuation(0x80 + n % 64)
    ensures Combine([0xE0 + n / 4096, 0x80 + (n / 64) % 64, 0x80 + n % 64]) == n
  {
    var q1, q2 := n / 64, n / 4096;
    assert n == q1 * 64 + n % 64;
    assert q1 == q2 * 64 + q1 % 64;
  }

  lemma Utf8Four(n: int)
    requires 0x10000 <= n < 0x110000
    ensures 0xF0 <= 0xF0 + n / 262144 < 0xF8
    ensures Continuation(0x80 + (n / 4096) % 64) && Continuation(0x80 + (n / 64) % 64) && Continuation(0x80 + n % 64)
    ensures Combine([0xF0 + n / 262144, 0x80 + (n / 4096) % 64, 0x80 + (n / 64) % 64, 0x80 + n % 64]) == n
  {
    var q1, q2, q3 := n / 64, n / 4096, n / 262144;
    assert n == q1 * 64 + n % 64;
    assert q1 == q2 * 64 + q1 % 64;
    assert q2 == q3 * 64 + q2 % 64;
  }

  /** A multi-byte encoding is a lead byte of the right class, continuations, and combines back. */
  lemma Utf8Shape(c: char)
    requires 0x80 <= c as int
    ensures var bs := Utf8(c);
      2 <= |bs| && SequenceLength(bs[0]) == |bs| && Combine(bs) == c as int
      && forall k :: 1 <= k < |bs| ==> Continuation(bs[k])
  {
    var n := c as int;
    if n < 0x800 { Utf8Two(n); } else if n < 0x10000 { Utf8Three(n); } else { Utf8Four(n); }
  }

  /** A lead byte and its continuations decode to the code point they were built from. */
  lemma DecodeMultiByte(c: char, rest: string)
    requires 0x80 <= c as int
    ensures var bs, s := Utf8(c), PercentBytes(Utf8(c)) + rest;
      WellFormedAt(s, |bs|) && CodePoint(s, |bs|) == c as int && s[3 * |bs|..] == rest
  {
    var bs := Utf8(c);
    var s := PercentBytes(bs) + rest;
    Utf8Shape(c);
    PercentBytesAt(bs, rest, 0);
    PercentBytesAt(bs, rest, 1);
    if |bs| >= 3 { PercentBytesAt(bs, rest, 2); }
    if |bs| == 4 { PercentBytesAt(bs, rest, 3); }
    assert Continuation(bs[1]);
    assert |bs| >= 3 ==> Continuation(bs[2]);
    assert |bs| >= 4 ==> Continuation(bs[3]);
    assert WellFormedAt(s, |bs|);
    assert CodePoint(s, |bs|) == Combine(bs);
  }

  lemma DecodePercentChar(c: char, rest: string)
    requires !Unreserved(c) && c != ' '
    ensures Decode(PercentBytes(Utf8(c)) + rest) == [c] + Decode(rest)
  {
    var bs := Utf8(c);
    var s := PercentBytes(bs) + rest;
    PercentBytesAt(bs, rest, 0);
    assert s[0] == '%';
    if c as int < 0x80 {
      assert SequenceLength(bs[0]) == 1;
      assert s[3..] == rest;
    } else {
      DecodeMultiByte(c, rest);
    }
  }

  lemma DecodeEncodeChar(c: char, rest: string)
    ensures Decode(EncodeChar(c) + rest) == [c] + Decode(rest)
  {
    if Unreserved(c) {
      assert ([c] + rest)[1..] == rest;
    } else if c == ' ' {
      assert ("+" + rest)[1..] == rest;
    } else {
      DecodePercentChar(c, rest);
    }
  }

  /** Decoding undoes encoding, for every string. */
  lemma {:induction false} DecodeEncode(s: string)
    ensures Decode(Encode(s)) == s
  {
    if s != [] {
      DecodeEncodeChar(s[0], Encode(s[1..]));
      DecodeEncode(s[1..]);
      assert Encode(s) == EncodeChar(s[0]) + Encode(s[1..]);
    }
  }

  lemma NoSeparator(t: string, c: char)
    requires QuerySafe(t) && (c == '&' || c == '=')
    ensures forall k :: 0 <= k < |t| ==> t[k] != c
  {
  }

  lemma ParseSerializePair(p: Pair, rest: string)
    ensures var a := SerializePair(p);
      |a| >= 1 && ParsePair(a) == p && forall k :: 0 <= k < |a| ==> a[k] != '&'
  {
    var n, v := Encode(p.0), Encode(p.1);
    EncodeSafe(p.0);
    EncodeSafe(p.1);
    NoSeparator(n, '=');
    NoSeparator(n, '&');
    NoSeparator(v, '&');
    var a := SerializePair(p);
    assert a == n + ['='] + v;
    IndexOfAppend(n, '=', v);
    assert a[..|n|] == n;
    assert a[|n| + 1..] == v;
    DecodeEncode(p.0);
    DecodeEncode(p.1);
    assert forall k :: 0 <= k < |a| ==> a[k] != '&' by {
      forall k | 0 <= k < |a|
        ensures a[k] != '&'
      {
        if k > |n| { assert a[k] == v[k - |n| - 1]; }
      }
    }
  }

  /** The characters a serialized query consists of. */
  predicate QueryChar(c: char) {
    Unreserved(c) || c == '+' || c == '%' || c == '&' || c == '='
  }

  predicate QueryChars(t: string) {
    forall k :: 0 <= k < |t| ==> QueryChar(t[k])
  }

  lemma QueryCharsAppend(x: string, y: string)
    requires QueryChars(x) && QueryChars(y)
    ensures QueryChars(x + y)
  {
    forall k | 0 <= k < |x + y|
      ensures QueryChar((x + y)[k])
    {
      if k < |x| { assert (x + y)[k] == x[k]; } else { assert (x + y)[k] == y[k - |x|]; }
    }
  }

  lemma QuerySafeChars(t: string)
    requires QuerySafe(t)
    ensures QueryChars(t)
  {
  }

  lemma SerializePairChars(p: Pair)
    ensures QueryChars(SerializePair(p))
  {
    var n, v := Encode(p.0), Encode(p.1);
    EncodeSafe(p.0);
    EncodeSafe(p.1);
    QuerySafeChars(n);
    QuerySafeChars(v);
    QueryCharsAppend(n, "=");
    QueryCharsAppend(n + "=", v);
  }

  lemma {:induction false} SerializeChars(ps: seq<Pair>)
    ensures QueryChars(Serialize(ps))
  {
    if ps != [] {
      var a := SerializePair(ps[0]);
      SerializePairChars(ps[0]);
      if |ps| > 1 {
        SerializeChars(ps[1..]);
        QueryCharsAppend(a, "&");
        QueryCharsAppend(a + "&", Serialize(ps[1..]));
      }
    }
  }

  /** A serialized query never contains `?`, `#` or `/`, so it cannot be mistaken for part of a path. */
  lemma SerializeLacksDelimiters(ps: seq<Pair>)
    ensures Lacks(Serialize(ps), '?') && Lacks(Serialize(ps), '#') && Lacks(Serialize(ps), '/')
  {
    SerializeChars(ps);
  }

  /** Nothing but the empty list serializes to the empty string. */
  lemma SerializeEmpty(ps: seq<Pair>)
    ensures Serialize(ps) == "" <==> ps == []
  {
    if ps != [] {
      assert Serialize(ps)[..|SerializePair(ps[0])|] == SerializePair(ps[0]);
      assert SerializePair(ps[0])[|Encode(ps[0].0)|] == '=';
    }
  }

  /** Reading the serialized query gives back exactly the pairs, in order. */
  lemma {:induction false} ParseSerialize(ps: seq<Pair>)
    ensures Parse(Serialize(ps)) == ps
  {
    if ps != [] {
      var a := SerializePair(ps[0]);
      ParseSerializePair(ps[0], "");
      if |ps| == 1 {
        IndexOfAbsent(a, '&');
        assert a[..|a|] == a;
      } else {
        var q := Serialize(ps);
        assert q == a + ['&'] + Serialize(ps[1..]);
        IndexOfAppend(a, '&', Serialize(ps[1..]));
        assert q[..|a|] == a;
        assert q[|a| + 1..] == Serialize(ps[1..]);
        ParseSerialize(ps[1..]);
      }
    }
  }

  /** Two lists of pairs give the same query string only if they are equal. */
  lemma SerializeInjective(ps: seq<Pair>, qs: seq<Pair>)
    requires Serialize(ps) == Serialize(qs)
    ensures ps == qs
  {
    ParseSerialize(ps);
    ParseSerialize(qs);
  }

  /** The mutable list behind `new URLSearchParams()` and its `append`. */
  class SearchParams {
    var pairs: seq<Pair>

    constructor ()
      ensures pairs == []
    {
      pairs := [];
    }

    method Append(name: string, value: string)
      modifies this
      ensures pairs == old(pairs) + [(name, value)]
    {
      pairs := pairs + [(name, value)];
    }

    function ToString(): string
      reads this
    {
      Serialize(pairs)
    }
  }
}
