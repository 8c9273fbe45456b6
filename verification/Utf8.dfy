/** UTF-8 as in sections 3 and 4 of RFC 3629; decoding skips ill-formed bytes. */
module Utf8 {
  import opened Wrappers

  type Byte = b: int | 0 <= b < 0x100

  function EncodeChar(c: char): (bytes: seq<Byte>)
    ensures 1 <= |bytes| <= 4
  {
    var n := c as int;
    if n < 0x80 then [n]
    else if n < 0x800 then [0xC0 + n / 0x40, 0x80 + n % 0x40]
    else if n < 0x1_0000 then [0xE0 + n / 0x1000, 0x80 + n / 0x40 % 0x40, 0x80 + n % 0x40]
    else [0xF0 + n / 0x4_0000, 0x80 + n / 0x1000 % 0x40, 0x80 + n / 0x40 % 0x40, 0x80 + n % 0x40]
  }

  function Encode(s: string): seq<Byte> {
    if s == "" then [] else EncodeChar(s[0]) + Encode(s[1..])
  }

  /** The length of an encoded text, in bytes. */
  function Size(s: string): nat {
    |Encode(s)|
  }

  predicate Continues(b: Byte) {
    0x80 <= b < 0xC0
  }

  /** How many bytes a character with this first byte takes; 0 if no character starts with it. */
  function Width(lead: Byte): nat {
    if lead < 0x80 then 1
    else if 0xC2 <= lead < 0xE0 then 2
    else if 0xE0 <= lead < 0xF0 then 3
    else if 0xF0 <= lead < 0xF5 then 4
    else 0
  }

  /** The number in the first `width` bytes; overlong forms, surrogates and numbers past U+10FFFF are ill-formed. */
  function Scalar(bytes: seq<Byte>, width: nat): (n: int)
    requires 1 <= width <= 4 && width <= |bytes|
  {
    var lead: int := bytes[0];
    if width == 1 then lead
    else if width == 2 then (lead - 0xC0) * 0x40 + Tail(bytes[1])
    else if width == 3 then (lead - 0xE0) * 0x1000 + Tail(bytes[1]) * 0x40 + Tail(bytes[2])
    else (lead - 0xF0) * 0x4_0000 + Tail(bytes[1]) * 0x1000 + Tail(bytes[2]) * 0x40 + Tail(bytes[3])
  }

  function Tail(b: int): int {
    b - 0x80
  }

  predicate IsScalar(n: int, width: nat) {
    (width == 1 ==> 0 <= n < 0x80) && (width == 2 ==> 0x80 <= n < 0x800)
    && (width == 3 ==> 0x800 <= n < 0x1_0000) && (width == 4 ==> 0x1_0000 <= n < 0x11_0000)
    && !(0xD800 <= n < 0xE000)
  }

  /** The character at the front of some bytes, if they start with a well-formed one. */
  function First(bytes: seq<Byte>): Option<char> {
    if bytes == [] then None
    else
      var width := Width(bytes[0]);
      if width == 0 || |bytes| < width || (exists k :: 1 <= k < width && !Continues(bytes[k])) then None
      else
        var n := Scalar(bytes, width);
        if 0 <= n && IsScalar(n, width) then Some(n as char) else None
  }

  /** Decoding that drops every byte that is not part of a well-formed character. */
  function DecodeIgnoring(bytes: seq<Byte>): string {
    if bytes == [] then ""
    else
      match First(bytes)
      case None => DecodeIgnoring(bytes[1..])
      case Some(c) => [c] + DecodeIgnoring(bytes[Width(bytes[0])..])
  }

  lemma DigitsAddUp(n: int)
    requires 0 <= n
    ensures n == n / 0x40 * 0x40 + n % 0x40
    ensures n == n / 0x1000 * 0x1000 + n / 0x40 % 0x40 * 0x40 + n % 0x40
    ensures n == n / 0x4_0000 * 0x4_0000 + n / 0x1000 % 0x40 * 0x1000 + n / 0x40 % 0x40 * 0x40 + n % 0x40
  {
    assert n / 0x1000 == n / 0x40 / 0x40;
    assert n / 0x4_0000 == n / 0x40 / 0x40 / 0x40;
  }

  lemma ScalarReadsBack(c: char)
    ensures var bytes := EncodeChar(c);
            && Width(bytes[0]) == |bytes| && Scalar(bytes, |bytes|) == c as int
            && forall k :: 1 <= k < |bytes| ==> Continues(bytes[k])
  {
    DigitsAddUp(c as int);
  }

  lemma FirstReadsBack(c: char, rest: seq<Byte>)
    ensures Width(EncodeChar(c)[0]) == |EncodeChar(c)|
    ensures First(EncodeChar(c) + rest) == Some(c)
  {
    var head := EncodeChar(c);
    var bytes := head + rest;
    ScalarReadsBack(c);
    assert forall k :: 0 <= k < |head| ==> bytes[k] == head[k];
    assert Scalar(bytes, |head|) == c as int;
  }

  /** A character that was cut off leaves nothing. */
  lemma {:induction false} CutCharacterVanishes(c: char, start: nat, end: nat)
    requires start <= end < |EncodeChar(c)|
    ensures DecodeIgnoring(EncodeChar(c)[start..end]) == ""
    decreases end - start
  {
    var bytes := EncodeChar(c)[start..end];
    if start < end {
      assert First(bytes) == None by {
        FirstReadsBack(c, []);
        assert EncodeChar(c) + [] == EncodeChar(c);
        if start > 0 {
          assert Continues(bytes[0]);
        }
      }
      assert bytes[1..] == EncodeChar(c)[start + 1..end];
      CutCharacterVanishes(c, start + 1, end);
    }
  }

  /** How many whole characters of `s` fit into `room` bytes. */
  function Fitting(s: string, room: nat): (n: nat)
    ensures n <= |s| && Size(s[..n]) <= room
    ensures n < |s| ==> Size(s[..n + 1]) > room
  {
    if s == "" || |EncodeChar(s[0])| > room then
      assert s != "" ==> s[..1][0] == s[0] && s[..1][1..] == "";
      0
    else
      var n := Fitting(s[1..], room - |EncodeChar(s[0])|);
      assert s[..n + 1][1..] == s[1..][..n];
      assert n + 1 < |s| ==> s[..n + 2][1..] == s[1..][..n + 1];
      n + 1
  }

  /** Cutting an encoded text anywhere and decoding it keeps exactly the whole characters before the cut. */
  lemma {:induction false} DecodeOfPrefix(s: string, room: nat)
    requires room <= Size(s)
    ensures DecodeIgnoring(Encode(s)[..room]) == s[..Fitting(s, room)]
  {
    if s != "" {
      var head, rest := EncodeChar(s[0]), Encode(s[1..]);
      var cut := Encode(s)[..room];
      if |head| > room {
        assert cut == head[0..room];
        CutCharacterVanishes(s[0], 0, room);
      } else {
        assert cut == head + rest[..room - |head|];
        FirstReadsBack(s[0], rest[..room - |head|]);
        assert cut[|head|..] == rest[..room - |head|];
        DecodeOfPrefix(s[1..], room - |head|);
        assert s[..Fitting(s, room)] == [s[0]] + s[1..][..Fitting(s, room) - 1];
      }
    }
  }

  /** Decoding undoes encoding. */
  lemma {:induction false} RoundTrip(s: string)
    ensures DecodeIgnoring(Encode(s)) == s
  {
    if s != "" {
      var head := EncodeChar(s[0]);
      FirstReadsBack(s[0], Encode(s[1..]));
      assert Encode(s)[|head|..] == Encode(s[1..]);
      RoundTrip(s[1..]);
    }
  }

  lemma {:induction false} EncodeOfAppend(a: string, b: string)
    ensures Encode(a + b) == Encode(a) + Encode(b)
  {
    if a == "" {
      assert a + b == b;
    } else {
      assert (a + b)[1..] == a[1..] + b;
      EncodeOfAppend(a[1..], b);
    }
  }

  lemma SizeOfAppend(a: string, b: string)
    ensures Size(a + b) == Size(a) + Size(b)
  {
    EncodeOfAppend(a, b);
  }

  lemma {:induction false} SizeBounds(s: string)
    ensures |s| <= Size(s) <= 4 * |s|
  {
    if s != "" {
      SizeBounds(s[1..]);
    }
  }
}
