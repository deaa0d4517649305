/** Percent coding of byte strings. Models include/details/urlencode.hpp.
    A byte is a character below 256; the source compares bytes as signed characters. */
module UrlCode {
  import opened Sequences

  ghost predicate Bytes(s: string) {
    forall k :: 0 <= k < |s| ==> s[k] as int < 256
  }

  predicate AlphaNumeric(c: char) {
    '0' <= c <= '9' || 'A' <= c <= 'Z' || 'a' <= c <= 'z'
  }

  predicate Mark(c: char) {
    c == '-' || c == '_' || c == '.' || c == '!' || c == '~' || c == '*' || c == '(' || c == ')' || c == '\''
  }

  function HexDigit(n: int): char
    requires 0 <= n < 16
  {
    if n > 9 then (n + 'A' as int - 10) as char else (n + '0' as int) as char
  }

  /** Bytes that are printed as they are. */
  predicate Plain(c: char) {
    AlphaNumeric(c) || Mark(c)
  }

  function EncodeByte(c: char): (r: string)
    requires c as int < 256
    ensures forall k :: 0 <= k < |r| ==> Plain(r[k]) || r[k] == '%'
  {
    if Plain(c) then [c]
    else ['%', HexDigit(c as int / 16), HexDigit(c as int % 16)]
  }

  function Encoded(s: string): (r: string)
    requires Bytes(s)
    ensures forall k :: 0 <= k < |r| ==> Plain(r[k]) || r[k] == '%'
  {
    if s == [] then [] else EncodeByte(s[0]) + Encoded(s[1..])
  }

  function Signed(c: char): (r: int)
    ensures -128 <= r < 128
  {
    var b := c as int % 256;
    if b < 128 then b else b - 256
  }

  /** Bit 5 cleared. */
  function ToUpperCase(n: int): int
    requires 0 <= n < 128
  {
    if (n / 32) % 2 == 1 then n - 32 else n
  }

  function DigitValue(c: char): int
  {
    if Signed(c) >= 'A' as int then ToUpperCase(Signed(c)) - 'A' as int + 10 else Signed(c) - '0' as int
  }

  function DecodedByte(first: char, second: char): char
  {
    ((DigitValue(first) * 16 + DigitValue(second)) % 256) as char
  }

  function Decoded(s: string): string
  {
    if s == [] then []
    else if s[0] == '+' then [' '] + Decoded(s[1..])
    else if s[0] == '%' && |s| > 2 then [DecodedByte(s[1], s[2])] + Decoded(s[3..])
    else [s[0]] + Decoded(s[1..])
  }

  lemma EncodeStep(result: string, s: string, i: nat)
    requires i < |s| && Bytes(s)
    ensures result + Encoded(s[i..]) == result + EncodeByte(s[i]) + Encoded(s[i + 1..])
  {
    assert s[i..][0] == s[i] && s[i..][1..] == s[i + 1..];
    Assoc(result, EncodeByte(s[i]), Encoded(s[i + 1..]));
  }

  method UrlEncode(range: string) returns (result: string)
    requires Bytes(range)
    ensures result == Encoded(range)
  {
    result := "";
    var i := 0;
    while i != |range|
      invariant 0 <= i <= |range| && result + Encoded(range[i..]) == Encoded(range)
    {
      EncodeStep(result, range, i);
      if Plain(range[i]) {
        result := result + [range[i]];
      } else {
        result := result + ['%', HexDigit(range[i] as int / 16), HexDigit(range[i] as int % 16)];
      }
      i := i + 1;
    }
  }

  /** What one turn of the decoder's loop pushes, and how far it goes. */
  function Next(s: string, i: nat): (r: (char, nat))
    requires i < |s|
    ensures i < r.1 <= |s|
  {
    if s[i] == '+' then (' ', i + 1)
    else if s[i] == '%' && |s| - i > 2 then (DecodedByte(s[i + 1], s[i + 2]), i + 3)
    else (s[i], i + 1)
  }

  lemma DecodeStep(result: string, s: string, i: nat)
    requires i < |s|
    ensures result + Decoded(s[i..]) == result + [Next(s, i).0] + Decoded(s[Next(s, i).1..])
  {
    assert s[i..][1..] == s[i + 1..];
    if |s| - i > 2 {
      assert s[i..][3..] == s[i + 3..];
    }
  }

  method UrlDecode(range: string) returns (result: string)
    ensures result == Decoded(range)
  {
    result := "";
    var i := 0;
    while i != |range|
      invariant 0 <= i <= |range| && result + Decoded(range[i..]) == Decoded(range)
    {
      DecodeStep(result, range, i);
      ghost var next := Next(range, i);
      if range[i] == '+' {
        result := result + [' '];
      } else if range[i] == '%' {
        if |range| - i > 2 {
          result := result + [DecodedByte(range[i + 1], range[i + 2])];
          i := i + 2;
        } else {
          result := result + ['%'];
        }
      } else {
        result := result + [range[i]];
      }
      i := i + 1;
      assert i == next.1;
    }
  }

  /** The value of a hexadecimal digit (section 2.1 of RFC 3986), in either case. */
  predicate IsHex(c: char, value: int) {
    0 <= value < 16 &&
    if value < 10 then c as int == '0' as int + value
    else c as int == 'A' as int + value - 10 || c as int == 'a' as int + value - 10
  }

  /** A percent-encoded octet stands for sixteen times its first digit plus its second. */
  lemma PercentOctet(first: char, high: int, second: char, low: int, rest: string)
    requires IsHex(first, high) && IsHex(second, low)
    ensures Decoded(['%', first, second] + rest) == [(16 * high + low) as char] + Decoded(rest)
  {
    OctetValue(first, high, second, low);
    var s := ['%', first, second] + rest;
    assert s[0] == '%' && s[1] == first && s[2] == second && s[3..] == rest;
  }

  lemma OctetValue(first: char, high: int, second: char, low: int)
    requires IsHex(first, high) && IsHex(second, low)
    ensures DecodedByte(first, second) == (16 * high + low) as char
  {
    HexValue(first, high);
    HexValue(second, low);
  }

  lemma HexValue(c: char, value: int)
    requires IsHex(c, value)
    ensures c as int < 128 && DigitValue(c) == value
  {
  }

  /** A blank written as a plus sign. */
  lemma PlusIsBlank(rest: string)
    ensures Decoded(['+'] + rest) == [' '] + Decoded(rest)
  {
    Tail('+', rest);
  }

  /** Any other character stands for itself, and so does a percent sign without two more after it. */
  lemma OthersStay(c: char, rest: string)
    requires c != '+' && (c == '%' ==> |rest| < 2)
    ensures Decoded([c] + rest) == [c] + Decoded(rest)
  {
    Tail(c, rest);
  }

  /** Letters, digits and marks are left as they are, and nothing else is. */
  lemma {:induction false} PlainStays(s: string)
    requires Bytes(s)
    ensures |Encoded(s)| >= |s|
    ensures Encoded(s) == s <==> forall k :: 0 <= k < |s| ==> Plain(s[k])
  {
    if s != [] {
      PlainStays(s[1..]);
      assert s == [s[0]] + s[1..];
      if Plain(s[0]) {
        assert Encoded(s)[1..] == Encoded(s[1..]);
      }
    }
  }

  lemma DecodeEncodedByte(c: char, rest: string)
    requires c as int < 256
    ensures Decoded(EncodeByte(c) + rest) == [c] + Decoded(rest)
  {
    if Plain(c) {
      assert ([c] + rest)[1..] == rest;
    } else {
      var high, low := c as int / 16, c as int % 16;
      PercentOctet(HexDigit(high), high, HexDigit(low), low, rest);
    }
  }

  /** Decoding undoes encoding, whatever follows. */
  lemma {:induction false} RoundTrip(s: string, rest: string)
    requires Bytes(s)
    ensures Decoded(Encoded(s) + rest) == s + Decoded(rest)
  {
    if s == [] {
      assert Encoded(s) + rest == rest;
    } else {
      var head, tail, code := s[0], s[1..], Encoded(s[1..]);
      RoundTrip(tail, rest);
      DecodeEncodedByte(head, code + rest);
      Assoc(EncodeByte(head), code, rest);
      Assoc([head], tail, Decoded(rest));
      assert Encoded(s) + rest == EncodeByte(head) + (code + rest);
      assert s == [head] + tail;
    }
  }

  lemma DecodeEncoded(s: string)
    requires Bytes(s)
    ensures Decoded(Encoded(s)) == s
  {
    RoundTrip(s, []);
    assert Encoded(s) + [] == Encoded(s);
  }

  /** Different texts have different codes. */
  lemma Injective(a: string, b: string)
    requires Bytes(a) && Bytes(b) && Encoded(a) == Encoded(b)
    ensures a == b
  {
    DecodeEncoded(a);
    DecodeEncoded(b);
  }
}
