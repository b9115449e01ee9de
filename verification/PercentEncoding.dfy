/**
 * Percent-encoding of a key part: characters of the unreserved set stay, every
 * other one becomes the octets of its UTF-8 form, each as `%` and two digits.
 */
module PercentEncoding {
  import opened DurableObjectKeys
  import opened StorageKeys

  /** The characters the encoder leaves alone. */
  predicate Unreserved(c: char) {
    || 'A' <= c <= 'Z' || 'a' <= c <= 'z' || '0' <= c <= '9'
    || c in ['-', '_', '.', '!', '~', '*', '\'', '(', ')']
  }

  /** The octets of a code point: a lead octet that tells how many follow. */
  function Utf8(n: nat): (octets: seq<nat>)
    requires n < 0x110000
    ensures 1 <= |octets| <= 4 && forall i :: 0 <= i < |octets| ==> octets[i] < 256
  {
    if n < 0x80 then [n]
    else if n < 0x800 then [0xC0 + n / 64, 0x80 + n % 64]
    else if n < 0x10000 then [0xE0 + n / 64 / 64, 0x80 + n / 64 % 64, 0x80 + n % 64]
    else [0xF0 + n / 64 / 64 / 64, 0x80 + n / 64 / 64 % 64, 0x80 + n / 64 % 64, 0x80 + n % 64]
  }

  function Hex(d: nat): char
    requires d < 16
  {
    ['0', '1', '2', '3', '4', '5', '6', '7', '8', '9', 'A', 'B', 'C', 'D', 'E', 'F'][d]
  }

  function Octet(b: nat): (s: string)
    requires b < 256
    ensures |s| == 3
  {
    ['%', Hex(b / 16), Hex(b % 16)]
  }

  function Octets(bs: seq<nat>): string
    requires forall i :: 0 <= i < |bs| ==> bs[i] < 256
  {
    if bs == [] then [] else Octet(bs[0]) + Octets(bs[1..])
  }

  function EncodeChar(c: char): string {
    if Unreserved(c) then [c] else Octets(Utf8(c as int))
  }

  function Encode(s: string): string {
    if s == [] then [] else EncodeChar(s[0]) + Encode(s[1..])
  }

  // --- What is encoded can be told from the encoding ---

  /** The lead octet alone tells how many octets there are. */
  lemma LeadTellsLength(n: nat, m: nat)
    requires n < 0x110000 && m < 0x110000 && Utf8(n)[0] == Utf8(m)[0]
    ensures |Utf8(n)| == |Utf8(m)|
  {}

  lemma Utf8IsInjective(n: nat, m: nat)
    requires n < 0x110000 && m < 0x110000 && Utf8(n) == Utf8(m)
    ensures n == m
  {
    var a, b := Utf8(n), Utf8(m);
    assert |a| == |b|;
    if |a| == 2 {
      assert a[0] == b[0] && a[1] == b[1];
    } else if |a| == 3 {
      assert a[0] == b[0] && a[1] == b[1] && a[2] == b[2];
    } else if |a| == 4 {
      assert a[0] == b[0] && a[1] == b[1] && a[2] == b[2] && a[3] == b[3];
    }
  }

  lemma OctetIsInjective(a: nat, b: nat)
    requires a < 256 && b < 256 && Octet(a) == Octet(b)
    ensures a == b
  {
    assert Octet(a)[1] == Octet(b)[1] && Octet(a)[2] == Octet(b)[2];
    HexIsInjective(a / 16, b / 16);
    HexIsInjective(a % 16, b % 16);
  }

  lemma HexIsInjective(a: nat, b: nat)
    requires a < 16 && b < 16 && Hex(a) == Hex(b)
    ensures a == b
  {}

  /** Octets are read off one by one, whatever follows them. */
  lemma FirstOctet(a: seq<nat>, b: seq<nat>, x: string, y: string)
    requires a != [] && b != []
    requires forall i :: 0 <= i < |a| ==> a[i] < 256
    requires forall i :: 0 <= i < |b| ==> b[i] < 256
    requires Octets(a) + x == Octets(b) + y
    ensures a[0] == b[0] && Octets(a[1..]) + x == Octets(b[1..]) + y
  {
    hide Octet, Octets;
    OctetsLead(a, x);
    OctetsLead(b, y);
    SameLengthSplits(Octet(a[0]), Octet(b[0]), Octets(a[1..]) + x, Octets(b[1..]) + y);
    OctetIsInjective(a[0], b[0]);
  }

  lemma OctetsLead(a: seq<nat>, x: string)
    requires a != [] && forall i :: 0 <= i < |a| ==> a[i] < 256
    ensures Octets(a) + x == Octet(a[0]) + (Octets(a[1..]) + x)
  {
    hide Octet;
  }

  lemma SameLengthSplits(p: string, q: string, x: string, y: string)
    requires |p| == |q| && p + x == q + y
    ensures p == q && x == y
  {
    assert p == (p + x)[..|p|] && q == (q + y)[..|q|];
    assert x == (p + x)[|p|..] && y == (q + y)[|q|..];
  }

  lemma {:induction false} SameOctets(a: seq<nat>, b: seq<nat>, x: string, y: string)
    requires |a| == |b|
    requires forall i :: 0 <= i < |a| ==> a[i] < 256
    requires forall i :: 0 <= i < |b| ==> b[i] < 256
    requires Octets(a) + x == Octets(b) + y
    ensures a == b && x == y
  {
    if a == [] {
      assert x == Octets(a) + x && y == Octets(b) + y;
    } else {
      FirstOctet(a, b, x, y);
      SameOctets(a[1..], b[1..], x, y);
      assert a == [a[0]] + a[1..] && b == [b[0]] + b[1..];
    }
  }

  /** The first character of an encoding says which kind of character was encoded. */
  lemma EncodingStarts(c: char)
    ensures EncodeChar(c) != []
    ensures EncodeChar(c)[0] == if Unreserved(c) then c else '%'
  {
    if !Unreserved(c) {
      assert Octets(Utf8(c as int))[0] == Octet(Utf8(c as int)[0])[0];
    }
  }

  /** No character's encoding starts another's. */
  lemma FirstCharacter(c: char, d: char, x: string, y: string)
    requires EncodeChar(c) + x == EncodeChar(d) + y
    ensures c == d && x == y
  {
    EncodingStarts(c);
    EncodingStarts(d);
    assert EncodeChar(c)[0] == (EncodeChar(c) + x)[0] == (EncodeChar(d) + y)[0] == EncodeChar(d)[0];
    if Unreserved(c) {
      assert x == (EncodeChar(c) + x)[1..] == (EncodeChar(d) + y)[1..] == y;
    } else {
      FirstOctet(Utf8(c as int), Utf8(d as int), x, y);
      LeadTellsLength(c as int, d as int);
      SameOctets(Utf8(c as int), Utf8(d as int), x, y);
      Utf8IsInjective(c as int, d as int);
    }
  }

  lemma NothingEncodesNothing(s: string)
    ensures Encode(s) == [] <==> s == []
  {
    if s != [] {
      EncodingStarts(s[0]);
    }
  }

  lemma {:induction false} EncodeIsInjective(a: string, b: string)
    requires Encode(a) == Encode(b)
    ensures a == b
    decreases |a|
  {
    hide EncodeChar, Unreserved;
    NothingEncodesNothing(a);
    NothingEncodesNothing(b);
    if a != [] && b != [] {
      FirstCharacter(a[0], b[0], Encode(a[1..]), Encode(b[1..]));
      EncodeIsInjective(a[1..], b[1..]);
      assert a == [a[0]] + a[1..] && b == [b[0]] + b[1..];
    }
  }

  lemma {:induction false} OctetsHaveNoColon(bs: seq<nat>)
    requires forall i :: 0 <= i < |bs| ==> bs[i] < 256
    ensures ':' !in Octets(bs)
  {
    if bs != [] {
      OctetsHaveNoColon(bs[1..]);
    }
  }

  lemma {:induction false} EncodeHasNoColon(s: string)
    ensures ':' !in Encode(s)
  {
    if s != [] {
      if !Unreserved(s[0]) {
        OctetsHaveNoColon(Utf8(s[0] as int));
      }
      EncodeHasNoColon(s[1..]);
    }
  }

  /** Percent-encoding is all the keys need of their encoder. */
  lemma EncodeIsAnEncoder()
    ensures EncoderOk(Encode)
  {
    forall a, b | Encode(a) == Encode(b) ensures a == b {
      EncodeIsInjective(a, b);
    }
    forall a ensures ':' !in Encode(a) {
      EncodeHasNoColon(a);
    }
  }

  /** A segment number is its own encoding. */
  lemma DecimalStays(n: nat)
    ensures Encode(Decimal(n)) == Decimal(n)
  {
    DecimalIsDigits(n);
    DigitsStay(Decimal(n));
  }

  predicate Digits(s: string) {
    forall i :: 0 <= i < |s| ==> '0' <= s[i] <= '9'
  }

  lemma {:induction false} DecimalIsDigits(n: nat)
    ensures Digits(Decimal(n))
  {
    if n >= 10 {
      DecimalIsDigits(n / 10);
    }
  }

  lemma {:induction false} DigitsStay(s: string)
    requires Digits(s)
    ensures Encode(s) == s
    decreases |s|
  {
    if s != [] {
      DigitStays(s[0]);
      hide EncodeChar, Unreserved;
      DigitsStay(s[1..]);
      assert Encode(s) == [s[0]] + s[1..];
    }
  }

  lemma DigitStays(c: char)
    requires '0' <= c <= '9'
    ensures EncodeChar(c) == [c]
  {}
}
