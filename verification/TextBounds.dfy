/** UTF-8 (RFC 3629, section 3) and the bounding of text by characters and bytes. */
module TextBounds {
  import opened Wrappers

  type Byte = x: int | 0 <= x < 256

  // ---------------------------------------------------------------- encoding

  predicate Scalar(v: int) {
    0 <= v <= 0xD7FF || 0xE000 <= v <= 0x10FFFF
  }

  /** The octets of one character: a lead octet that tells their number, then six bits in each. */
  function EncodeChar(c: char): (r: seq<Byte>)
    ensures 1 <= |r| <= 4
  {
    var v := c as int;
    if v <= 0x7F then [v]
    else if v <= 0x7FF then [0xC0 + v / 64, 0x80 + v % 64]
    else if v <= 0xFFFF then [0xE0 + v / 4096, 0x80 + v / 64 % 64, 0x80 + v % 64]
    else [0xF0 + v / 262144, 0x80 + v / 4096 % 64, 0x80 + v / 64 % 64, 0x80 + v % 64]
  }

  function Encode(s: string): seq<Byte> {
    if s == "" then [] else EncodeChar(s[0]) + Encode(s[1..])
  }

  // ---------------------------------------------------------------- decoding

  predicate Tail(b: Byte) {
    0x80 <= b <= 0xBF
  }

  /** A value in the range its number of octets is for; longer forms of it are not well formed. */
  function InRange(v: int, low: int, high: int): Option<char> {
    if low <= v <= high && Scalar(v) then Some(v as char) else None
  }

  function Value2(a: int, b: int): int { (a - 0xC0) * 64 + (b - 0x80) }

  function Value3(a: int, b: int, c: int): int { (a - 0xE0) * 4096 + (b - 0x80) * 64 + (c - 0x80) }

  function Value4(a: int, b: int, c: int, d: int): int {
    (a - 0xF0) * 262144 + (b - 0x80) * 4096 + (c - 0x80) * 64 + (d - 0x80)
  }

  /** How many octets the lead announces; none for an octet that starts no character. */
  function Announced(lead: Byte): nat {
    if lead <= 0x7F then 1
    else if 0xC0 <= lead <= 0xDF then 2
    else if 0xE0 <= lead <= 0xEF then 3
    else if 0xF0 <= lead <= 0xF7 then 4
    else 0
  }

  /** The character at the start of the octets, when they start with a well-formed one. */
  function DecodeChar(b: seq<Byte>): Option<char>
    requires b != []
  {
    var n := Announced(b[0]);
    if n == 0 || |b| < n || exists i | 1 <= i < n :: !Tail(b[i]) then None
    else if n == 1 then InRange(b[0], 0, 0x7F)
    else if n == 2 then InRange(Value2(b[0], b[1]), 0x80, 0x7FF)
    else if n == 3 then InRange(Value3(b[0], b[1], b[2]), 0x800, 0xFFFF)
    else InRange(Value4(b[0], b[1], b[2], b[3]), 0x10000, 0x10FFFF)
  }

  /** Decoding that leaves out what is not well formed, octet by octet. */
  function DecodeIgnoring(b: seq<Byte>): string {
    if b == [] then ""
    else
      var c := DecodeChar(b);
      if c.Some? then [c.value] + DecodeIgnoring(b[Announced(b[0])..]) else DecodeIgnoring(b[1..])
  }

  lemma EncodedLead(c: char)
    ensures Announced(EncodeChar(c)[0]) == |EncodeChar(c)|
    ensures forall i | 1 <= i < |EncodeChar(c)| :: Tail(EncodeChar(c)[i])
  {
  }

  lemma SplitValue(v: nat)
    ensures v == v / 64 * 64 + v % 64
    ensures v == v / 4096 * 4096 + v / 64 % 64 * 64 + v % 64
    ensures v == v / 262144 * 262144 + v / 4096 % 64 * 4096 + v / 64 % 64 * 64 + v % 64
  {
    assert v / 64 / 64 == v / 4096;
    assert v / 4096 / 64 == v / 262144;
  }

  lemma DecodeEncoded(c: char)
    ensures DecodeChar(EncodeChar(c)) == Some(c)
  {
    EncodedLead(c);
    SplitValue(c as int);
  }

  lemma DecodeCharPrefix(b: seq<Byte>, rest: seq<Byte>)
    requires b != [] && Announced(b[0]) == |b|
    ensures DecodeChar(b + rest) == DecodeChar(b)
  {
  }

  /** Decoding takes off one encoded character at a time. */
  lemma DecodeStep(c: char, rest: seq<Byte>)
    ensures DecodeIgnoring(EncodeChar(c) + rest) == [c] + DecodeIgnoring(rest)
  {
    EncodedLead(c);
    DecodeEncoded(c);
    DecodeCharPrefix(EncodeChar(c), rest);
    assert (EncodeChar(c) + rest)[|EncodeChar(c)|..] == rest;
  }

  lemma {:induction false} OnlyTails(b: seq<Byte>)
    requires forall i | 0 <= i < |b| :: Tail(b[i])
    ensures DecodeIgnoring(b) == ""
  {
    if b != [] {
      OnlyTails(b[1..]);
    }
  }

  /** A character that is cut short decodes to nothing. */
  lemma CutCharacter(c: char, n: nat)
    requires n < |EncodeChar(c)|
    ensures DecodeIgnoring(EncodeChar(c)[..n]) == ""
  {
    EncodedLead(c);
    if n > 0 {
      var b := EncodeChar(c)[..n];
      assert DecodeChar(b).None?;
      OnlyTails(b[1..]);
    }
  }

  /** The most characters from the front that fit in the octets. */
  function Fitting(s: string, bytes: int): (n: nat)
    ensures n <= |s|
  {
    if s == "" || |EncodeChar(s[0])| > bytes then 0 else 1 + Fitting(s[1..], bytes - |EncodeChar(s[0])|)
  }

  /** Cutting the octets of a text and decoding gives its longest prefix that fits. */
  lemma {:induction false} CutAndDecode(s: string, n: nat)
    requires n <= |Encode(s)|
    ensures DecodeIgnoring(Encode(s)[..n]) == s[..Fitting(s, n)]
  {
    if s != "" {
      var first, rest := EncodeChar(s[0]), Encode(s[1..]);
      if n < |first| {
        assert Encode(s)[..n] == first[..n];
        CutCharacter(s[0], n);
      } else {
        var m := n - |first|;
        assert Encode(s)[..n] == first + rest[..m];
        DecodeStep(s[0], rest[..m]);
        CutAndDecode(s[1..], m);
        assert s[..Fitting(s, n)] == [s[0]] + s[1..][..Fitting(s[1..], m)];
      }
    }
  }

  lemma {:induction false} FittingIsLongest(s: string, n: nat)
    ensures |Encode(s[..Fitting(s, n)])| <= n
    ensures forall k | 0 <= k <= |s| && |Encode(s[..k])| <= n :: k <= Fitting(s, n)
  {
    if s != "" {
      var m := |EncodeChar(s[0])|;
      forall k | 1 <= k <= |s| ensures |Encode(s[..k])| == m + |Encode(s[1..][..k - 1])| {
        assert s[..k][1..] == s[1..][..k - 1];
      }
      if m <= n {
        FittingIsLongest(s[1..], n - m);
        var j := Fitting(s[1..], n - m);
        assert |Encode(s[..j + 1])| == m + |Encode(s[1..][..j])|;
        forall k | 0 <= k <= |s| && |Encode(s[..k])| <= n ensures k <= j + 1 {
          assert k > 0 ==> |Encode(s[1..][..k - 1])| <= n - m;
        }
      }
    }
  }

  /** Encoding loses nothing. */
  lemma {:induction false} RoundTrip(s: string)
    ensures DecodeIgnoring(Encode(s)) == s
  {
    if s != "" {
      DecodeStep(s[0], Encode(s[1..]));
      RoundTrip(s[1..]);
    }
  }

  /** Only the one shortest form of a character is accepted. */
  lemma DecodedIsShortest(b: seq<Byte>)
    requires b != [] && DecodeChar(b).Some?
    ensures EncodeChar(DecodeChar(b).value) == b[..Announced(b[0])]
  {
    var n, v := Announced(b[0]), DecodeChar(b).value as int;
    if n == 2 {
      Digits(b[0] - 0xC0, b[1] - 0x80, v);
    } else if n == 3 {
      ThreeDigits(b[0] as int - 0xE0, b[1] - 0x80, b[2] - 0x80, v);
    } else if n == 4 {
      FourDigits(b[0] as int - 0xF0, b[1] - 0x80, b[2] - 0x80, b[3] - 0x80, v);
    }
  }

  lemma ThreeDigits(x: int, y: int, z: int, v: int)
    requires 0 <= y < 64 && 0 <= z < 64 && v == x * 4096 + y * 64 + z
    ensures v / 4096 == x && v / 64 % 64 == y && v % 64 == z
  {
    Digits(x * 64 + y, z, v);
    Digits(x, y, v / 64);
    assert v / 64 / 64 == v / 4096;
  }

  lemma FourDigits(w: int, x: int, y: int, z: int, v: int)
    requires 0 <= x < 64 && 0 <= y < 64 && 0 <= z < 64 && v == w * 262144 + x * 4096 + y * 64 + z
    ensures v / 262144 == w && v / 4096 % 64 == x && v / 64 % 64 == y && v % 64 == z
  {
    ThreeDigits(w * 64 + x, y, z, v);
    Digits(w, x, v / 4096);
    assert v / 4096 / 64 == v / 262144;
  }

  lemma Digits(high: int, low: int, v: int)
    requires 0 <= low < 64
    ensures v == high * 64 + low <==> v / 64 == high && v % 64 == low
  {
  }

  // ---------------------------------------------------------------- bounding

  predicate Fits(s: string, maxBytes: nat, maxCharacters: nat) {
    |s| <= maxCharacters && |Encode(s)| <= maxBytes
  }

  /** The text within both limits, and whether anything was cut. */
  function BoundText(text: string, maxBytes: nat, maxCharacters: nat): (string, bool) {
    var head := if |text| > maxCharacters then text[..maxCharacters] else text;
    var encoded := Encode(head);
    var bounded := if |encoded| > maxBytes then DecodeIgnoring(encoded[..maxBytes]) else head;
    (bounded, bounded != text)
  }

  /** The bounded text is the longest prefix within both limits, and is flagged exactly when the
      text itself exceeds one of them. */
  lemma BoundTextIsLongestPrefix(text: string, maxBytes: nat, maxCharacters: nat)
    ensures var (bounded, cut) := BoundText(text, maxBytes, maxCharacters);
            && bounded <= text && Fits(bounded, maxBytes, maxCharacters)
            && (forall k | 0 <= k <= |text| && Fits(text[..k], maxBytes, maxCharacters) :: k <= |bounded|)
            && (cut <==> !Fits(text, maxBytes, maxCharacters))
  {
    var (bounded, cut) := BoundText(text, maxBytes, maxCharacters);
    var head := if |text| > maxCharacters then text[..maxCharacters] else text;
    if |Encode(head)| > maxBytes {
      CutAndDecode(head, maxBytes);
      FittingIsLongest(head, maxBytes);
      forall k | 0 <= k <= |text| && Fits(text[..k], maxBytes, maxCharacters) ensures k <= |bounded| {
        assert head[..k] == text[..k];
      }
    } else {
      assert |text| <= maxCharacters ==> text[..|text|] == text;
    }
    assert text[..|text|] == text;
  }
}
