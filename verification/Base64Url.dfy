/**
  The unpadded URL-safe base64 of the grants (section 5 of RFC 4648).  The decoder restores the
  padding by length and then reads as Python's lenient decoder does: characters outside the
  alphabet are skipped, and a complete padding ends the text.
 */
module Base64Url {
  import opened Prelude

  type Byte = n: nat | n < 256

  datatype DecodeError = NotAscii | BadLength

  // ---------------------------------------------------------------- alphabet

  function Letter(v: nat): (c: char)
    requires v < 64
    ensures c != '.' && c != '='
  {
    if v < 26 then ('A' as int + v) as char
    else if v < 52 then ('a' as int + (v - 26)) as char
    else if v < 62 then ('0' as int + (v - 52)) as char
    else if v == 62 then '-' else '_'
  }

  /** The decoder accepts the letters of both base64 alphabets. */
  function Value(c: char): (v: Option<nat>)
    ensures v.Some? ==> v.value < 64
  {
    if 'A' <= c <= 'Z' then Some(c as int - 'A' as int)
    else if 'a' <= c <= 'z' then Some(c as int - 'a' as int + 26)
    else if '0' <= c <= '9' then Some(c as int - '0' as int + 52)
    else if c == '-' || c == '+' then Some(62)
    else if c == '_' || c == '/' then Some(63)
    else None
  }

  lemma ValueOfLetter(v: nat)
    requires v < 64
    ensures Value(Letter(v)) == Some(v)
  {
  }

  // ---------------------------------------------------------------- encoding

  /** The padded text: four characters for every three bytes. */
  function Padded(b: seq<Byte>): (s: string)
    ensures |s| % 4 == 0 && |s| >= |b|
    decreases |b|
  {
    if |b| == 0 then ""
    else if |b| == 1 then [Letter(b[0] / 4), Letter(b[0] % 4 * 16), '=', '=']
    else if |b| == 2 then
      [Letter(b[0] / 4), Letter(b[0] % 4 * 16 + b[1] / 16), Letter(b[1] % 16 * 4), '=']
    else
      [Letter(b[0] / 4), Letter(b[0] % 4 * 16 + b[1] / 16), Letter(b[1] % 16 * 4 + b[2] / 64), Letter(b[2] % 64)]
      + Padded(b[3..])
  }

  function StripPads(s: string): string {
    if s != "" && s[|s| - 1] == '=' then StripPads(s[..|s| - 1]) else s
  }

  function Encode(b: seq<Byte>): string {
    StripPads(Padded(b))
  }

  function Pads(n: nat): (s: string)
    ensures |s| == n && forall k :: 0 <= k < n ==> s[k] == '='
  {
    seq(n, _ => '=')
  }

  // ---------------------------------------------------------------- decoding

  /** What the bits left over from the characters before contribute to the next byte. */
  function NextByte(quad: nat, left: nat, v: nat): Byte
    requires 0 < quad < 4 && v < 64
    requires quad == 1 ==> left < 64
    requires quad == 2 ==> left < 16
    requires quad == 3 ==> left < 4
  {
    if quad == 1 then left * 4 + v / 16
    else if quad == 2 then left * 16 + v / 4
    else left * 64 + v
  }

  predicate Leftover(quad: nat, left: nat) {
    quad < 4 && left < (if quad == 1 then 64 else if quad == 2 then 16 else if quad == 3 then 4 else 1)
  }

  /** The reader: `quad` characters of a group are read, `left` is what they leave over. */
  function Scan(s: string, quad: nat, left: nat, pads: nat, read: seq<Byte>): Result<seq<Byte>, DecodeError>
    requires Leftover(quad, left)
    decreases |s|
  {
    if s == "" then (if quad == 0 then Ok(read) else Err(BadLength))
    else if s[0] == '=' then
      if quad >= 2 && quad + pads + 1 >= 4 then Ok(read)
      else Scan(s[1..], quad, left, if quad >= 2 then pads + 1 else pads, read)
    else
      var value := Value(s[0]);
      if value == None then Scan(s[1..], quad, left, pads, read)
      else
        var v := value.value;
        match quad
        case 0 => Scan(s[1..], 1, v, 0, read)
        case 1 => Scan(s[1..], 2, v % 16, 0, read + [NextByte(1, left, v)])
        case 2 => Scan(s[1..], 3, v % 4, 0, read + [NextByte(2, left, v)])
        case _ => Scan(s[1..], 0, 0, 0, read + [NextByte(3, left, v)])
  }

  predicate Ascii(s: string) {
    forall k :: 0 <= k < |s| ==> s[k] as int < 128
  }

  function Decode(s: string): Result<seq<Byte>, DecodeError> {
    if !Ascii(s) then Err(NotAscii)
    else Scan(s + Pads((4 - |s| % 4) % 4), 0, 0, 0, [])
  }

  // ---------------------------------------------------------------- round trip

  lemma ScanLetter(v: nat, rest: string, quad: nat, left: nat, read: seq<Byte>)
    requires v < 64 && Leftover(quad, left)
    ensures Scan([Letter(v)] + rest, quad, left, 0, read) ==
            match quad
            case 0 => Scan(rest, 1, v, 0, read)
            case 1 => Scan(rest, 2, v % 16, 0, read + [NextByte(1, left, v)])
            case 2 => Scan(rest, 3, v % 4, 0, read + [NextByte(2, left, v)])
            case _ => Scan(rest, 0, 0, 0, read + [NextByte(3, left, v)])
  {
    ValueOfLetter(v);
    assert ([Letter(v)] + rest)[1..] == rest;
  }

  lemma ScanTwo(b: Byte, x: nat, rest: string, read: seq<Byte>)
    requires x < 16
    ensures Scan([Letter(b / 4), Letter(b % 4 * 16 + x)] + rest, 0, 0, 0, read) == Scan(rest, 2, x, 0, read + [b])
  {
    var second := [Letter(b % 4 * 16 + x)] + rest;
    assert [Letter(b / 4), Letter(b % 4 * 16 + x)] + rest == [Letter(b / 4)] + second;
    ScanLetter(b / 4, second, 0, 0, read);
    ScanLetter(b % 4 * 16 + x, rest, 1, b / 4, read);
  }

  lemma ScanThree(a: Byte, b: Byte, x: nat, rest: string, read: seq<Byte>)
    requires x < 4
    ensures Scan([Letter(a / 4), Letter(a % 4 * 16 + b / 16), Letter(b % 16 * 4 + x)] + rest, 0, 0, 0, read)
            == Scan(rest, 3, x, 0, read + [a, b])
  {
    var third := [Letter(b % 16 * 4 + x)] + rest;
    assert [Letter(a / 4), Letter(a % 4 * 16 + b / 16), Letter(b % 16 * 4 + x)] + rest
           == [Letter(a / 4), Letter(a % 4 * 16 + b / 16)] + third;
    ScanTwo(a, b / 16, third, read);
    ScanLetter(b % 16 * 4 + x, rest, 2, b / 16, read + [a]);
    assert read + [a] + [b] == read + [a, b];
  }

  lemma ScanFour(a: Byte, b: Byte, c: Byte, rest: string, read: seq<Byte>)
    ensures Scan([Letter(a / 4), Letter(a % 4 * 16 + b / 16), Letter(b % 16 * 4 + c / 64), Letter(c % 64)] + rest,
                 0, 0, 0, read)
            == Scan(rest, 0, 0, 0, read + [a, b, c])
  {
    var fourth := [Letter(c % 64)] + rest;
    assert [Letter(a / 4), Letter(a % 4 * 16 + b / 16), Letter(b % 16 * 4 + c / 64), Letter(c % 64)] + rest
           == [Letter(a / 4), Letter(a % 4 * 16 + b / 16), Letter(b % 16 * 4 + c / 64)] + fourth;
    ScanThree(a, b, c / 64, fourth, read);
    ScanLetter(c % 64, rest, 3, c / 64, read + [a, b]);
    assert read + [a, b] + [c] == read + [a, b, c];
  }

  lemma ScanTail(b: seq<Byte>, read: seq<Byte>)
    requires 1 <= |b| <= 2
    ensures Scan(Padded(b), 0, 0, 0, read) == Ok(read + b)
  {
    if |b| == 1 {
      ScanTwo(b[0], 0, "==", read);
      assert Padded(b) == [Letter(b[0] / 4), Letter(b[0] % 4 * 16)] + "==";
      assert "=="[1..] == "=";
      assert b == [b[0]];
    } else {
      ScanThree(b[0], b[1], 0, "=", read);
      assert Padded(b) == [Letter(b[0] / 4), Letter(b[0] % 4 * 16 + b[1] / 16), Letter(b[1] % 16 * 4)] + "=";
      assert b == [b[0], b[1]];
    }
  }

  /** Reading back a padded text appends the bytes it was made from. */
  lemma {:induction false} ScanPadded(b: seq<Byte>, read: seq<Byte>)
    ensures Scan(Padded(b), 0, 0, 0, read) == Ok(read + b)
    decreases |b|
  {
    if |b| == 0 {
      assert read + b == read;
    } else if |b| <= 2 {
      ScanTail(b, read);
    } else {
      var next := read + [b[0], b[1], b[2]];
      ScanFour(b[0], b[1], b[2], Padded(b[3..]), read);
      ScanPadded(b[3..], next);
      assert read + b == next + b[3..];
    }
  }

  /** The number of padding characters for `n` bytes. */
  function PadCount(n: nat): (p: nat)
    ensures p <= 2 && (n == 0 ==> p == 0)
    ensures n >= 3 ==> p == PadCount(n - 3)
  {
    if n % 3 == 0 then 0 else 3 - n % 3
  }

  /** The length without the padding tells how much is missing. */
  lemma PadsByLength(length: nat, pads: nat)
    requires length % 4 == 0 && pads <= 2 && pads <= length
    ensures (4 - (length - pads) % 4) % 4 == pads
  {
  }

  /** Letters, then at most two characters of padding. */
  predicate Shaped(s: string, n: nat) {
    && n <= |s|
    && (forall k :: 0 <= k < n ==> s[k] != '=' && s[k] != '.' && s[k] as int < 128)
    && (forall k :: n <= k < |s| ==> s[k] == '=')
  }

  lemma LetterIsAscii(v: nat)
    requires v < 64
    ensures Letter(v) as int < 128
  {
  }

  lemma {:induction false} PaddedShape(b: seq<Byte>)
    ensures Shaped(Padded(b), |Padded(b)| - PadCount(|b|))
    decreases |b|
  {
    if |b| >= 1 {
      LetterIsAscii(b[0] / 4);
      LetterIsAscii(b[0] % 4 * 16);
    }
    if |b| >= 2 {
      LetterIsAscii(b[0] % 4 * 16 + b[1] / 16);
      LetterIsAscii(b[1] % 16 * 4);
    }
    if |b| >= 3 {
      LetterIsAscii(b[1] % 16 * 4 + b[2] / 64);
      LetterIsAscii(b[2] % 64);
      PaddedShape(b[3..]);
      ShapedConcat([Letter(b[0] / 4), Letter(b[0] % 4 * 16 + b[1] / 16),
                    Letter(b[1] % 16 * 4 + b[2] / 64), Letter(b[2] % 64)],
                   Padded(b[3..]), |Padded(b[3..])| - PadCount(|b| - 3));
    }
  }

  lemma ShapedConcat(a: string, s: string, n: nat)
    requires Shaped(a, |a|) && Shaped(s, n)
    ensures Shaped(a + s, |a| + n)
  {
  }

  lemma {:induction false} StripAll(s: string, n: nat)
    requires n <= |s| && (n > 0 ==> s[n - 1] != '=')
    requires forall k :: n <= k < |s| ==> s[k] == '='
    ensures StripPads(s) == s[..n]
    decreases |s|
  {
    if n < |s| {
      StripAll(s[..|s| - 1], n);
      assert s[..|s| - 1][..n] == s[..n];
    } else {
      assert s[..n] == s;
    }
  }

  lemma LettersOnly(s: string, n: nat)
    requires Shaped(s, n)
    ensures var e := s[..n]; '.' !in e && '=' !in e && Ascii(e)
    ensures s == s[..n] + Pads(|s| - n)
  {
    var pads := Pads(|s| - n);
    assert s[n..] == pads;
  }

  /** The encoded text has no separator, is unpadded, and its length tells the padding. */
  lemma EncodeShape(b: seq<Byte>)
    ensures var e := Encode(b);
            && '.' !in e && '=' !in e && Ascii(e)
            && e + Pads((4 - |e| % 4) % 4) == Padded(b)
  {
    var n := |Padded(b)| - PadCount(|b|);
    PaddedShape(b);
    StripAll(Padded(b), n);
    PadsByLength(|Padded(b)|, PadCount(|b|));
    LettersOnly(Padded(b), n);
  }

  /** Every byte string survives encoding and decoding. */
  lemma RoundTrip(b: seq<Byte>)
    ensures Decode(Encode(b)) == Ok(b)
  {
    EncodeShape(b);
    ScanPadded(b, []);
    assert [] + b == b;
  }

  /** So distinct byte strings have distinct texts. */
  lemma EncodeInjective(a: seq<Byte>, b: seq<Byte>)
    requires Encode(a) == Encode(b)
    ensures a == b
  {
    RoundTrip(a);
    RoundTrip(b);
  }
}
