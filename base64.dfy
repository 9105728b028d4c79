/** `btoa` and `atob`: the standard base64 alphabet and padding of section 4 of RFC 4648, with
    `atob` following the forgiving-base64 decode algorithm of the WHATWG Infra Standard
    (ASCII white space ignored, padding optional, leftover bits discarded). A string is read as
    bytes one character per byte, so `btoa` fails on any character above U+00FF. */
module Base64 {
  import opened Wrappers

  /** Every character fits in one byte (the Latin-1 range). */
  predicate IsLatin1(s: string) {
    forall i :: 0 <= i < |s| ==> s[i] as int < 256
  }

  /** The character for a six-bit value. */
  function Digit(v: int): (c: char)
    requires 0 <= v < 64
  {
    if v < 26 then ('A' as int + v) as char
    else if v < 52 then ('a' as int + v - 26) as char
    else if v < 62 then ('0' as int + v - 52) as char
    else if v == 62 then '+'
    else '/'
  }

  predicate IsDigit64(c: char) {
    ('A' <= c <= 'Z') || ('a' <= c <= 'z') || ('0' <= c <= '9') || c == '+' || c == '/'
  }

  /** The six-bit value of an alphabet character. */
  function ValueOf(c: char): (v: int)
    requires IsDigit64(c)
    ensures 0 <= v < 64 && Digit(v) == c
  {
    if 'A' <= c <= 'Z' then c as int - 'A' as int
    else if 'a' <= c <= 'z' then c as int - 'a' as int + 26
    else if '0' <= c <= '9' then c as int - '0' as int + 52
    else if c == '+' then 62
    else 63
  }

  /** Reading back the character of a six-bit value gives the value. */
  lemma DigitValue(v: int)
    requires 0 <= v < 64
    ensures IsDigit64(Digit(v)) && ValueOf(Digit(v)) == v
  {
  }

  predicate AllDigits64(s: string) {
    forall i :: 0 <= i < |s| ==> IsDigit64(s[i])
  }

  function Byte(c: char): (b: nat)
    requires c as int < 256
    ensures b < 256
  {
    c as int
  }

  /** The four characters of three bytes. */
  function EncodeThree(b0: nat, b1: nat, b2: nat): (r: string)
    requires b0 < 256 && b1 < 256 && b2 < 256
    ensures |r| == 4 && AllDigits64(r)
  {
    DigitValue(b0 / 4);
    DigitValue((b0 % 4) * 16 + b1 / 16);
    DigitValue((b1 % 16) * 4 + b2 / 64);
    DigitValue(b2 % 64);
    [Digit(b0 / 4), Digit((b0 % 4) * 16 + b1 / 16), Digit((b1 % 16) * 4 + b2 / 64), Digit(b2 % 64)]
  }

  /** The three characters of a final two bytes (the missing bits are zero). */
  function EncodeTwo(b0: nat, b1: nat): (r: string)
    requires b0 < 256 && b1 < 256
    ensures |r| == 3 && AllDigits64(r)
  {
    DigitValue(b0 / 4);
    DigitValue((b0 % 4) * 16 + b1 / 16);
    DigitValue((b1 % 16) * 4);
    [Digit(b0 / 4), Digit((b0 % 4) * 16 + b1 / 16), Digit((b1 % 16) * 4)]
  }

  /** The two characters of a final byte. */
  function EncodeOne(b0: nat): (r: string)
    requires b0 < 256
    ensures |r| == 2 && AllDigits64(r)
  {
    DigitValue(b0 / 4);
    DigitValue((b0 % 4) * 16);
    [Digit(b0 / 4), Digit((b0 % 4) * 16)]
  }

  /** The alphabet characters of the encoding of `s`, without padding: four characters per three
      bytes, then two or three for a final one or two bytes. */
  function EncodeGroups(s: string): (r: string)
    requires IsLatin1(s)
    ensures AllDigits64(r)
    ensures |r| % 4 == (if |s| % 3 == 0 then 0 else |s| % 3 + 1)
    decreases |s|
  {
    if |s| == 0 then ""
    else if |s| == 1 then EncodeOne(Byte(s[0]))
    else if |s| == 2 then EncodeTwo(Byte(s[0]), Byte(s[1]))
    else
      assert IsLatin1(s[3..]) by {
        assert forall i :: 0 <= i < |s[3..]| ==> s[3..][i] == s[i + 3];
      }
      ShiftMod(|s[3..]|);
      ShiftMod(|EncodeGroups(s[3..])|);
      EncodeThree(Byte(s[0]), Byte(s[1]), Byte(s[2])) + EncodeGroups(s[3..])
  }

  /** A group more of input or of output leaves the remainders unchanged. */
  lemma ShiftMod(n: nat)
    ensures (n + 3) % 3 == n % 3 && (n + 4) % 4 == n % 4
  {
  }

  /** The padding that completes the last group of four. */
  function Padding(n: nat): string {
    if n % 3 == 1 then "==" else if n % 3 == 2 then "=" else ""
  }

  /** The base64 encoding of a Latin-1 string. */
  function Encode(s: string): (r: string)
    requires IsLatin1(s)
    ensures |r| % 4 == 0
  {
    EncodeGroups(s) + Padding(|s|)
  }

  /** `btoa(s)`: fails (an `InvalidCharacterError`) when a character is above U+00FF. */
  function Btoa(s: string): (r: Option<string>)
    ensures r.Some? <==> IsLatin1(s)
    ensures r.Some? ==> Atob(r.value) == Some(s)
  {
    if IsLatin1(s) then AtobBtoa(s); Some(Encode(s)) else None
  }

  /** ASCII white space, which forgiving-base64 decoding removes first. */
  predicate IsAsciiWhitespace(c: char) {
    c == '\t' || c == '\n' || c == '\U{000C}' || c == '\r' || c == ' '
  }

  function RemoveWhitespace(s: string): (r: string)
    ensures forall i :: 0 <= i < |r| ==> !IsAsciiWhitespace(r[i])
    decreases |s|
  {
    if s == [] then ""
    else (if IsAsciiWhitespace(s[0]) then "" else [s[0]]) + RemoveWhitespace(s[1..])
  }

  /** Drops one or two trailing `=` when the length is a multiple of four. */
  function StripPadding(s: string): string {
    if |s| % 4 == 0 && |s| >= 2 && s[|s| - 2..] == "==" then s[..|s| - 2]
    else if |s| % 4 == 0 && |s| >= 1 && s[|s| - 1] == '=' then s[..|s| - 1]
    else s
  }

  /** The three bytes of four alphabet characters. */
  function DecodeFour(g: string): (r: string)
    requires |g| == 4 && AllDigits64(g)
    ensures |r| == 3 && IsLatin1(r)
  {
    var c0, c1, c2, c3 := ValueOf(g[0]), ValueOf(g[1]), ValueOf(g[2]), ValueOf(g[3]);
    [(c0 * 4 + c1 / 16) as char, ((c1 % 16) * 16 + c2 / 4) as char, ((c2 % 4) * 64 + c3) as char]
  }

  /** The two bytes of a final three characters; the low two bits are discarded. */
  function DecodeThree(g: string): (r: string)
    requires |g| == 3 && AllDigits64(g)
    ensures |r| == 2 && IsLatin1(r)
  {
    var c0, c1, c2 := ValueOf(g[0]), ValueOf(g[1]), ValueOf(g[2]);
    [(c0 * 4 + c1 / 16) as char, ((c1 % 16) * 16 + c2 / 4) as char]
  }

  /** The byte of a final two characters; the low four bits are discarded. */
  function DecodeTwo(g: string): (r: string)
    requires |g| == 2 && AllDigits64(g)
    ensures |r| == 1 && IsLatin1(r)
  {
    var c0, c1 := ValueOf(g[0]), ValueOf(g[1]);
    [(c0 * 4 + c1 / 16) as char]
  }

  /** The bytes of unpadded alphabet characters: three per four, one for a final two, two
      for a final three. */
  function DecodeGroups(t: string): (r: string)
    requires AllDigits64(t) && |t| % 4 != 1
    ensures IsLatin1(r)
    decreases |t|
  {
    if |t| == 0 then ""
    else if |t| == 2 then DecodeTwo(t)
    else if |t| == 3 then DecodeThree(t)
    else
      assert AllDigits64(t[4..]) by {
        assert forall i :: 0 <= i < |t[4..]| ==> t[4..][i] == t[i + 4];
      }
      var r := DecodeFour(t[..4]) + DecodeGroups(t[4..]);
      assert forall i :: 0 <= i < |r| ==> r[i] as int < 256 by {
        var d := DecodeFour(t[..4]);
        assert forall i :: 0 <= i < |r| ==> r[i] == if i < 3 then d[i] else DecodeGroups(t[4..])[i - 3];
      }
      r
  }

  /** `atob(s)`: fails (an `InvalidCharacterError`) on a length that leaves one character over
      or on a character outside the alphabet (including `=` other than final padding). */
  function Atob(s: string): (r: Option<string>)
    ensures r.Some? ==> IsLatin1(r.value)
  {
    var t := StripPadding(RemoveWhitespace(s));
    if |t| % 4 == 1 || !AllDigits64(t) then None
    else Some(DecodeGroups(t))
  }

  /** Decoding the characters of three bytes gives them back. */
  lemma DecodeEncodeThree(b0: nat, b1: nat, b2: nat)
    requires b0 < 256 && b1 < 256 && b2 < 256
    ensures DecodeFour(EncodeThree(b0, b1, b2)) == [b0 as char, b1 as char, b2 as char]
  {
    var x0, x1, x2, x3 := b0 / 4, (b0 % 4) * 16 + b1 / 16, (b1 % 16) * 4 + b2 / 64, b2 % 64;
    RejoinThree(b0, b1, b2, x0, x1, x2, x3);
    DecodeDigits(x0, x1, x2, x3);
  }

  /** Decoding four digits joins their values into three characters. */
  lemma DecodeDigits(x0: int, x1: int, x2: int, x3: int)
    requires 0 <= x0 < 64 && 0 <= x1 < 64 && 0 <= x2 < 64 && 0 <= x3 < 64
    ensures AllDigits64([Digit(x0), Digit(x1), Digit(x2), Digit(x3)])
    ensures DecodeFour([Digit(x0), Digit(x1), Digit(x2), Digit(x3)])
         == [(x0 * 4 + x1 / 16) as char, ((x1 % 16) * 16 + x2 / 4) as char, ((x2 % 4) * 64 + x3) as char]
  {
    var g := [Digit(x0), Digit(x1), Digit(x2), Digit(x3)];
    DigitsOfFour(x0, x1, x2, x3);
    assert ValueOf(g[0]) == x0 && ValueOf(g[1]) == x1 && ValueOf(g[2]) == x2 && ValueOf(g[3]) == x3;
  }

  /** The four digits are base64 digits and each reads back as its value. */
  lemma DigitsOfFour(x0: int, x1: int, x2: int, x3: int)
    requires 0 <= x0 < 64 && 0 <= x1 < 64 && 0 <= x2 < 64 && 0 <= x3 < 64
    ensures var g := [Digit(x0), Digit(x1), Digit(x2), Digit(x3)];
      AllDigits64(g) && ValueOf(g[0]) == x0 && ValueOf(g[1]) == x1 && ValueOf(g[2]) == x2 && ValueOf(g[3]) == x3
  {
    DigitValue(x0);
    DigitValue(x1);
    DigitValue(x2);
    DigitValue(x3);
  }

  /** The three bytes come back from their four six-bit pieces. */
  lemma RejoinThree(b0: nat, b1: nat, b2: nat, x0: int, x1: int, x2: int, x3: int)
    requires b0 < 256 && b1 < 256 && b2 < 256
    requires x0 == b0 / 4 && x1 == (b0 % 4) * 16 + b1 / 16
    requires x2 == (b1 % 16) * 4 + b2 / 64 && x3 == b2 % 64
    ensures x0 * 4 + x1 / 16 == b0 && (x1 % 16) * 16 + x2 / 4 == b1 && (x2 % 4) * 64 + x3 == b2
  {
    SplitBits(b0, b1);
    MiddleBits(b1, b2);
  }

  /** A byte split into its high six and low two bits, the two then joined to the high four
      bits of the next byte, comes back from the six and the join. */
  lemma SplitBits(b0: nat, b1: nat)
    requires b0 < 256 && b1 < 256
    ensures var c1 := (b0 % 4) * 16 + b1 / 16;
      c1 / 16 == b0 % 4 && c1 % 16 == b1 / 16 && (b0 / 4) * 4 + c1 / 16 == b0
  {
  }

  /** The middle byte comes back from the low four bits of the second character and the high
      four of the third, and the last byte from the low two of the third and the fourth. */
  lemma MiddleBits(b1: nat, b2: nat)
    requires b1 < 256 && b2 < 256
    ensures var c2 := (b1 % 16) * 4 + b2 / 64;
      c2 / 4 == b1 % 16 && c2 % 4 == b2 / 64
      && (b1 / 16) * 16 + c2 / 4 == b1
      && (c2 % 4) * 64 + b2 % 64 == b2
  {
  }

  /** Decoding the characters of a final two bytes gives them back. */
  lemma DecodeEncodeTwo(b0: nat, b1: nat)
    requires b0 < 256 && b1 < 256
    ensures DecodeThree(EncodeTwo(b0, b1)) == [b0 as char, b1 as char]
  {
    var c1 := (b0 % 4) * 16 + b1 / 16;
    DigitValue(b0 / 4);
    DigitValue(c1);
    DigitValue((b1 % 16) * 4);
    assert c1 / 16 == b0 % 4 && c1 % 16 == b1 / 16;
  }

  /** Decoding the characters of a final byte gives it back. */
  lemma DecodeEncodeOne(b0: nat)
    requires b0 < 256
    ensures DecodeTwo(EncodeOne(b0)) == [b0 as char]
  {
    DigitValue(b0 / 4);
    DigitValue((b0 % 4) * 16);
  }

  /** Decoding the character groups of an encoding gives back the bytes. */
  lemma {:induction false} DecodeEncodeGroups(s: string)
    requires IsLatin1(s)
    ensures DecodeGroups(EncodeGroups(s)) == s
    decreases |s|
  {
    if |s| == 1 {
      DecodeEncodeOne(Byte(s[0]));
    } else if |s| == 2 {
      DecodeEncodeTwo(Byte(s[0]), Byte(s[1]));
    } else if |s| >= 3 {
      DecodeEncodeGroups(s[3..]);
      DecodeEncodeFirst(s);
    }
  }

  /** Decoding takes the first group of four off the front. */
  lemma DecodeGroupsFront(g: string, rest: string)
    requires |g| == 4 && AllDigits64(g) && AllDigits64(rest) && |rest| % 4 != 1
    ensures AllDigits64(g + rest) && |g + rest| % 4 != 1
    ensures DecodeGroups(g + rest) == DecodeFour(g) + DecodeGroups(rest)
  {
    var e := g + rest;
    assert e[..4] == g && e[4..] == rest;
  }

  lemma FrontThree(s: string)
    requires |s| >= 3
    ensures s == [s[0], s[1], s[2]] + s[3..]
  {
  }

  /** Past the first three bytes, decoding an encoding continues with the rest. */
  lemma DecodeEncodeFirst(s: string)
    requires IsLatin1(s) && |s| >= 3 && IsLatin1(s[3..])
    requires DecodeGroups(EncodeGroups(s[3..])) == s[3..]
    ensures DecodeGroups(EncodeGroups(s)) == s
  {
    var b0, b1, b2 := Byte(s[0]), Byte(s[1]), Byte(s[2]);
    assert b0 as char == s[0] && b1 as char == s[1] && b2 as char == s[2];
    var g := EncodeThree(b0, b1, b2);
    var rest := EncodeGroups(s[3..]);
    assert EncodeGroups(s) == g + rest;
    DecodeGroupsFront(g, rest);
    DecodeEncodeThree(b0, b1, b2);
    FrontThree(s);
  }

  /** An encoding has no white space to remove. */
  lemma {:induction false} NoWhitespaceKept(s: string)
    requires forall i :: 0 <= i < |s| ==> IsDigit64(s[i]) || s[i] == '='
    ensures RemoveWhitespace(s) == s
    decreases |s|
  {
    if s != [] {
      NoWhitespaceKept(s[1..]);
      assert [s[0]] + s[1..] == s;
    }
  }

  /** `atob(btoa(s)) == s` for every Latin-1 string. */
  lemma AtobBtoa(s: string)
    requires IsLatin1(s)
    ensures Atob(Encode(s)) == Some(s)
  {
    NoWhitespaceKept(Encode(s));
    StripEncodingPadding(s);
    DecodeEncodeGroups(s);
  }

  /** Stripping the padding of an encoding leaves its character groups. */
  lemma StripEncodingPadding(s: string)
    requires IsLatin1(s)
    ensures StripPadding(Encode(s)) == EncodeGroups(s)
  {
    var g := EncodeGroups(s);
    var e := Encode(s);
    if |s| % 3 == 0 {
      assert e == g;
      assert g != [] ==> IsDigit64(g[|g| - 1]);
    } else if |s| % 3 == 2 {
      assert e == g + "=";
      assert IsDigit64(g[|g| - 1]);
      assert e[|e| - 2..] == [g[|g| - 1], '='];
      assert e[..|e| - 1] == g;
    } else {
      assert e == g + "==";
      assert e[|e| - 2..] == "==";
      assert e[..|e| - 2] == g;
    }
  }

  /** Every character of an encoding is an alphabet character or `=`; in particular none is `.`. */
  lemma EncodeCharacters(s: string)
    requires IsLatin1(s)
    ensures forall i :: 0 <= i < |Encode(s)| ==> IsDigit64(Encode(s)[i]) || Encode(s)[i] == '='
    ensures '.' !in Encode(s)
  {
    var g := EncodeGroups(s);
    var e := Encode(s);
    forall i | 0 <= i < |e| ensures IsDigit64(e[i]) || e[i] == '=' {
      if i < |g| {
        assert e[i] == g[i];
      }
    }
  }
}
