/** The number parsers of small_utility.c: digit strings, and the FPGA version word. */
module NumberParsers {
  import opened Wrappers
  import opened Bytes

  // ----- digit strings -----

  /** The value of a character as a digit; anything else counts as 0. */
  function DigitOf(c: char, base: nat): (d: nat)
    ensures base == 10 || base == 16 ==> d < base
  {
    if '0' <= c <= '9' then c as int - '0' as int
    else if base == 16 && 'a' <= c <= 'f' then c as int - 'a' as int + 10
    else if base == 16 && 'A' <= c <= 'F' then c as int - 'A' as int + 10
    else 0
  }

  /** Positional notation. */
  function Value(s: string, base: nat): nat {
    if s == [] then 0 else Value(s[..|s| - 1], base) * base + DigitOf(s[|s| - 1], base)
  }

  function ToU32(n: int): (r: int)
    ensures 0 <= r < TWO32
  {
    n % TWO32
  }

  /** -1 as an unsigned int. */
  const ERROR_U32 := TWO32 - 1

  lemma ValueSnoc(s: string, i: nat, base: nat)
    requires i < |s|
    ensures Value(s[..i + 1], base) == Value(s[..i], base) * base + DigitOf(s[i], base)
  {
    assert s[..i + 1][..i] == s[..i];
  }

  lemma Wrap(a: int, b: int, base: nat)
    requires a == b % TWO32 && (base == 10 || base == 16)
    ensures a * base % TWO32 == b * base % TWO32
  {
    var k := b / TWO32;
    assert b == TWO32 * k + a;
    if base == 10 {
      ModShift(a * 10, k * 10);
    } else {
      ModShift(a * 16, k * 16);
    }
  }

  lemma ModShift(x: int, k: int)
    ensures (x + TWO32 * k) % TWO32 == x % TWO32
  {
  }

  /** One step of the accumulation, before and after the last character. */
  lemma Accumulate(number: int, v: nat, temp: nat, base: nat)
    requires number == ToU32(v * base) && (base == 10 || base == 16)
    ensures ToU32(number + temp) == ToU32(v * base + temp)
    ensures ToU32(ToU32(number + temp) * base) == ToU32((v * base + temp) * base)
    ensures ToU32((number + temp) * base) == ToU32((v * base + temp) * base)
  {
    assert (number + temp) % TWO32 == (v * base + temp) % TWO32;
    Wrap(ToU32(number + temp), v * base + temp, base);
    Wrap(ToU32(number + temp), number + temp, base);
  }

  /** stringToDecimalInt: the positional value mod 2^32, or -1 for no string or an empty one. */
  method StringToDecimalInt(ret: Option<string>) returns (number: int)
    ensures number == if ret.None? || ret.value == "" then 0xffff_ffff else Value(ret.value, 10) % 0x1_0000_0000
  {
    if ret.None? {
      return ERROR_U32;
    }
    var s := ret.value;
    if |s| < 1 {
      return ERROR_U32;
    }
    number := 0;
    var started := false;
    for i := 0 to |s|
      invariant number == ToU32(if i < |s| then Value(s[..i], 10) * 10 else Value(s, 10))
      invariant !started ==> Value(s[..i], 10) == 0
    {
      ValueSnoc(s, i, 10);
      assert i + 1 == |s| ==> s[..i + 1] == s;
      if s[i] == '0' && !started {
        continue;
      }
      started := true;
      var temp := 0;
      if '0' <= s[i] <= '9' {
        temp := s[i] as int - '0' as int;
      }
      Accumulate(number, Value(s[..i], 10), temp, 10);
      if i == |s| - 1 {
        number := ToU32(number + temp);
      } else {
        number := ToU32((number + temp) * 10);
      }
    }
    assert s[..|s|] == s;
  }

  /** stringToInt: hexadecimal digits of either case after "0x". */
  method StringToInt(ret: Option<string>) returns (number: int)
    ensures number == if ret.None? || |ret.value| < 3 || ret.value[..2] != "0x" then 0xffff_ffff
                      else Value(ret.value[2..], 16) % 0x1_0000_0000
  {
    if ret.None? {
      return ERROR_U32;
    }
    var s := ret.value;
    if |s| < 3 {
      return ERROR_U32;
    }
    if s[0] != '0' || s[1] != 'x' {
      return ERROR_U32;
    }
    ghost var digits := s[2..];
    number := 0;
    var started := false;
    for i := 2 to |s|
      invariant number == ToU32(if i < |s| then Value(digits[..i - 2], 16) * 16 else Value(digits, 16))
      invariant !started ==> Value(digits[..i - 2], 16) == 0
    {
      ValueSnoc(digits, i - 2, 16);
      assert i + 1 == |s| ==> digits[..i - 1] == digits;
      if s[i] == '0' && !started {
        continue;
      }
      started := true;
      var temp := 0;
      if '0' <= s[i] <= '9' {
        temp := s[i] as int - '0' as int;
      } else if 'a' <= s[i] <= 'f' {
        temp := s[i] as int - 'a' as int + 10;
      } else if 'A' <= s[i] <= 'F' {
        temp := s[i] as int - 'A' as int + 10;
      }
      Accumulate(number, Value(digits[..i - 2], 16), temp, 16);
      if i == |s| - 1 {
        number := ToU32(number + temp);
      } else {
        number := ToU32((number + temp) * 16);
      }
    }
  }

  /** The usual decimal digits of a number. */
  function Decimal(n: nat): (s: string)
    ensures |s| > 0
  {
    (if n < 10 then "" else Decimal(n / 10)) + [Digit(n % 10)]
  }

  function Digit(d: nat): (c: char)
    requires d < 10
    ensures '0' <= c <= '9' && DigitOf(c, 10) == d
  {
    (d + '0' as int) as char
  }

  lemma ValueOf(p: string, c: char, base: nat)
    ensures Value(p + [c], base) == Value(p, base) * base + DigitOf(c, base)
  {
    assert (p + [c])[..|p|] == p;
  }

  /** Every number is read back from its digits. */
  lemma {:induction false} DecimalReadBack(n: nat)
    ensures Value(Decimal(n), 10) == n
  {
    if n < 10 {
      ValueOf("", Digit(n), 10);
    } else {
      DecimalReadBack(n / 10);
      ValueOf(Decimal(n / 10), Digit(n % 10), 10);
    }
  }

  /** Hexadecimal digits, with letters of either case. */
  function HexDigit(d: nat, upper: bool): char
    requires d < 16
  {
    if d < 10 then "0123456789"[d] else if upper then "ABCDEF"[d - 10] else "abcdef"[d - 10]
  }

  function Hexadecimal(n: nat, upper: bool): (s: string)
    ensures |s| > 0
  {
    (if n < 16 then "" else Hexadecimal(n / 16, upper)) + [HexDigit(n % 16, upper)]
  }

  lemma HexDigitBack(d: nat, upper: bool)
    requires d < 16
    ensures DigitOf(HexDigit(d, upper), 16) == d
  {
    assert d in {0, 1, 2, 3, 4, 5, 6, 7, 8, 9, 10, 11, 12, 13, 14, 15};
  }

  /** Every number is read back from its hexadecimal digits, of either case. */
  lemma {:induction false} HexReadBack(n: nat, upper: bool)
    ensures Value(Hexadecimal(n, upper), 16) == n
  {
    hide *;
    HexParts(n, upper);
    HexDigitBack(n % 16, upper);
    if n < 16 {
      ValueOf("", HexDigit(n, upper), 16);
    } else {
      HexReadBack(n / 16, upper);
      ValueOf(Hexadecimal(n / 16, upper), HexDigit(n % 16, upper), 16);
    }
  }

  lemma HexParts(n: nat, upper: bool)
    ensures n == n / 16 * 16 + n % 16
    ensures n < 16 ==> n % 16 == n && Hexadecimal(n, upper) == "" + [HexDigit(n, upper)] && Value("", 16) == 0
    ensures n >= 16 ==> Hexadecimal(n, upper) == Hexadecimal(n / 16, upper) + [HexDigit(n % 16, upper)]
  {
    hide HexDigit;
  }

  /** All other characters count as 0. */
  lemma OthersCountZero(c: char)
    ensures c !in "0123456789" ==> DigitOf(c, 10) == 0
    ensures c !in "0123456789abcdefABCDEF" ==> DigitOf(c, 16) == 0
  {
    var hex := "0123456789abcdefABCDEF";
    if '0' <= c <= '9' {
      assert "0123456789"[c as int - '0' as int] == c == hex[c as int - '0' as int];
    } else if 'a' <= c <= 'f' {
      assert hex[c as int - 'a' as int + 10] == c;
    } else if 'A' <= c <= 'F' {
      assert hex[c as int - 'A' as int + 16] == c;
    }
  }

  lemma {:induction false} OnlyZeros(zeros: string, base: nat)
    requires forall i :: 0 <= i < |zeros| ==> zeros[i] == '0'
    ensures Value(zeros, base) == 0
  {
    if zeros != [] {
      OnlyZeros(zeros[..|zeros| - 1], base);
    }
  }

  /** Zeros in front change nothing. */
  lemma {:induction false} LeadingZeros(zeros: string, s: string, base: nat)
    requires forall i :: 0 <= i < |zeros| ==> zeros[i] == '0'
    ensures Value(zeros + s, base) == Value(s, base)
  {
    if s == [] {
      OnlyZeros(zeros, base);
      assert zeros + s == zeros;
    } else {
      assert (zeros + s)[..|zeros + s| - 1] == zeros + s[..|s| - 1];
      LeadingZeros(zeros, s[..|s| - 1], base);
    }
  }

  // ----- the FPGA version word -----

  function TwoDigits(n: nat): (s: string)
    requires n < 100
    ensures |s| == 2
  {
    [Digit(n / 10), Digit(n % 10)]
  }

  /** Stored in a char: the low 8 bits. */
  function CharOf(x: int): char {
    (x % 256) as char
  }

  lemma CharOfDigit(x: nat)
    requires x < 10
    ensures CharOf(x + '0' as int) == Digit(x)
  {
  }

  /** Truncating twice is truncating once. */
  lemma CharOfWrap(x: int)
    ensures CharOf(x % 256 + '0' as int) == CharOf(x + '0' as int)
  {
    assert (x % 256 + '0' as int) % 256 == (x + '0' as int) % 256;
  }

  /** intTimeToString: two digits, or four for a year from 2000 on, and a NUL. Outside the ranges that
      parse_fpga_version asks for, the first of two characters, or the third of four, is no digit. */
  method IntTimeToString(number: int) returns (temp: array<char>)
    requires -0x8000_0000 <= number < 0x8000_0000
    ensures fresh(temp) && temp.Length == 32
    ensures 0 <= number < 100 ==> temp[..3] == TwoDigits(number) + ['\0']
    ensures 2000 <= number < 2100 ==> temp[..5] == "20" + TwoDigits(number - 2000) + ['\0']
    ensures number < 10 ==> temp[..3] == ['0', CharOf(number + '0' as int), '\0']
    ensures 10 <= number < 2000 ==> temp[..3] == [CharOf(number / 10 + '0' as int), Digit(number % 10), '\0']
    ensures number >= 2000 ==>
              temp[..5] == ['2', '0', CharOf((number - 2000) / 10 + '0' as int), Digit((number - 2000) % 10), '\0']
  {
    hide CharOf;
    hide Digit;
    temp := new char[32];
    CharOfDigit(0);
    assert Digit(0) == '0';
    if number < 10 {
      CharOfWrap(number);
      if number >= 0 {
        CharOfDigit(number);
      }
      temp[0] := '0';
      temp[1] := CharOf(number % 256 + '0' as int);
      temp[2] := '\0';
    } else if number >= 2000 {
      var a := new int[4];
      a[0] := 2;
      a[1] := 0;
      a[2] := (number - 2000) / 10 % 256;
      a[3] := (number - 2000) % 10;
      CharOfDigit(2);
      CharOfWrap((number - 2000) / 10);
      CharOfDigit((number - 2000) % 10);
      if number < 2100 {
        CharOfDigit((number - 2000) / 10);
      }
      temp[0] := CharOf(a[0] + '0' as int);
      temp[1] := CharOf(a[1] + '0' as int);
      temp[2] := CharOf(a[2] + '0' as int);
      temp[3] := CharOf(a[3] + '0' as int);
      temp[4] := '\0';
    } else {
      CharOfWrap(number / 10);
      CharOfDigit(number % 10);
      if number < 100 {
        CharOfDigit(number / 10);
      }
      temp[0] := CharOf(number / 10 % 256 + '0' as int);
      temp[1] := CharOf(number % 10 + '0' as int);
      temp[2] := '\0';
    }
  }

  /** The version word's fields, the low-order one last: 5 bits, 4, 6, 5, 6 and 6. */
  datatype Stamp = Stamp(day: nat, month: nat, year: nat, hours: nat, minutes: nat, seconds: nat)

  predicate InRange(t: Stamp) {
    t.day < 32 && t.month < 16 && t.year < 64 && t.hours < 32 && t.minutes < 64 && t.seconds < 64
  }

  function Word(t: Stamp): nat {
    t.seconds + 64 * (t.minutes + 64 * (t.hours + 32 * (t.year + 64 * (t.month + 16 * t.day))))
  }

  /** "20" and the year, month, day, hours, minutes and seconds in two digits each. */
  function Text(t: Stamp): (s: string)
    requires InRange(t)
    ensures |s| == 14
  {
    "20" + TwoDigits(t.year) + TwoDigits(t.month) + TwoDigits(t.day)
    + TwoDigits(t.hours) + TwoDigits(t.minutes) + TwoDigits(t.seconds)
  }

  function Fields(word: nat): (t: Stamp)
    requires word < TWO32
    ensures InRange(t) && Word(t) == word
  {
    var a, b, c, d, e := word / 64, word / 4096, word / 131072, word / 8388608, word / 134217728;
    assert b == a / 64 && c == b / 32 && d == c / 64 && e == d / 16;
    Stamp(e, d % 16, c % 64, b % 32, a % 64, word % 64)
  }

  /** The fields, as the shifts take them off the word. */
  lemma FieldsByShifts(word: nat)
    requires word < TWO32
    ensures var t := Fields(word);
            && t.seconds == word % 64
            && t.minutes == word / 64 % 64
            && t.hours == word / 64 / 64 % 32
            && t.year == word / 64 / 64 / 32 % 64
            && t.month == word / 64 / 64 / 32 / 64 % 16
            && t.day == word / 64 / 64 / 32 / 64 / 16
  {
    var a := word / 64;
    var b := a / 64;
    var c := b / 32;
    var d := c / 64;
    assert b == word / 4096;
    assert c == word / 131072;
    assert d == word / 8388608;
    assert d / 16 == word / 134217728;
  }

  /** memcpy into the version buffer. */
  method Memcpy(version: array<char>, at: nat, tmp: array<char>, n: nat)
    requires at + n <= version.Length && n <= tmp.Length && version != tmp
    modifies version
    ensures forall i :: at <= i < at + n ==> version[i] == tmp[i - at]
    ensures forall i :: 0 <= i < at || at + n <= i < version.Length ==> version[i] == old(version[i])
  {
    for i := 0 to n
      invariant forall j :: at <= j < at + i ==> version[j] == tmp[j - at]
      invariant forall j :: 0 <= j < at || at + i <= j < version.Length ==> version[j] == old(version[j])
    {
      version[at + i] := tmp[i];
    }
  }

  /** Render a two-digit field and copy it to its place. */
  method PutField(version: array<char>, at: nat, n: nat)
    requires at + 2 <= version.Length && n < 100
    modifies version
    ensures version[at] == TwoDigits(n)[0] && version[at + 1] == TwoDigits(n)[1]
    ensures forall i :: 0 <= i < at || at + 2 <= i < version.Length ==> version[i] == old(version[i])
  {
    var tmp := IntTimeToString(n);
    assert tmp[..3][0] == TwoDigits(n)[0] && tmp[..3][1] == TwoDigits(n)[1];
    Memcpy(version, at, tmp, 2);
  }

  predicate At(v: seq<char>, at: nat, n: nat)
    requires at + 2 <= |v| && n < 100
  {
    v[at] == TwoDigits(n)[0] && v[at + 1] == TwoDigits(n)[1]
  }

  lemma TextOf(v: seq<char>, t: Stamp)
    requires |v| >= 15 && InRange(t) && v[14] == '\0' && v[0] == '2' && v[1] == '0'
    requires At(v, 2, t.year) && At(v, 4, t.month) && At(v, 6, t.day)
    requires At(v, 8, t.hours) && At(v, 10, t.minutes) && At(v, 12, t.seconds)
    ensures v[..15] == Text(t) + ['\0']
  {
    hide TwoDigits;
  }

  /** parse_fpga_version: shift the fields off the word and write each at its place. */
  method ParseFpgaVersion(word: int) returns (version: array<char>)
    requires 0 <= word < TWO32
    ensures fresh(version) && version.Length == 32
    ensures version[..15] == Text(Fields(word)) + ['\0']
  {
    hide Fields;
    hide TwoDigits;
    hide Text;
    FieldsByShifts(word);
    version := new char[32];
    var number := word;
    var seconds := number - number / 64 * 64;
    PutField(version, 12, seconds);

    number := number / 64;
    var minutes := number - number / 64 * 64;
    PutField(version, 10, minutes);

    number := number / 64;
    var hours := number - number / 32 * 32;
    PutField(version, 8, hours);

    number := number / 32;
    var year := 2000 + number - number / 64 * 64;
    var tmp := IntTimeToString(year);
    assert tmp[..5][0] == '2' && tmp[..5][1] == '0';
    assert tmp[..5][2] == TwoDigits(year - 2000)[0] && tmp[..5][3] == TwoDigits(year - 2000)[1];
    Memcpy(version, 0, tmp, 4);

    number := number / 64;
    var month := number - number / 16 * 16;
    PutField(version, 4, month);

    number := number / 16;
    var day := number;
    PutField(version, 6, day);

    version[14] := '\0';
    ghost var t := Fields(word);
    TextOf(version[..], t);
  }

  /** Reading a version text back: the year, month, day, hours, minutes and seconds as decimal numbers. */
  function StampOf(s: string): Stamp
    requires |s| == 14
  {
    Stamp(Value(s[6..8], 10), Value(s[4..6], 10), Value(s[2..4], 10),
          Value(s[8..10], 10), Value(s[10..12], 10), Value(s[12..14], 10))
  }

  predicate Digits(s: string) {
    forall i :: 0 <= i < |s| ==> '0' <= s[i] <= '9'
  }

  predicate IsVersion(s: string) {
    |s| == 14 && Digits(s) && s[..2] == "20" && InRange(StampOf(s))
  }

  lemma ValueOfTwo(s: string)
    requires |s| == 2
    ensures Value(s, 10) == 10 * DigitOf(s[0], 10) + DigitOf(s[1], 10)
  {
    assert s == ([] + [s[0]]) + [s[1]];
    ValueOf([] + [s[0]], s[1], 10);
    ValueOf([], s[0], 10);
  }

  lemma TwoDigitsReadBack(n: nat)
    requires n < 100
    ensures Value(TwoDigits(n), 10) == n && Digits(TwoDigits(n))
  {
    ValueOfTwo(TwoDigits(n));
  }

  lemma TwoDigitsOnto(s: string)
    requires |s| == 2 && Digits(s)
    ensures Value(s, 10) < 100 && TwoDigits(Value(s, 10)) == s
  {
    ValueOfTwo(s);
    assert s == [s[0], s[1]];
  }

  lemma WordDeterminesFields(t: Stamp)
    requires InRange(t)
    ensures Word(t) < TWO32 && Fields(Word(t)) == t
  {
    var a := t.month + 16 * t.day;
    var b := t.year + 64 * a;
    var c := t.hours + 32 * b;
    var d := t.minutes + 64 * c;
    assert Word(t) == t.seconds + 64 * d;
    FieldsByShifts(Word(t));
    hide Fields;
    assert Word(t) / 64 == d && d / 64 == c && c / 32 == b && b / 64 == a;
  }

  lemma TextParts(t: Stamp)
    requires InRange(t)
    ensures IsVersion(Text(t)) && StampOf(Text(t)) == t
  {
    var s := Text(t);
    TwoDigitsReadBack(t.year);
    TwoDigitsReadBack(t.month);
    TwoDigitsReadBack(t.day);
    TwoDigitsReadBack(t.hours);
    TwoDigitsReadBack(t.minutes);
    TwoDigitsReadBack(t.seconds);
    hide TwoDigits;
    hide Value;
    assert s[2..4] == TwoDigits(t.year) && s[4..6] == TwoDigits(t.month) && s[6..8] == TwoDigits(t.day);
    assert s[8..10] == TwoDigits(t.hours) && s[10..12] == TwoDigits(t.minutes) && s[12..14] == TwoDigits(t.seconds);
  }

  lemma TextOnto(s: string)
    requires IsVersion(s)
    ensures Text(StampOf(s)) == s
  {
    TwoDigitsOnto(s[2..4]);
    TwoDigitsOnto(s[4..6]);
    TwoDigitsOnto(s[6..8]);
    TwoDigitsOnto(s[8..10]);
    TwoDigitsOnto(s[10..12]);
    TwoDigitsOnto(s[12..14]);
    hide TwoDigits;
    hide Value;
    assert s == s[..2] + s[2..4] + s[4..6] + s[6..8] + s[8..10] + s[10..12] + s[12..14];
  }

  /** The text gives back the word: the rendering loses nothing. */
  lemma VersionReadBack(word: nat)
    requires word < TWO32
    ensures IsVersion(Text(Fields(word))) && Word(StampOf(Text(Fields(word)))) == word
  {
    TextParts(Fields(word));
  }

  /** And every 14-digit text whose fields are in range is the rendering of one word. */
  lemma VersionOnto(s: string)
    ensures IsVersion(s) <==> exists word: nat :: word < TWO32 && Text(Fields(word)) == s
  {
    if IsVersion(s) {
      WordDeterminesFields(StampOf(s));
      TextOnto(s);
    }
    if word: nat :| word < TWO32 && Text(Fields(word)) == s {
      VersionReadBack(word);
    }
  }

  /** Where the fields are in the word, and where they go in the text: 2020-05-27 14:30:15, and the largest word. */
  lemma VersionExamples()
    ensures Text(Fields(0xdaa8e78f)) == "20200527143015"
    ensures Text(Fields(0xffff_ffff)) == "20631531316363"
  {
    hide Fields;
    FieldsByShifts(0xdaa8e78f);
    FieldsByShifts(0xffff_ffff);
    assert Fields(0xdaa8e78f) == Stamp(27, 5, 20, 14, 30, 15);
    assert Fields(0xffff_ffff) == Stamp(31, 15, 63, 31, 63, 63);
    TextExamples();
  }

  lemma TextExamples()
    ensures Text(Stamp(27, 5, 20, 14, 30, 15)) == "20200527143015"
    ensures Text(Stamp(31, 15, 63, 31, 63, 63)) == "20631531316363"
  {
    assert TwoDigits(27) == "27" && TwoDigits(5) == "05" && TwoDigits(20) == "20" && TwoDigits(14) == "14";
    assert TwoDigits(30) == "30" && TwoDigits(15) == "15" && TwoDigits(31) == "31" && TwoDigits(63) == "63";
    hide TwoDigits;
  }
}
