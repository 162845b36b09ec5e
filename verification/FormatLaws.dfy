/** Laws of the formatter: what the text of a conversion looks like, that a printed integer
    reads back, and that a format means what its directives say. */
module FormatLaws {
  import opened Arith
  import opened FormatSpec

  // ---------------------------------------------------------------- field widths

  /** A printed string fills its field exactly, unless it is longer. */
  lemma StringWidth(chars: seq<char>, width: int, precision: int, minus: bool)
    ensures |StrText(chars, width, precision, minus)| == Max(width, |Shown(chars, precision)|)
  {}

  lemma {:induction false} ShownIsPrefix(chars: seq<char>, precision: int)
    requires precision >= -1
    ensures Shown(chars, precision) <= chars && '\0' !in Shown(chars, precision)
    ensures precision >= 0 ==> |Shown(chars, precision)| <= precision
    ensures var n := |Shown(chars, precision)|;
            n == |chars| || chars[n] == '\0' || n == precision
    decreases |chars|
  {
    if chars != [] && chars[0] != '\0' && precision != 0 {
      ShownIsPrefix(chars[1..], if precision == -1 then -1 else precision - 1);
      assert chars == [chars[0]] + chars[1..];
    }
  }

  lemma {:induction false} GroupedLength(digits: seq<char>, separator: seq<char>)
    ensures |Grouped(digits, separator)| == |digits| + SeparatorLength(|digits|, separator)
  {
    var n := |digits|;
    if n > 0 {
      GroupedLength(digits[1..], separator);
      if n > 1 {
        GroupCount(n);
        Distribute(|separator|, (n - 1 - if (n - 1) % 3 == 0 then 1 else 0) / 3, if (n - 1) % 3 == 0 then 1 else 0);
      }
    }
  }

  lemma {:induction false} ShortGroup(digits: seq<char>, separator: seq<char>)
    requires |digits| <= 3
    ensures Grouped(digits, separator) == digits
  {
    if digits != [] {
      ShortGroup(digits[1..], separator);
      assert digits == [digits[0]] + digits[1..];
    }
  }

  lemma GroupStep(d: char, rest: seq<char>, separator: seq<char>)
    ensures Grouped([d] + rest, separator)
         == [d] + (if |rest| > 0 && |rest| % 3 == 0 then separator else []) + Grouped(rest, separator)
  {
    var digits := [d] + rest;
    assert digits[0] == d && digits[1..] == rest && |digits| - 1 == |rest|;
  }

  /** Separators stand between groups of three, counted from the right. */
  lemma {:induction false} GroupsOfThree(front: seq<char>, last: seq<char>, separator: seq<char>)
    requires front != [] && |last| == 3
    ensures Grouped(front + last, separator) == Grouped(front, separator) + separator + last
    decreases |front|
  {
    var d, rest := front[0], front[1..];
    assert front == [d] + rest;
    if rest == [] {
      OneGroup(d, last, separator);
      assert front + last == [d] + last;
    } else {
      GroupsOfThree(rest, last, separator);
      OneDigitMore(d, rest, last, separator);
      assert front + last == [d] + (rest + last);
    }
  }

  lemma OneGroup(d: char, last: seq<char>, separator: seq<char>)
    requires |last| == 3
    ensures Grouped([d] + last, separator) == Grouped([d], separator) + separator + last
  {
    GroupStep(d, last, separator);
    ShortGroup(last, separator);
    ShortGroup([d], separator);
  }

  lemma OneDigitMore(d: char, rest: seq<char>, last: seq<char>, separator: seq<char>)
    requires |last| == 3 && rest != [] && Grouped(rest + last, separator) == Grouped(rest, separator) + separator + last
    ensures Grouped([d] + (rest + last), separator) == Grouped([d] + rest, separator) + separator + last
  {
    var gap := if |rest| % 3 == 0 then separator else [];
    assert |rest + last| % 3 == |rest| % 3;
    GroupStep(d, rest, separator);
    GroupStep(d, rest + last, separator);
    GapInFront([d], gap, Grouped(rest, separator), separator, last);
  }

  lemma GapInFront(d: seq<char>, gap: seq<char>, rest: seq<char>, separator: seq<char>, last: seq<char>)
    ensures d + gap + (rest + separator + last) == d + gap + rest + separator + last
  {}

  lemma GroupCount(n: nat)
    requires n > 1
    ensures (n - if n % 3 == 0 then 1 else 0) / 3
         == (n - 1 - if (n - 1) % 3 == 0 then 1 else 0) / 3 + if (n - 1) % 3 == 0 then 1 else 0
  {}

  /** The length an integer is to have: that of its parts, and at least the width. */
  function FieldLength(value: int, st: Style, d: Directive, separator: seq<char>): int
    requires 2 <= st.base <= 16
  {
    Max(d.width, PartsLength(value, st, d, separator))
  }

  function PartsLength(value: int, st: Style, d: Directive, separator: seq<char>): int
    requires 2 <= st.base <= 16
  {
    var n := |DigitsOf(value, st)|;
    |Sign(value, st, d.flags)| + |Prefix(value, st, d.flags)|
    + Max(IntPrecision(value, n, d.precision, st, d.flags), n + Separators(n, d.flags, separator))
  }

  /** It has that length, except that separators are counted twice when the precision also
      adds to the digits: then a field that is wider than the parts comes out too narrow. */
  lemma IntegerWidth(value: int, st: Style, d: Directive, separator: seq<char>)
    requires 2 <= st.base <= 16
    ensures var n := |DigitsOf(value, st)|;
            |IntText(value, st, d, separator)| == FieldLength(value, st, d, separator)
            <==> (|| Separators(n, d.flags, separator) == 0
                  || IntPrecision(value, n, d.precision, st, d.flags) <= n
                  || d.width <= PartsLength(value, st, d, separator))
  {
    GroupedLength(DigitsOf(value, st), separator);
  }

  /** 1000 in a field of 10 with precision 5 and separators takes up only 9 characters. */
  lemma QuotedFieldIsNarrow()
    ensures var d := Directive(NO_FLAGS.(quote := true), 10, 5, Plain);
            |IntText(1000, Style(10, false, false), d, ",")| == 9
  {
    var st := Style(10, false, false);
    assert |Digits(1, 10, false)| == 1;
    assert |Digits(10, 10, false)| == 2;
    assert |Digits(100, 10, false)| == 3;
    assert |DigitsOf(1000, st)| == 4;
    GroupedLength(DigitsOf(1000, st), ",");
  }

  /** Without the quote flag every integer has its length: the larger of the width and of
      the digits, raised to the precision, with sign and prefix. */
  lemma PlainIntegerWidth(value: int, st: Style, d: Directive, separator: seq<char>)
    requires 2 <= st.base <= 16 && !d.flags.quote
    ensures var n := |DigitsOf(value, st)|;
            |IntText(value, st, d, separator)|
            == Max(d.width, |Sign(value, st, d.flags)| + |Prefix(value, st, d.flags)|
                            + Max(IntPrecision(value, n, d.precision, st, d.flags), n))
  {
    IntegerWidth(value, st, d, separator);
  }

  // ---------------------------------------------------------------- reading an integer back

  function SkipSpaces(s: seq<char>): seq<char> {
    if s != [] && s[0] == ' ' then SkipSpaces(s[1..]) else s
  }

  /** The value of a digit, 16 if it is none. */
  function CharDigit(c: char): (d: nat)
    ensures d <= 16
  {
    if '0' <= c <= '9' then (c - '0') as nat
    else if 'a' <= c <= 'f' then (c - 'a') as nat + 10
    else if 'A' <= c <= 'F' then (c - 'A') as nat + 10
    else 16
  }

  function ReadDigits(s: seq<char>, base: nat, acc: nat): nat
    decreases |s|
  {
    if s == [] || CharDigit(s[0]) >= base then acc else ReadDigits(s[1..], base, acc * base + CharDigit(s[0]))
  }

  function StripSign(t: seq<char>): seq<char> {
    if t != [] && (t[0] == '-' || t[0] == '+') then t[1..] else t
  }

  function StripPrefix(u: seq<char>, base: nat): seq<char> {
    if base == 16 && |u| >= 2 && u[0] == '0' && (u[1] == 'x' || u[1] == 'X') then u[2..] else u
  }

  /** Reads an integer the way strtol does. */
  function ReadInt(s: seq<char>, base: nat): int {
    var t := SkipSpaces(s);
    var m := ReadDigits(StripPrefix(StripSign(t), base), base, 0);
    if t != [] && t[0] == '-' then 0 - m else m
  }

  lemma DigitReads(d: nat, up: bool)
    requires d < 16
    ensures CharDigit(DigitChar(d, up)) == d && DigitChar(d, up) !in " +-xX"
  {}

  lemma QuotRem(v: nat, base: nat)
    requires 2 <= base <= v
    ensures v / base * base + v % base == v && 0 < v / base < v
  {}

  lemma ReadOne(d: nat, up: bool, t: seq<char>, base: nat, acc: nat)
    requires d < base <= 16
    ensures ReadDigits([DigitChar(d, up)] + t, base, acc) == ReadDigits(t, base, acc * base + d)
  {
    DigitReads(d, up);
    var s := [DigitChar(d, up)] + t;
    assert s[0] == DigitChar(d, up) && s[1..] == t;
  }

  lemma {:induction false} DigitsRead(v: nat, base: nat, up: bool, t: seq<char>)
    requires 2 <= base <= 16
    ensures ReadDigits(Digits(v, base, up) + t, base, 0) == ReadDigits(t, base, v)
    decreases v
  {
    if v < base {
      ReadOne(v, up, t, base, 0);
    } else {
      QuotRem(v, base);
      var q, r := v / base, v % base;
      var c := DigitChar(r, up);
      LastDigit(v, base, up, t);
      DigitsRead(q, base, up, [c] + t);
      ReadOne(r, up, t, base, q);
    }
  }

  lemma LastDigit(v: nat, base: nat, up: bool, t: seq<char>)
    requires 2 <= base <= 16 && base <= v
    ensures Digits(v, base, up) + t == Digits(v / base, base, up) + ([DigitChar(v % base, up)] + t)
  {}

  lemma {:induction false} ZerosRead(z: int, base: nat, t: seq<char>)
    requires 2 <= base
    ensures ReadDigits(Pad('0', z) + t, base, 0) == ReadDigits(t, base, 0)
  {
    if z > 0 {
      ZerosRead(z - 1, base, t);
      assert (Pad('0', z) + t)[1..] == Pad('0', z - 1) + t;
    } else {
      assert Pad('0', z) + t == t;
    }
  }

  lemma {:induction false} SpacesSkipped(n: int, t: seq<char>)
    ensures SkipSpaces(Pad(' ', n) + t) == SkipSpaces(t)
  {
    if n > 0 {
      SpacesSkipped(n - 1, t);
      assert (Pad(' ', n) + t)[1..] == Pad(' ', n - 1) + t;
    } else {
      assert Pad(' ', n) + t == t;
    }
  }

  /** No number starts with the digit 0, except 0. */
  lemma {:induction false} FirstDigit(v: nat, base: nat, up: bool)
    requires 2 <= base <= 16 && v > 0
    ensures Digits(v, base, up)[0] != '0'
    ensures base <= 10 ==> IsDigit(Digits(v, base, up)[0])
    decreases v
  {
    if v >= base {
      QuotRem(v, base);
      FirstDigit(v / base, base, up);
      assert Digits(v, base, up)[0] == Digits(v / base, base, up)[0];
    }
  }

  /** A digit, as a reader sees it. */
  predicate Digital(c: char) { c !in " +-xX" }

  lemma {:induction false} DigitsAreDigits(v: nat, base: nat, up: bool)
    requires 2 <= base <= 16
    ensures forall k :: 0 <= k < |Digits(v, base, up)| ==> Digital(Digits(v, base, up)[k])
    decreases v
  {
    if v < base {
      DigitReads(v, up);
    } else {
      QuotRem(v, base);
      DigitsAreDigits(v / base, base, up);
      DigitReads(v % base, up);
      AllAppend(Digits(v / base, base, up), DigitChar(v % base, up));
    }
  }

  lemma AllAppend(s: seq<char>, c: char)
    requires Digital(c) && forall k :: 0 <= k < |s| ==> Digital(s[k])
    ensures forall k :: 0 <= k < |s + [c]| ==> Digital((s + [c])[k])
  {}

  /** What is behind the sign and the prefix reads as the magnitude. */
  lemma TailReads(v: nat, base: nat, up: bool, zeros: int, spaces: int)
    requires 2 <= base <= 16
    ensures var tail := Pad('0', zeros) + Digits(v, base, up) + Pad(' ', spaces);
            && ReadDigits(tail, base, 0) == v
            && Digital(tail[0]) && (|tail| > 1 ==> tail[1] != 'x' && tail[1] != 'X')
  {
    var digits, trail := Digits(v, base, up), Pad(' ', spaces);
    var tail := Pad('0', zeros) + digits + trail;
    assert tail == Pad('0', zeros) + (digits + trail);
    ZerosRead(zeros, base, digits + trail);
    DigitsRead(v, base, up, trail);
    DigitsAreDigits(v, base, up);
    forall k | 0 <= k < |tail| ensures tail[k] == '0' || tail[k] == ' ' || Digital(tail[k]) {
      if |Pad('0', zeros)| <= k < |Pad('0', zeros)| + |digits| {
        assert tail[k] == digits[k - |Pad('0', zeros)|];
      }
    }
    assert tail[0] == if zeros > 0 then '0' else digits[0];
  }

  /** A sign, a prefix and the rest read as one number. */
  lemma SignedReads(sign: seq<char>, prefix: seq<char>, tail: seq<char>, base: nat)
    requires sign == [] || sign == ['-'] || sign == ['+'] || sign == [' ']
    requires prefix == [] || (base == 16 && (prefix == ['0', 'x'] || prefix == ['0', 'X']))
    requires tail != [] && Digital(tail[0]) && (|tail| > 1 ==> tail[1] != 'x' && tail[1] != 'X')
    ensures var m := ReadDigits(tail, base, 0);
            ReadInt(sign + prefix + tail, base) == if sign == ['-'] then 0 - m else m
  {
    var u := prefix + tail;
    assert sign + prefix + tail == sign + u;
    PrefixReads(prefix, tail, base);
    SignReads(sign, u);
  }

  lemma PrefixReads(prefix: seq<char>, tail: seq<char>, base: nat)
    requires prefix == [] || (base == 16 && (prefix == ['0', 'x'] || prefix == ['0', 'X']))
    requires tail != [] && Digital(tail[0]) && (|tail| > 1 ==> tail[1] != 'x' && tail[1] != 'X')
    ensures var u := prefix + tail; u != [] && Digital(u[0]) && StripPrefix(u, base) == tail
  {
    var u := prefix + tail;
    if prefix != [] { assert u[2..] == tail; } else { assert u == tail; }
  }

  lemma SignReads(sign: seq<char>, u: seq<char>)
    requires sign == [] || sign == ['-'] || sign == ['+'] || sign == [' ']
    requires u != [] && Digital(u[0])
    ensures var t := SkipSpaces(sign + u); StripSign(t) == u && (t != [] && t[0] == '-' <==> sign == ['-'])
  {
    var s := sign + u;
    assert SkipSpaces(u) == u;
    if sign == [] { assert s == u; } else { assert s[0] == sign[0] && s[1..] == u; }
  }

  lemma Regroup(a: seq<char>, b: seq<char>, c: seq<char>, d: seq<char>, e: seq<char>, f: seq<char>)
    ensures a + b + c + d + e + f == a + (b + c + (d + e + f))
  {}

  lemma PaddedReads(n: int, t: seq<char>, base: nat)
    ensures ReadInt(Pad(' ', n) + t, base) == ReadInt(t, base)
  {
    SpacesSkipped(n, t);
  }

  lemma LayoutReads(spaces: int, sign: seq<char>, prefix: seq<char>, zeros: int, v: nat, base: nat, up: bool)
    requires 2 <= base <= 16
    requires sign == [] || sign == ['-'] || sign == ['+'] || sign == [' ']
    requires prefix == [] || (base == 16 && (prefix == ['0', 'x'] || prefix == ['0', 'X']))
    ensures ReadInt(Layout(spaces, sign, prefix, zeros, Digits(v, base, up)), base) == if sign == ['-'] then 0 - v else v
  {
    var digits := Digits(v, base, up);
    var tail := Pad('0', zeros) + digits + Pad(' ', -spaces);
    TailReads(v, base, up, zeros, -spaces);
    SignedReads(sign, prefix, tail, base);
    Regroup(Pad(' ', spaces), sign, prefix, Pad('0', zeros), digits, Pad(' ', -spaces));
    PaddedReads(spaces, sign + prefix + tail, base);
  }

  /** A printed integer reads back: whatever the flags, the width and the precision, the text
      holds the value, as long as no separators are printed. */
  lemma IntegerReadsBack(value: int, st: Style, d: Directive, separator: seq<char>)
    requires 2 <= st.base <= 16
    requires Separators(|DigitsOf(value, st)|, d.flags, separator) == 0
    ensures ReadInt(IntText(value, st, d, separator), st.base) == if st.unsigned then Magnitude(value, st) else value
  {
    var (spaces, zeros) := Padding(value, |DigitsOf(value, st)|, 0, st, d);
    LayoutReads(spaces, Sign(value, st, d.flags), Prefix(value, st, d.flags), zeros, Magnitude(value, st), st.base, st.up);
  }
}
