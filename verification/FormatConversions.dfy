/** What each character of a directive stands for, by the tables of section 7.19.6.1 of
    ISO/IEC 9899:1999 on a platform with 32-bit int and 64-bit long and pointers. */
module FormatConversions {
  import opened Arith
  import opened FormatSpec
  import opened FormatSpelling
  import opened FormatLaws
  import opened FormatStandard

  // ---------------------------------------------------------------- arguments

  /** How many values an integer argument with this length modifier can have. */
  function Values(l: Length): nat {
    match l
    case CharSize => 0x100
    case ShortSize => 0x1_0000
    case Plain => 0x1_0000_0000
    case LongDouble => 0x1_0000_0000
    case LongSize => 0x1_0000_0000_0000_0000
    case LongLong => 0x1_0000_0000_0000_0000
    case SizeT => 0x1_0000_0000_0000_0000
    case Ptrdiff => 0x1_0000_0000_0000_0000
    case Intmax => 0x1_0000_0000_0000_0000
  }

  /** r is what v becomes in a signed integer type with n values. */
  predicate AsSigned(v: int, r: int, n: int) {
    n > 0 && (v - r) % n == 0 && -n <= 2 * r < n
  }

  /** r is what v becomes in an unsigned integer type with n values. */
  predicate AsUnsigned(v: int, r: int, n: int) {
    n > 0 && (v - r) % n == 0 && 0 <= r < n
  }

  lemma PowersOfTwo()
    ensures Pow2(7) == 0x80 && Pow2(8) == 0x100 && Pow2(15) == 0x8000 && Pow2(16) == 0x1_0000
    ensures Pow2(31) == 0x8000_0000 && Pow2(32) == 0x1_0000_0000
    ensures Pow2(63) == 0x8000_0000_0000_0000 && Pow2(64) == 0x1_0000_0000_0000_0000
  {
    assert Pow2(4) == 0x10 && Pow2(8) == 0x100 && Pow2(12) == 0x1000 && Pow2(16) == 0x1_0000;
    assert Pow2(20) == 0x10_0000 && Pow2(24) == 0x100_0000 && Pow2(28) == 0x1000_0000 && Pow2(32) == 0x1_0000_0000;
    assert Pow2(36) == 0x10_0000_0000 && Pow2(40) == 0x100_0000_0000 && Pow2(44) == 0x1000_0000_0000;
    assert Pow2(48) == 0x1_0000_0000_0000 && Pow2(52) == 0x10_0000_0000_0000 && Pow2(56) == 0x100_0000_0000_0000;
    assert Pow2(60) == 0x1000_0000_0000_0000;
  }

  lemma SizesAgree(l: Length)
    ensures Pow2(Bits(l)) == Values(l) && 2 * Pow2(Bits(l) - 1) == Values(l)
  {
    PowersOfTwo();
  }

  /** There is one such value, in both cases. */
  lemma ReducedIsUnique(v: int, r: int, r': int, n: int)
    requires n > 0 && (v - r) % n == 0 && (v - r') % n == 0 && -n < r - r' < n
    ensures r == r'
  {
    var a, b := (v - r) / n, (v - r') / n;
    assert r - r' == n * (b - a);
    if b > a { MulLe(1, b - a, n); } else if a > b { MulLe(b - a, -1, n); }
  }

  lemma WrapReduces(v: int, n: int)
    requires n > 0
    ensures (v - v % n) % n == 0 && (v - (v % n - n)) % n == 0
  {
    var q := v / n;
    assert v - v % n == n * q;
    Multiple(q, n);
    assert v - (v % n - n) == n * (q + 1);
    Multiple(q + 1, n);
  }

  lemma Multiple(q: int, n: int)
    requires n > 0
    ensures n * q % n == 0
  {
    Distribute(n, q, 1);
    DivIs(n * q, n, q);
  }

  /** The argument of a signed conversion is the signed integer of its length. */
  lemma SignedArgument(v: int, c: char, l: Length, r: int)
    requires c == 'd' || c == 'i'
    requires AsSigned(v, r, Values(l))
    ensures IntValue(Int(v), c, l) == r
  {
    SizesAgree(l);
    WrapReduces(v, Values(l));
    ReducedIsUnique(v, IntValue(Int(v), c, l), r, Values(l));
  }

  lemma UnsignedArgument(v: int, c: char, l: Length, r: int)
    requires c != 'd' && c != 'i'
    requires AsUnsigned(v, r, Values(l))
    ensures IntValue(Int(v), c, l) == r && 0 <= r < 0x1_0000_0000_0000_0000
  {
    SizesAgree(l);
    WrapReduces(v, Values(l));
    ReducedIsUnique(v, IntValue(Int(v), c, l), r, Values(l));
  }

  // ---------------------------------------------------------------- integers

  /** "%d" and "%i" print the argument, as a signed integer of its length, in base 10; the
      text is the standard's unless it is zero at precision zero. */
  lemma SignedIsStandard(lc: Locale, d: Directive, v: int, r: int)
    requires d.precision >= -1 && !d.flags.quote && AsSigned(v, r, Values(d.length))
    ensures ConvText(lc, d, 'd', Int(v)) == Some(StandardText(r, Style(10, false, false), d))
            <==> !(r == 0 && d.precision == 0)
    ensures ConvText(lc, d, 'i', Int(v)) == ConvText(lc, d, 'd', Int(v))
  {
    SignedConversion(lc, d, v, r);
    IntegerIsStandard(r, Style(10, false, false), d, lc.separator);
    SignedMagnitude(r, Style(10, false, false));
  }

  lemma SignedConversion(lc: Locale, d: Directive, v: int, r: int)
    requires AsSigned(v, r, Values(d.length))
    ensures ConvText(lc, d, 'd', Int(v)) == Some(IntText(r, Style(10, false, false), d, lc.separator))
    ensures ConvText(lc, d, 'i', Int(v)) == Some(IntText(r, Style(10, false, false), d, lc.separator))
  {
    SignedArgument(v, 'd', d.length, r);
    SignedArgument(v, 'i', d.length, r);
  }

  lemma SignedMagnitude(r: int, st: Style)
    requires !st.unsigned
    ensures Magnitude(r, st) == 0 <==> r == 0
  {}

  /** "%u", "%o", "%x" and "%X" print the argument, as an unsigned integer of its length, in
      base 10, 8, 16 with small letters and 16 with capital letters. */
  lemma UnsignedIsStandard(lc: Locale, d: Directive, v: int, r: int)
    requires d.precision >= -1 && !d.flags.quote && AsUnsigned(v, r, Values(d.length))
    ensures ConvText(lc, d, 'u', Int(v)) == Some(StandardText(r, Style(10, true, false), d))
            <==> !(r == 0 && d.precision == 0)
    ensures ConvText(lc, d, 'o', Int(v)) == Some(StandardText(r, Style(8, true, false), d))
            <==> !(r == 0 && d.precision == 0 && !d.flags.num)
    ensures ConvText(lc, d, 'x', Int(v)) == Some(StandardText(r, Style(16, true, false), d))
            <==> !(r == 0 && d.precision == 0)
    ensures ConvText(lc, d, 'X', Int(v)) == Some(StandardText(r, Style(16, true, true), d))
            <==> !(r == 0 && d.precision == 0)
  {
    UnsignedText(lc, d, 'u', v, r, Style(10, true, false));
    UnsignedText(lc, d, 'o', v, r, Style(8, true, false));
    UnsignedText(lc, d, 'x', v, r, Style(16, true, false));
    UnsignedText(lc, d, 'X', v, r, Style(16, true, true));
  }

  lemma UnsignedText(lc: Locale, d: Directive, c: char, v: int, r: int, st: Style)
    requires d.precision >= -1 && !d.flags.quote && AsUnsigned(v, r, Values(d.length))
    requires (c == 'u' && st == Style(10, true, false)) || (c == 'o' && st == Style(8, true, false))
             || (c == 'x' && st == Style(16, true, false)) || (c == 'X' && st == Style(16, true, true))
    ensures ConvText(lc, d, c, Int(v)) == Some(StandardText(r, st, d))
            <==> !(r == 0 && d.precision == 0 && !(d.flags.num && st.base == 8))
  {
    UnsignedConversion(lc, d, c, v, r, st);
    IntegerIsStandard(r, st, d, lc.separator);
    UnsignedMagnitude(r, st);
  }

  lemma UnsignedConversion(lc: Locale, d: Directive, c: char, v: int, r: int, st: Style)
    requires AsUnsigned(v, r, Values(d.length))
    requires (c == 'u' && st == Style(10, true, false)) || (c == 'o' && st == Style(8, true, false))
             || (c == 'x' && st == Style(16, true, false)) || (c == 'X' && st == Style(16, true, true))
    ensures ConvText(lc, d, c, Int(v)) == Some(IntText(r, st, d, lc.separator)) && 0 <= r < UINTMAX
  {
    UnsignedArgument(v, c, d.length, r);
    UnsignedStyle(c, st);
  }

  lemma UnsignedStyle(c: char, st: Style)
    requires (c == 'u' && st == Style(10, true, false)) || (c == 'o' && st == Style(8, true, false))
             || (c == 'x' && st == Style(16, true, false)) || (c == 'X' && st == Style(16, true, true))
    ensures StyleOf(c) == st && TakesInt(c)
  {}

  lemma UnsignedMagnitude(r: int, st: Style)
    requires st.unsigned && 0 <= r < UINTMAX
    ensures Magnitude(r, st) == r
  {}

  /** "%p" prints an address as "%#lx" does, and the null pointer as "(nil)" in its field. */
  lemma PointerText(lc: Locale, d: Directive, v: int, r: int)
    requires d.precision >= -1 && !d.flags.quote && AsUnsigned(v, r, 0x1_0000_0000_0000_0000)
    ensures r != 0 ==> ConvText(lc, d, 'p', Int(v))
                       == Some(StandardText(r, Style(16, true, false), d.(flags := d.flags.(num := true))))
    ensures r == 0 ==> ConvText(lc, d, 'p', Int(v)) == Some(Field("(nil)", d))
    ensures ConvText(lc, d, 'p', Null) == Some(Field("(nil)", d))
  {
    var st, d' := Style(16, true, false), d.(flags := d.flags.(num := true));
    NullText(lc, d, v, r);
    if r != 0 {
      AddressText(lc, d, v, r);
      IntegerIsStandard(r, st, d', lc.separator);
      UnsignedMagnitude(r, st);
    }
  }

  lemma NullText(lc: Locale, d: Directive, v: int, r: int)
    requires AsUnsigned(v, r, 0x1_0000_0000_0000_0000)
    ensures r == 0 ==> ConvText(lc, d, 'p', Int(v)) == Some(Field("(nil)", d))
    ensures ConvText(lc, d, 'p', Null) == Some(Field("(nil)", d))
  {
    PointerArgument(v, r);
    PointerArgument(0, 0);
    NilText(d);
  }

  lemma AddressText(lc: Locale, d: Directive, v: int, r: int)
    requires AsUnsigned(v, r, 0x1_0000_0000_0000_0000) && r != 0
    ensures ConvText(lc, d, 'p', Int(v))
         == Some(IntText(r, Style(16, true, false), d.(flags := d.flags.(num := true)), lc.separator))
  {
    PointerArgument(v, r);
  }

  lemma NilText(d: Directive)
    ensures StrText("(nil)", d.width, -1, d.flags.minus) == Field("(nil)", d)
  {
    NilIsShown();
  }

  lemma PointerArgument(v: int, r: int)
    requires AsUnsigned(v, r, 0x1_0000_0000_0000_0000)
    ensures Wrap(v, 64) == r
  {
    PowersOfTwo();
    WrapReduces(v, 0x1_0000_0000_0000_0000);
    ReducedIsUnique(v, Wrap(v, 64), r, 0x1_0000_0000_0000_0000);
  }

  lemma NilIsShown()
    ensures Shown("(nil)", -1) == "(nil)"
  {
    ShownIsPrefix("(nil)", -1);
    assert Shown("(nil)", -1) == "(nil)"[..|Shown("(nil)", -1)|];
  }

  // ---------------------------------------------------------------- the rest

  /** "%s" prints a null pointer as the string "(null)". */
  lemma NullString(lc: Locale, d: Directive)
    ensures ConvText(lc, d, 's', Null) == ConvText(lc, d, 's', Text("(null)"))
  {}

  /** The digits of "%x" and "%X", and of all smaller bases. */
  lemma {:induction false} DigitsShown(v: nat, base: nat, up: bool)
    requires 2 <= base <= 16
    ensures forall i :: 0 <= i < |Digits(v, base, up)| ==>
              Digits(v, base, up)[i] in if up then "0123456789ABCDEF" else "0123456789abcdef"
    decreases v
  {
    DigitShown(v % base, up);
    if v >= base {
      QuotRem(v, base);
      DigitsShown(v / base, base, up);
    }
  }

  lemma DigitShown(d: nat, up: bool)
    requires d < 16
    ensures DigitChar(d, up) == if up then "0123456789ABCDEF"[d] else "0123456789abcdef"[d]
  {}

  /** "%%" prints a percent sign; "%n" and characters that are no conversion print nothing. */
  lemma OtherText(lc: Locale, d: Directive, c: char, a: Arg)
    ensures ConvText(lc, d, '%', a) == Some(['%'])
    ensures c !in "diouxXaAeEfFgGcsp%" ==> ConvText(lc, d, c, a) == Some([])
  {}

  /** Exactly the conversions that have an argument take one; the argument of "*" is an int,
      and a negative width stands for a '-' flag and a width, a negative precision for none. */
  lemma ArgumentsTaken(d: Directive, c: char, v: int, r: int)
    requires AsSigned(v, r, 0x1_0000_0000)
    ensures Consumes(c) <==> c in "diouxXaAeEfFgGcspn"
    ensures WithPrecision(d, Star, [Int(v)]).precision == if r < 0 then -1 else r
    ensures var w := WithWidth(d, Star, [Int(v)]);
            w.width == (if r < 0 then -r else r) && (w.flags.minus <==> d.flags.minus || r < 0)
  {
    SignedArgument(v, 'd', Plain, r);
  }

  lemma FlagMeans(f: Flags, c: char)
    requires c in "-+ #0'"
    ensures SetFlag(f, c)
         == Flags(f.minus || c == '-', f.plus || c == '+', f.space || c == ' ',
                  f.num || c == '#', f.zero || c == '0', f.quote || c == '\'')
  {}

  lemma InRest(x: char, s: seq<char>)
    requires s != []
    ensures x in s <==> x == s[0] || x in s[1..]
  {}

  /** Each flag character sets its flag. */
  lemma {:induction false} FlagsMean(f: Flags, flags: seq<char>)
    requires forall k :: 0 <= k < |flags| ==> flags[k] in "-+ #0'"
    ensures SetFlags(f, flags)
         == Flags(f.minus || '-' in flags, f.plus || '+' in flags, f.space || ' ' in flags,
                  f.num || '#' in flags, f.zero || '0' in flags, f.quote || '\'' in flags)
    decreases |flags|
  {
    if flags != [] {
      assert flags[0] in "-+ #0'";
      FlagMeans(f, flags[0]);
      FlagsMean(SetFlag(f, flags[0]), flags[1..]);
      forall x ensures x in flags <==> x == flags[0] || x in flags[1..] {
        InRest(x, flags);
      }
    }
  }
}
