/** Strings: decimal numerals, joining, and concatenation. */
module Text {

  function Digit(d: nat): char
    requires d < 10
  {
    ('0' as int + d) as char
  }

  /** The decimal numeral of a natural number, without leading zeros. */
  function Decimal(n: nat): string {
    if n < 10 then [Digit(n)] else Decimal(n / 10) + [Digit(n % 10)]
  }

  /** The number a text of digits stands for. */
  function Value(digits: string): int {
    if |digits| == 0 then 0 else Value(digits[..|digits| - 1]) * 10 + (digits[|digits| - 1] as int - '0' as int)
  }

  /** A numeral consists of digits, has no leading zero unless it is zero, and stands for its number. */
  lemma {:induction false} DecimalMeaning(n: nat)
    ensures Value(Decimal(n)) == n
    ensures |Decimal(n)| > 0 && (Decimal(n)[0] == '0' <==> n == 0)
    ensures forall i :: 0 <= i < |Decimal(n)| ==> '0' <= Decimal(n)[i] <= '9'
  {
    var s := Decimal(n);
    if n >= 10 {
      DecimalMeaning(n / 10);
      assert s[..|s| - 1] == Decimal(n / 10);
    } else {
      assert s[..0] == "";
    }
  }

  /** The decimal numeral of an integer, as strconv.FormatInt(n, 10) and the %d verb print it. */
  function Numeral(n: int): string {
    if n < 0 then "-" + Decimal(-n) else Decimal(n)
  }

  lemma DecimalDigits(n: nat)
    ensures |Decimal(n)| > 0
    ensures forall i :: 0 <= i < |Decimal(n)| ==> '0' <= Decimal(n)[i] <= '9'
  {
  }

  lemma {:induction false} DecimalInjective(m: nat, n: nat)
    requires Decimal(m) == Decimal(n)
    ensures m == n
  {
    var s, t := Decimal(m), Decimal(n);
    DecimalDigits(m / 10);
    DecimalDigits(n / 10);
    assert s[|s| - 1] == Digit(m % 10) && t[|t| - 1] == Digit(n % 10);
    if m >= 10 && n >= 10 {
      assert s[..|s| - 1] == Decimal(m / 10) && t[..|t| - 1] == Decimal(n / 10);
      DecimalInjective(m / 10, n / 10);
    }
  }

  lemma NumeralSign(n: int)
    ensures |Numeral(n)| > 0
    ensures n < 0 <==> Numeral(n)[0] == '-'
    ensures n < 0 ==> Numeral(n)[1..] == Decimal(-n)
    ensures forall i :: 0 <= i < |Numeral(n)| ==> Numeral(n)[i] == '-' || '0' <= Numeral(n)[i] <= '9'
  {
    DecimalDigits(if n < 0 then -n else n);
  }

  lemma NumeralInjective(m: int, n: int)
    requires Numeral(m) == Numeral(n)
    ensures m == n
  {
    NumeralSign(m);
    NumeralSign(n);
    if m < 0 {
      DecimalInjective(-m, -n);
    } else {
      DecimalInjective(m, n);
    }
  }

  /** strings.Join. */
  function Join(parts: seq<string>, sep: string): string {
    if |parts| == 0 then "" else
    if |parts| == 1 then parts[0] else
    Join(parts[..|parts| - 1], sep) + sep + parts[|parts| - 1]
  }

  /** Texts one after the other, each but the first after a separator. */
  function Separated(parts: seq<string>, sep: string): string {
    if |parts| == 0 then "" else parts[0] + Following(parts[1..], sep)
  }

  function Following(parts: seq<string>, sep: string): string {
    if |parts| == 0 then "" else sep + parts[0] + Following(parts[1..], sep)
  }

  lemma {:induction false} FollowingSnoc(parts: seq<string>, last: string, sep: string)
    ensures Following(parts + [last], sep) == Following(parts, sep) + sep + last
  {
    if |parts| == 0 {
      assert (parts + [last])[1..] == [];
      assert sep + last + "" == "" + sep + last;
    } else {
      FollowingSnoc(parts[1..], last, sep);
      assert (parts + [last])[1..] == parts[1..] + [last];
    }
  }

  lemma {:induction false} JoinSeparates(parts: seq<string>, sep: string)
    ensures Join(parts, sep) == Separated(parts, sep)
  {
    if |parts| == 0 {
    } else if |parts| == 1 {
      assert parts[0] + "" == parts[0];
    } else {
      var init, last := parts[..|parts| - 1], parts[|parts| - 1];
      JoinSeparates(init, sep);
      FollowingSnoc(init[1..], last, sep);
      assert parts[1..] == init[1..] + [last];
      assert init[0] + (Following(init[1..], sep) + sep + last) == (init[0] + Following(init[1..], sep)) + sep + last;
    }
  }

  /** strings.HasPrefix and strings.HasSuffix. */
  predicate HasPrefix(s: string, p: string) {
    |p| <= |s| && s[..|p|] == p
  }

  predicate HasSuffix(s: string, p: string) {
    |p| <= |s| && s[|s| - |p|..] == p
  }
}
