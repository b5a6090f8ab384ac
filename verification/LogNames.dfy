/** The file names of the log sink, src/core/logging.cpp:27-34 and 68-72. */
module LogNames {
  function Digit(d: nat): char
    requires d < 10
  {
    "0123456789"[d]
  }

  /** std::to_string of an unsigned number. */
  function Decimal(n: nat): string {
    if n < 10 then [Digit(n)] else Decimal(n / 10) + [Digit(n % 10)]
  }

  /** The file of the given age: the base file itself, then base.1, base.2, ... */
  function CalcFilename(base: string, index: nat): string {
    if index == 0 then base else base + "." + Decimal(index)
  }

  predicate IsDigit(c: char) { '0' <= c <= '9' }

  /** What GetLogFilename yields: the digits of a date and ".log". */
  predicate IsDateName(name: string) {
    |name| >= 4 && name[|name| - 4..] == ".log" && forall i :: 0 <= i < |name| - 4 ==> IsDigit(name[i])
  }

  lemma {:induction false} DecimalInjective(m: nat, n: nat)
    requires Decimal(m) == Decimal(n)
    ensures m == n
  {
    var a, b := Decimal(m), Decimal(n);
    assert a[|a| - 1] == Digit(m % 10) && b[|b| - 1] == Digit(n % 10);
    DigitInjective(m % 10, n % 10);
    DecimalLength(m);
    DecimalLength(n);
    if m >= 10 {
      assert a[..|a| - 1] == Decimal(m / 10) && b[..|b| - 1] == Decimal(n / 10);
      DecimalInjective(m / 10, n / 10);
    }
  }

  lemma {:induction false} DecimalLength(n: nat)
    ensures |Decimal(n)| >= 1 && (n >= 10 <==> |Decimal(n)| >= 2)
  {
    if n >= 10 {
      DecimalLength(n / 10);
    }
  }

  lemma DigitInjective(d: nat, e: nat)
    requires d < 10 && e < 10 && Digit(d) == Digit(e)
    ensures d == e
  {
  }

  /** The number a string of decimal digits stands for. */
  function Value(digits: string): int {
    if digits == [] then 0
    else 10 * Value(digits[..|digits| - 1]) + (digits[|digits| - 1] as int - '0' as int)
  }

  /** Index n is written as the decimal digits of n, without a leading zero. */
  lemma {:induction false} DecimalIsValue(n: nat)
    ensures Value(Decimal(n)) == n && (forall i :: 0 <= i < |Decimal(n)| ==> IsDigit(Decimal(n)[i]))
    ensures n > 0 ==> Decimal(n)[0] != '0'
  {
    DecimalLength(n);
    if n >= 10 {
      var d := Decimal(n);
      DecimalIsValue(n / 10);
      DecimalLength(n / 10);
      assert d[..|d| - 1] == Decimal(n / 10) && d[|d| - 1] == Digit(n % 10);
    } else {
      assert Decimal(n) == [Digit(n)] && Decimal(n)[..0] == [];
    }
  }

  /** The file of age 0 is the base file; that of age n > 0 is the base name, a dot and n. */
  lemma FilenameIs(base: string, n: nat)
    ensures n == 0 ==> CalcFilename(base, n) == base
    ensures n > 0 ==> |CalcFilename(base, n)| > |base| + 1 && CalcFilename(base, n)[..|base| + 1] == base + "." &&
                      Value(CalcFilename(base, n)[|base| + 1..]) == n
  {
    DecimalIsValue(n);
    DecimalLength(n);
    if n > 0 {
      assert CalcFilename(base, n) == (base + ".") + Decimal(n);
    }
  }

  /** The files of one base name are all different. */
  lemma IndexInjective(base: string, i: nat, j: nat)
    requires CalcFilename(base, i) == CalcFilename(base, j)
    ensures i == j
  {
    DecimalLength(i);
    DecimalLength(j);
    if i > 0 && j > 0 {
      var tail := |base| + 1;
      assert CalcFilename(base, i)[tail..] == Decimal(i) && CalcFilename(base, j)[tail..] == Decimal(j);
      DecimalInjective(i, j);
    }
  }

  lemma DateNameChars(name: string, i: nat)
    requires IsDateName(name) && i <= |name| - 4
    ensures if i < |name| - 4 then IsDigit(name[i]) else name[i] == '.'
  {
    if i == |name| - 4 {
      assert name[|name| - 4..][0] == '.';
    }
  }

  lemma FilenameStartsWithBase(base: string, i: nat)
    ensures |CalcFilename(base, i)| >= |base| && CalcFilename(base, i)[..|base|] == base
  {
  }

  /** No file of one date is a file of another, or of another age: the first dot of a name
      ends the digits of its date. */
  lemma FilenameInjective(a: string, i: nat, b: string, j: nat)
    requires IsDateName(a) && IsDateName(b) && CalcFilename(a, i) == CalcFilename(b, j)
    ensures a == b && i == j
  {
    SameLength(a, i, b, j);
    FilenameStartsWithBase(a, i);
    FilenameStartsWithBase(b, j);
    IndexInjective(a, i, j);
  }

  lemma SameLength(a: string, i: nat, b: string, j: nat)
    requires IsDateName(a) && IsDateName(b) && CalcFilename(a, i) == CalcFilename(b, j)
    ensures |a| == |b|
  {
    var name := CalcFilename(a, i);
    FilenameStartsWithBase(a, i);
    FilenameStartsWithBase(b, j);
    var k := if |a| <= |b| then |a| - 4 else |b| - 4;
    DateNameChars(a, k);
    DateNameChars(b, k);
    assert name[k] == a[k] && name[k] == b[k];
  }
}
