/**
 * Correlation-code generation (`CusEncryptionService.generateCus`): the base
 * string, a hyphen and the clock reading in decimal. The clock reading
 * (`Date.now()`) is a parameter.
 */
module CusEncryption {
  import opened Decimal

  const Separator: char := '-'

  /** `generateCus(base)` at clock reading `now`. */
  function GenerateCus(base: string, now: nat): (cus: string)
    ensures |cus| == |base| + 1 + |ToDecimal(now)|
    ensures cus[..|base| + 1] == base + [Separator]
    ensures var suffix := cus[|base| + 1..];
      |suffix| > 0 && AllDigits(suffix) && ValueOf(suffix) == now
  {
    base + [Separator] + ToDecimal(now)
  }

  /** For one base, equal codes come from equal clock readings and vice versa. */
  lemma GenerateCusInjective(base: string, a: nat, b: nat)
    ensures GenerateCus(base, a) == GenerateCus(base, b) <==> a == b
  {
    if GenerateCus(base, a) == GenerateCus(base, b) {
      var n := |base| + 1;
      assert GenerateCus(base, a)[n..] == GenerateCus(base, b)[n..];
    }
  }

  /** JavaScript's `s.split(sep)` for a one-character separator. */
  function Split(s: string, sep: char): (parts: seq<string>)
    ensures |parts| > 0
  {
    if s == [] then [""]
    else
      var rest := Split(s[1..], sep);
      if s[0] == sep then [""] + rest else [[s[0]] + rest[0]] + rest[1..]
  }

  /** A string without the separator splits into itself. */
  lemma {:induction false} SplitWithoutSeparator(s: string, sep: char)
    requires sep !in s
    ensures Split(s, sep) == [s]
  {
    if s != [] {
      SplitWithoutSeparator(s[1..], sep);
      assert [s[0]] + s[1..] == s;
    }
  }

  /** Splitting at the first separator: the part before it comes off whole. */
  lemma {:induction false} SplitAtFirst(a: string, sep: char, b: string)
    requires sep !in a
    ensures Split(a + [sep] + b, sep) == [a] + Split(b, sep)
  {
    if a == [] {
      assert a + [sep] + b == [sep] + b;
      assert ([sep] + b)[1..] == b;
    } else {
      var s := a + [sep] + b;
      assert s[0] == a[0];
      assert s[1..] == a[1..] + [sep] + b;
      SplitAtFirst(a[1..], sep, b);
      assert [a[0]] + a[1..] == a;
    }
  }

  /**
   * When the base holds no hyphen, splitting the code at hyphens gives back
   * exactly the base and the digits of the clock reading.
   */
  lemma SplitGeneratedCus(base: string, now: nat)
    requires Separator !in base
    ensures Split(GenerateCus(base, now), Separator) == [base, ToDecimal(now)]
    ensures ValueOf(Split(GenerateCus(base, now), Separator)[1]) == now
  {
    SplitAtFirst(base, Separator, ToDecimal(now));
    NotInDigits(ToDecimal(now), Separator);
    SplitWithoutSeparator(ToDecimal(now), Separator);
  }
}
