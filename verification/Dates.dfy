/** Dates as the service writes them (DateLayout in internal/model/fingerprint.go). */
module Dates {

  datatype RawDate = Date(year: nat, month: nat, day: nat)

  predicate Calendar(d: RawDate) {
    d.year <= 9999 && 1 <= d.month <= 12 && 1 <= d.day <= 31
  }

  /** A date as the API accepts it: four-digit year, in UTC. */
  type Date = d: RawDate | Calendar(d) witness Date(2026, 1, 1)

  function Digit(n: nat): char {
    "0123456789"[n % 10]
  }

  function FormatDate(d: Date): string {
    [Digit(d.year / 1000), Digit(d.year / 100), Digit(d.year / 10), Digit(d.year), '-',
     Digit(d.month / 10), Digit(d.month), '-', Digit(d.day / 10), Digit(d.day)]
  }

  function DigitValue(c: char): nat {
    if '0' <= c <= '9' then c as nat - '0' as nat else 0
  }

  /** The number a run of digits spells. */
  function Number(s: string): nat {
    if s == "" then 0 else 10 * Number(s[..|s| - 1]) + DigitValue(s[|s| - 1])
  }

  lemma OneMoreDigit(s: string, n: nat)
    requires Number(s) == n / 10
    ensures Number(s + [Digit(n)]) == n
  {
  }

  lemma TwoDigits(n: nat)
    requires n <= 99
    ensures Number([Digit(n / 10), Digit(n)]) == n
  {
    OneMoreDigit("", n / 10);
    assert "" + [Digit(n / 10)] == [Digit(n / 10)];
    OneMoreDigit([Digit(n / 10)], n);
    assert [Digit(n / 10)] + [Digit(n)] == [Digit(n / 10), Digit(n)];
  }

  lemma FourDigits(n: nat)
    requires n <= 9999
    ensures Number([Digit(n / 1000), Digit(n / 100), Digit(n / 10), Digit(n)]) == n
  {
    assert n / 1000 == n / 100 / 10 && n / 100 == n / 10 / 10;
    TwoDigits(n / 100);
    var head := [Digit(n / 1000), Digit(n / 100)];
    OneMoreDigit(head, n / 10);
    OneMoreDigit(head + [Digit(n / 10)], n);
    assert head + [Digit(n / 10)] + [Digit(n)] == [Digit(n / 1000), Digit(n / 100), Digit(n / 10), Digit(n)];
  }

  lemma SplitDate(d: Date)
    ensures FormatDate(d)[..4] == [Digit(d.year / 1000), Digit(d.year / 100), Digit(d.year / 10), Digit(d.year)]
    ensures FormatDate(d)[5..7] == [Digit(d.month / 10), Digit(d.month)]
    ensures FormatDate(d)[8..] == [Digit(d.day / 10), Digit(d.day)]
  {
  }

  lemma DigitIs(n: nat)
    ensures '0' <= Digit(n) <= '9'
  {
  }

  /** Four digits of year, two of month and two of day, dashes between them. */
  lemma DateIs(d: Date)
    ensures var s := FormatDate(d);
            && |s| == 10 && s[4] == '-' && s[7] == '-'
            && (forall i | 0 <= i < 10 && i != 4 && i != 7 :: '0' <= s[i] <= '9')
            && Number(s[..4]) == d.year && Number(s[5..7]) == d.month && Number(s[8..]) == d.day
  {
    hide Number, DigitValue, Digit;
    FourDigits(d.year);
    TwoDigits(d.month);
    TwoDigits(d.day);
    SplitDate(d);
    forall n: nat ensures '0' <= Digit(n) <= '9' {
      DigitIs(n);
    }
  }

  /** Distinct dates are written differently. */
  lemma DateIsExact(d: Date, e: Date)
    ensures FormatDate(d) == FormatDate(e) <==> d == e
  {
    var (f, g) := (FormatDate(d), FormatDate(e));
    if f == g {
      assert f[..4] == g[..4] && f[5..7] == g[5..7] && f[8..] == g[8..];
      FourDigits(d.year);
      FourDigits(e.year);
      TwoDigits(d.month);
      TwoDigits(e.month);
      TwoDigits(d.day);
      TwoDigits(e.day);
      SplitDate(d);
      SplitDate(e);
    }
  }
}
