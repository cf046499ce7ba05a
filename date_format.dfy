/** The calendar date of `NOW` and its `strftime("%Y-%m-%d")` rendering,
    which the snapshot handler appends to the snapshot-name prefix. */
module DateFormat {
  import opened Values

  function DaysInMonth(year: int, month: int): int
  {
    if month == 2 then
      (if (year % 4 == 0 && year % 100 != 0) || year % 400 == 0 then 29 else 28)
    else if month in {4, 6, 9, 11} then 30
    else 31
  }

  /** A date as Python's `datetime` admits it: years 1 to 9999. */
  datatype Date = Date(year: int, month: int, day: int) {
    predicate Valid()
    {
      1 <= year <= 9999 && 1 <= month <= 12 && 1 <= day <= DaysInMonth(year, month)
    }
  }

  /** The dates `datetime` can hold. */
  type CalendarDate = d: Date | d.Valid() witness Date(1970, 1, 1)

  predicate IsDigit(c: char)
  {
    '0' <= c <= '9'
  }

  function DigitChar(d: int): (c: char)
    requires 0 <= d <= 9
    ensures IsDigit(c) && c as int - '0' as int == d
  {
    ('0' as int + d) as char
  }

  function DigitValue(c: char): int
  {
    c as int - '0' as int
  }

  /** A number below 100 as two zero-padded decimal digits. */
  function TwoDigits(n: int): (s: string)
    requires 0 <= n < 100
    ensures |s| == 2 && IsDigit(s[0]) && IsDigit(s[1])
    ensures 10 * DigitValue(s[0]) + DigitValue(s[1]) == n
  {
    [DigitChar(n / 10), DigitChar(n % 10)]
  }

  /** A number below 10000 as four zero-padded decimal digits. */
  function FourDigits(n: int): (s: string)
    requires 0 <= n < 10000
    ensures |s| == 4 && forall i :: 0 <= i < 4 ==> IsDigit(s[i])
    ensures 100 * (10 * DigitValue(s[0]) + DigitValue(s[1])) + 10 * DigitValue(s[2]) + DigitValue(s[3]) == n
  {
    TwoDigits(n / 100) + TwoDigits(n % 100)
  }

  /** `date.strftime("%Y-%m-%d")`. */
  function Strftime(d: Date): (s: string)
    requires d.Valid()
    ensures |s| == 10 && s[4] == '-' && s[7] == '-'
    ensures forall i :: 0 <= i < 10 && i != 4 && i != 7 ==> IsDigit(s[i])
  {
    FourDigits(d.year) + "-" + TwoDigits(d.month) + "-" + TwoDigits(d.day)
  }

  /** The inverse of Strftime: reads back a `YYYY-MM-DD` string. */
  function ParseDate(s: string): (r: Option<Date>)
    ensures r.Some? ==> r.value.Valid()
  {
    if |s| == 10 && s[4] == '-' && s[7] == '-'
       && (forall i :: 0 <= i < 10 && i != 4 && i != 7 ==> IsDigit(s[i]))
    then
      var year := 1000 * DigitValue(s[0]) + 100 * DigitValue(s[1]) + 10 * DigitValue(s[2]) + DigitValue(s[3]);
      var month := 10 * DigitValue(s[5]) + DigitValue(s[6]);
      var day := 10 * DigitValue(s[8]) + DigitValue(s[9]);
      var d := Date(year, month, day);
      if d.Valid() then Some(d) else None
    else None
  }

  /** Formatting loses nothing: the rendered date reads back as the date. */
  lemma ParseStrftime(d: Date)
    requires d.Valid()
    ensures ParseDate(Strftime(d)) == Some(d)
  {
    var s := Strftime(d);
    var y, m, dd := FourDigits(d.year), TwoDigits(d.month), TwoDigits(d.day);
    assert s == y + "-" + m + "-" + dd;
    assert s[0..4] == y && s[5] == m[0] && s[6] == m[1] && s[8] == dd[0] && s[9] == dd[1];
    assert 1000 * DigitValue(s[0]) + 100 * DigitValue(s[1]) + 10 * DigitValue(s[2]) + DigitValue(s[3]) == d.year by {
      assert s[0] == y[0] && s[1] == y[1] && s[2] == y[2] && s[3] == y[3];
    }
  }

  /** Two days render the same way only if they are the same day. */
  lemma StrftimeInjective(d1: Date, d2: Date)
    requires d1.Valid() && d2.Valid()
    ensures Strftime(d1) == Strftime(d2) <==> d1 == d2
  {
    if Strftime(d1) == Strftime(d2) {
      ParseStrftime(d1);
      ParseStrftime(d2);
    }
  }

  /** `str(DBSNAPSHOTID) + NOW.strftime("%Y-%m-%d")`. */
  function SnapshotIdentifier(prefix: string, now: Date): (id: string)
    requires now.Valid()
    ensures |id| == |prefix| + 10 && id[..|prefix|] == prefix
  {
    prefix + Strftime(now)
  }

  /** The date can be read back from the tail of the identifier. */
  lemma SnapshotIdentifierDate(prefix: string, now: Date)
    requires now.Valid()
    ensures ParseDate(SnapshotIdentifier(prefix, now)[|prefix|..]) == Some(now)
  {
    ParseStrftime(now);
    assert (prefix + Strftime(now))[|prefix|..] == Strftime(now);
  }

  /** The identifier is a deterministic, collision-free name for a
      (prefix, day) pair: a repeated same-day run reuses the name, and a
      different prefix or a different day always gives a different name. */
  lemma {:induction false} SnapshotIdentifierInjective(p1: string, d1: Date, p2: string, d2: Date)
    requires d1.Valid() && d2.Valid()
    ensures SnapshotIdentifier(p1, d1) == SnapshotIdentifier(p2, d2) <==> p1 == p2 && d1 == d2
  {
    var a, b := SnapshotIdentifier(p1, d1), SnapshotIdentifier(p2, d2);
    SnapshotIdentifierDate(p1, d1);
    SnapshotIdentifierDate(p2, d2);
    if a == b {
      assert |p1| == |p2|;
      assert p1 == a[..|p1|] == b[..|p2|] == p2;
      assert Some(d1) == ParseDate(a[|p1|..]) == ParseDate(b[|p2|..]) == Some(d2);
    }
  }
}
