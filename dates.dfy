/// Calendar dates as `Time#to_date` yields them, their `strftime("%Y-%m-%d")`
/// form (the extended calendar-date format of ISO 8601), and a parser for
/// that form which inverts the formatter on four-digit years.
module Dates {
  import opened Decimal
  import opened RubyValues

  type Month = m: int | 1 <= m <= 12 witness 1
  type Day = d: int | 1 <= d <= 31 witness 1

  datatype Date = Date(year: int, month: Month, day: Day)

  /** `%Y`: the year padded to at least four digits; a negative year prints
      its sign before four padded digits. */
  function Year(y: int): string {
    if y >= 0 then ZeroPad(y, 4) else "-" + ZeroPad(-y, 4)
  }

  /** `date.strftime("%Y-%m-%d")`. */
  function Strftime(d: Date): string {
    Year(d.year) + "-" + ZeroPad(d.month, 2) + "-" + ZeroPad(d.day, 2)
  }

  /** The shape `\d{4}-\d{2}-\d{2}`. */
  predicate IsYmd(s: string) {
    && |s| == 10
    && s[4] == '-' && s[7] == '-'
    && AllDigits(s[..4]) && AllDigits(s[5..7]) && AllDigits(s[8..])
  }

  /** Reads a `YYYY-MM-DD` string back into a date; `None` for anything else. */
  function ParseYmd(s: string): Option<Date> {
    if IsYmd(s) then
      var y, m, d := Value(s[..4]), Value(s[5..7]), Value(s[8..]);
      if 1 <= m <= 12 && 1 <= d <= 31 then Some(Date(y, m, d)) else None
    else None
  }

  lemma Pow10Values()
    ensures Pow10(2) == 100 && Pow10(4) == 10000
  {
  }

  /** For years 0 through 9999 the formatted date has the shape
      `\d{4}-\d{2}-\d{2}` and its three fields are the padded year, month and day. */
  lemma StrftimeShape(d: Date)
    requires 0 <= d.year < 10000
    ensures IsYmd(Strftime(d))
    ensures Strftime(d)[..4] == ZeroPad(d.year, 4)
    ensures Strftime(d)[5..7] == ZeroPad(d.month, 2)
    ensures Strftime(d)[8..] == ZeroPad(d.day, 2)
  {
    Pow10Values();
    ZeroPadWidth(d.year, 4);
    ZeroPadWidth(d.month, 2);
    ZeroPadWidth(d.day, 2);
    ZeroPadDenotes(d.year, 4);
    ZeroPadDenotes(d.month, 2);
    ZeroPadDenotes(d.day, 2);
    var y, m, dd := ZeroPad(d.year, 4), ZeroPad(d.month, 2), ZeroPad(d.day, 2);
    var front := y + "-";
    var middle := m + "-";
    assert Strftime(d) == front + middle + dd;
    assert |front| == 5 && |middle| == 3;
    SliceOfConcat(front, middle, dd);
    assert (front + middle + dd)[5..7] == middle[..2] == m;
  }

  /** The three parts of a concatenation sit at their own offsets. */
  lemma SliceOfConcat(a: string, b: string, c: string)
    ensures (a + b + c)[..|a|] == a
    ensures (a + b + c)[|a|..|a| + |b|] == b
    ensures (a + b + c)[|a| + |b|..] == c
  {
  }

  /** Parsing undoes formatting for four-digit years. */
  lemma ParseStrftime(d: Date)
    requires 0 <= d.year < 10000
    ensures ParseYmd(Strftime(d)) == Some(d)
  {
    StrftimeShape(d);
    ZeroPadDenotes(d.year, 4);
    ZeroPadDenotes(d.month, 2);
    ZeroPadDenotes(d.day, 2);
  }

  /** Formatting undoes parsing: a string the parser accepts is exactly the
      formatted form of the date it yields. */
  lemma StrftimeParse(s: string)
    requires ParseYmd(s).Some?
    ensures 0 <= ParseYmd(s).value.year < 10000
    ensures Strftime(ParseYmd(s).value) == s
  {
    var d := ParseYmd(s).value;
    Pow10Values();
    ZeroPadOfDigits(s[..4]);
    ZeroPadOfDigits(s[5..7]);
    ZeroPadOfDigits(s[8..]);
    ValueBelowPow10(s[..4]);
    assert s == s[..4] + "-" + s[5..7] + "-" + s[8..];
  }
}
