/** Invoice dates as the listing shows and sorts them: a calendar date is
    displayed as dd/mm/yyyy, and the sort comparator turns that text into a
    yyyy/mm/dd key by splitting on '/', reversing the fields and joining
    them again, then parses the key back into a point in time. */
module Dates {

  import opened Outcomes
  import opened Strings

  /** A calendar date in the viewer's local time zone. */
  datatype Date = Date(day: nat, month: nat, year: nat)

  /** A date the browser can display: a month of the year and a day of a month. */
  predicate ValidDate(d: Date) {
    1 <= d.month <= 12 && 1 <= d.day <= 31
  }

  /** The "2-digit" rendering: a leading zero below ten. */
  function Pad2(n: nat): (s: string)
    ensures |s| >= 2
    ensures n < 100 ==> |s| == 2
    ensures n < 10 ==> s[0] == '0'
    ensures ParseDigits(s) == Some(n)
  {
    ParseDigitsOfDigits(n);
    if n < 10 then "0" + Digits(n)
    else
      assert Digits(n) == Digits(n / 10) + [DigitChar(n % 10)];
      Digits(n)
  }

  /** `toLocaleDateString("es-ES", { day: "2-digit", month: "2-digit",
      year: "numeric" })`: day, month and year joined by '/'. */
  function Display(d: Date): (s: string)
    ensures Split(s, '/') == [Pad2(d.day), Pad2(d.month), Digits(d.year)]
  {
    var fields := [Pad2(d.day), Pad2(d.month), Digits(d.year)];
    DigitsHaveNoSlash(fields);
    SplitJoin(fields, '/');
    Join(fields, '/')
  }

  lemma DigitsHaveNoSlash(fields: seq<string>)
    requires forall i, k | 0 <= i < |fields| && 0 <= k < |fields[i]| :: IsDigit(fields[i][k])
    ensures forall i | 0 <= i < |fields| :: '/' !in fields[i]
  {
  }

  /** `date.split('/').reverse().join('/')`: the comparator's sort key. */
  function SortKey(date: string): (key: string)
    ensures Split(key, '/') == Reverse(Split(date, '/'))
  {
    var fields := Reverse(Split(date, '/'));
    SplitJoin(fields, '/');
    Join(fields, '/')
  }

  /** Reversing the key's fields again gives the displayed date back. */
  lemma {:induction false} SortKeyTwice(date: string)
    ensures SortKey(SortKey(date)) == date
  {
    var fields := Split(date, '/');
    assert Reverse(Reverse(fields)) == fields;
    JoinSplit(date, '/');
  }

  /** `new Date(key).getTime()` for a year/month/day key, up to order: the
      three numeric fields read as the number yyyymmdd; None (NaN) for a key
      that is not three runs of digits separated by '/'. For month and day
      below one hundred this orders keys exactly as the timestamps of local
      midnight of those dates are ordered (see OrdinalIsChronological). */
  function KeyTime(key: string): (t: Option<int>)
    ensures t.Some? <==>
      var fields := Split(key, '/');
      |fields| == 3 && ParseDigits(fields[0]).Some? && ParseDigits(fields[1]).Some? && ParseDigits(fields[2]).Some?
    ensures '/' !in key ==> t.None?
  {
    var fields := Split(key, '/');
    if |fields| != 3 then None
    else
      assert '/' in key by {
        if '/' !in key { SplitJoin([key], '/'); }
      }
      match (ParseDigits(fields[0]), ParseDigits(fields[1]), ParseDigits(fields[2]))
      case (Some(y), Some(m), Some(d)) => Some(y * 10000 + m * 100 + d)
      case _ => None
  }

  /** The number the comparator reads for a calendar date. */
  function Ordinal(d: Date): int {
    d.year * 10000 + d.month * 100 + d.day
  }

  /** Reading the comparator's key of a displayed date gives the date's
      ordinal, for every date. */
  lemma DisplayKey(d: Date)
    ensures KeyTime(SortKey(Display(d))) == Some(Ordinal(d))
  {
    var key := Digits(d.year) + "/" + Pad2(d.month) + "/" + Pad2(d.day);
    calc {
      KeyTime(SortKey(Display(d)));
      { ReversedDisplay(d); }
      KeyTime(key);
      { ReadKey(d.year, d.month, d.day); }
      Some(Ordinal(d));
    }
  }

  /** The reversed display is the year, month and day joined by '/'. */
  lemma ReversedDisplay(d: Date)
    ensures SortKey(Display(d)) == Digits(d.year) + "/" + Pad2(d.month) + "/" + Pad2(d.day)
  {
    var dd, mm, yyyy := Pad2(d.day), Pad2(d.month), Digits(d.year);
    assert Split(Display(d), '/') == [dd, mm, yyyy];
    ReverseThree(dd, mm, yyyy);
    JoinThree(yyyy, mm, dd, '/');
  }

  /** A year/month/day key reads back as the number yyyymmdd. */
  lemma ReadKey(year: nat, month: nat, day: nat)
    ensures KeyTime(Digits(year) + "/" + Pad2(month) + "/" + Pad2(day)) == Some(year * 10000 + month * 100 + day)
  {
    var yyyy, mm, dd := Digits(year), Pad2(month), Pad2(day);
    var key := yyyy + "/" + mm + "/" + dd;
    JoinThree(yyyy, mm, dd, '/');
    assert Join([yyyy, mm, dd], '/') == key;
    DigitsHaveNoSlash([yyyy, mm, dd]);
    SplitJoin([yyyy, mm, dd], '/');
    assert Split(key, '/') == [yyyy, mm, dd];
    ParseDigitsOfDigits(year);
  }

  lemma ReverseThree(a: string, b: string, c: string)
    ensures Reverse([a, b, c]) == [c, b, a]
  {
  }

  lemma JoinThree(a: string, b: string, c: string, sep: char)
    ensures Join([a, b, c], sep) == a + [sep] + b + [sep] + c
  {
    assert [a, b, c][1..] == [b, c];
    assert [b, c][1..] == [c];
    assert Join([c], sep) == c;
    assert Join([b, c], sep) == b + [sep] + c;
    assert Join([a, b, c], sep) == a + [sep] + (b + [sep] + c);
  }

  /** Calendar order: earlier year, or same year and earlier month, or same
      year and month and an earlier or equal day. */
  predicate NotAfter(a: Date, b: Date) {
    a.year < b.year ||
    (a.year == b.year && (a.month < b.month || (a.month == b.month && a.day <= b.day)))
  }

  /** The comparator's ordinal orders valid dates chronologically. */
  lemma OrdinalIsChronological(a: Date, b: Date)
    requires ValidDate(a) && ValidDate(b)
    ensures Ordinal(a) <= Ordinal(b) <==> NotAfter(a, b)
  {
  }
}
