/** `formatDate`: the `YYYY-MM-DD` text of a date, and the month prefix
    (its first seven characters) that the purge loops test with `startsWith`.
    The maps of the model are keyed by `DateKey`; the lemmas here show that
    doing so loses nothing: the text is one-to-one, and "starts with the
    month prefix" is exactly "same year and month". */
module DateFormat {

  import opened Calendar

  function Digit(n: int): (c: char)
    requires 0 <= n < 10
    ensures '0' <= c <= '9'
  {
    (48 + n) as char
  }

  function Pad2(n: int): (s: string)
    requires 0 <= n < 100
    ensures |s| == 2
  {
    [Digit(n / 10), Digit(n % 10)]
  }

  function Pad4(n: int): (s: string)
    requires 0 <= n < 10000
    ensures |s| == 4
  {
    Pad2(n / 100) + Pad2(n % 100)
  }

  /** Dates whose ISO text has the four-digit year form. */
  predicate Formattable(k: DateKey)
  {
    0 <= k.year <= 9999 && 0 <= k.month < 12 && 1 <= k.day <= 31
  }

  function FormatDate(k: DateKey): (s: string)
    requires Formattable(k)
    ensures |s| == 10 && s[4] == '-' && s[7] == '-'
  {
    Pad4(k.year) + "-" + Pad2(k.month + 1) + "-" + Pad2(k.day)
  }

  /** `formatDate(currentDate).substring(0, 7)`: `YYYY-MM`. */
  function MonthPrefix(y: int, m: int): (s: string)
    requires 0 <= y <= 9999 && 0 <= m < 12
    ensures |s| == 7
  {
    Pad4(y) + "-" + Pad2(m + 1)
  }

  predicate StartsWith(s: string, p: string)
  {
    |p| <= |s| && s[..|p|] == p
  }

  lemma Pad2Injective(a: int, b: int)
    requires 0 <= a < 100 && 0 <= b < 100
    ensures Pad2(a) == Pad2(b) ==> a == b
  {
    if Pad2(a) == Pad2(b) {
      assert Pad2(a)[0] == Pad2(b)[0] && Pad2(a)[1] == Pad2(b)[1];
      assert a / 10 == b / 10 && a % 10 == b % 10;
    }
  }

  lemma Pad4Injective(a: int, b: int)
    requires 0 <= a < 10000 && 0 <= b < 10000
    ensures Pad4(a) == Pad4(b) ==> a == b
  {
    if Pad4(a) == Pad4(b) {
      assert Pad4(a)[..2] == Pad2(a / 100) && Pad4(b)[..2] == Pad2(b / 100);
      assert Pad4(a)[2..] == Pad2(a % 100) && Pad4(b)[2..] == Pad2(b % 100);
      Pad2Injective(a / 100, b / 100);
      Pad2Injective(a % 100, b % 100);
    }
  }

  /** The prefix of a date's text is the prefix of its own month. */
  lemma FormatStartsWithItsMonth(k: DateKey)
    requires Formattable(k)
    ensures FormatDate(k)[..7] == MonthPrefix(k.year, k.month)
  {
    assert FormatDate(k) == MonthPrefix(k.year, k.month) + "-" + Pad2(k.day);
  }

  /** `key.startsWith(prefix)` holds exactly for the keys of that month. */
  lemma PrefixIffSameMonth(k: DateKey, y: int, m: int)
    requires Formattable(k) && 0 <= y <= 9999 && 0 <= m < 12
    ensures StartsWith(FormatDate(k), MonthPrefix(y, m)) <==> k.year == y && k.month == m
  {
    FormatStartsWithItsMonth(k);
    var p, q := MonthPrefix(k.year, k.month), MonthPrefix(y, m);
    if p == q {
      assert p[..4] == Pad4(k.year) && q[..4] == Pad4(y);
      assert p[5..] == Pad2(k.month + 1) && q[5..] == Pad2(m + 1);
      Pad4Injective(k.year, y);
      Pad2Injective(k.month + 1, m + 1);
    }
  }

  /** Distinct dates have distinct keys. */
  lemma FormatInjective(a: DateKey, b: DateKey)
    requires Formattable(a) && Formattable(b)
    ensures FormatDate(a) == FormatDate(b) ==> a == b
  {
    if FormatDate(a) == FormatDate(b) {
      FormatStartsWithItsMonth(a);
      FormatStartsWithItsMonth(b);
      PrefixIffSameMonth(a, b.year, b.month);
      assert FormatDate(a)[8..] == Pad2(a.day) && FormatDate(b)[8..] == Pad2(b.day);
      Pad2Injective(a.day, b.day);
    }
  }
}
