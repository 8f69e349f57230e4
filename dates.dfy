/**
 * The DD/MM/YYYY rendering that UploadSection (`getTodayFormatted`, the
 * file date) and ComplianceHistoryView (`formatDate`) each build from a
 * JavaScript `Date`: `getDate()` and `getMonth() + 1` padded to two digits,
 * `getFullYear()` as it is.
 */
module Dates {
  import opened Decimal

  /** The local calendar fields of a `Date`; `month` is zero-based like `getMonth()`. */
  datatype CivilDate = CivilDate(day: int, month: int, year: int)

  /** What `getDate()` and `getMonth()` can return. */
  predicate ValidDate(d: CivilDate) {
    1 <= d.day <= 31 && 0 <= d.month <= 11
  }

  function FormatDate(d: CivilDate): (r: string)
    requires ValidDate(d)
    ensures |r| >= 7 && r[2] == '/' && r[5] == '/'
    ensures r[..2] == TwoDigits(d.day) && r[3..5] == TwoDigits(d.month + 1)
    ensures r[6..] == IntToString(d.year)
  {
    PadStart2OfNat(d.day);
    PadStart2OfNat(d.month + 1);
    var dd := PadStart2(NatToString(d.day));
    var mm := PadStart2(NatToString(d.month + 1));
    assert dd == TwoDigits(d.day) && mm == TwoDigits(d.month + 1);
    Join(dd, mm, IntToString(d.year))
  }

  /** Three fields separated by slashes; `dd` and `mm` are two characters long. */
  function Join(dd: string, mm: string, yyyy: string): (r: string)
    requires |dd| == 2 && |mm| == 2
    ensures |r| == 6 + |yyyy| && r[2] == '/' && r[5] == '/'
    ensures r[..2] == dd && r[3..5] == mm && r[6..] == yyyy
  {
    dd + "/" + mm + "/" + yyyy
  }

  /** Reads a DD/MM/YYYY text back into calendar fields. */
  function ParseDate(s: string): (r: CivilDate)
    requires |s| >= 7 && AllDigits(s[..2]) && AllDigits(s[3..5]) && IsIntText(s[6..])
  {
    CivilDate(ParseNat(s[..2]), ParseNat(s[3..5]) - 1, ParseInt(s[6..]))
  }

  /** The rendering loses nothing: day, month and year can be read back. */
  lemma ParseFormatDate(d: CivilDate)
    requires ValidDate(d)
    ensures var s := FormatDate(d);
      AllDigits(s[..2]) && AllDigits(s[3..5]) && IsIntText(s[6..]) && ParseDate(s) == d
  {
    ParseIntToString(d.year);
  }
}
