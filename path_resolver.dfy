/**
  The path resolver of the "Daily Note" command: from a date and the configured
  daily-note folder it builds the month folder `base/YYYY/MM` (without `base/`
  when the setting is empty) and the note path `base/YYYY/MM/YYYY-MM-DD.md`.
*/
module PathResolver {
  import opened Wrappers
  import opened Decimal
  import opened Paths

  /** The date the command reads from the clock: year, 1-based month, day of month. */
  datatype DateKey = DateKey(year: int, month: nat, day: nat)

  /** What a JavaScript `Date` can report: a month in 1..12 and a day in 1..31. */
  predicate IsCalendarKey(d: DateKey) {
    1 <= d.month <= 12 && 1 <= d.day <= 31
  }

  /** `${year}`: the full year with no padding. */
  function YearText(d: DateKey): string {
    IntToString(d.year)
  }

  /** `String(month).padStart(2, '0')`. */
  function MonthText(d: DateKey): string {
    TwoDigits(d.month)
  }

  /** `String(day).padStart(2, '0')`. */
  function DayText(d: DateKey): string {
    TwoDigits(d.day)
  }

  /** The leaf name `${year}-${month}-${day}.md`. */
  function FileName(d: DateKey): string {
    YearText(d) + "-" + MonthText(d) + "-" + DayText(d) + ".md"
  }

  /** The year folder: the base segment is left out when the setting is the empty string. */
  function YearFolder(base: string, d: DateKey): string {
    if base != "" then base + "/" + YearText(d) else YearText(d)
  }

  function MonthFolder(base: string, d: DateKey): string {
    YearFolder(base, d) + "/" + MonthText(d)
  }

  function FilePath(base: string, d: DateKey): string {
    MonthFolder(base, d) + "/" + FileName(d)
  }

  /** Reads a leaf name of the shape `Y-MM-DD.md` back into a date: the inverse of FileName. */
  function ParseFileName(name: string): Option<DateKey> {
    var n := |name|;
    if n < 10 || name[n - 3..] != ".md" || name[n - 6] != '-' || name[n - 9] != '-' then None
    else
      var y, m, d := name[..n - 9], name[n - 8..n - 6], name[n - 5..n - 3];
      if IsIntText(y) && AllDigits(m) && AllDigits(d)
      then Some(DateKey(ParseInt(y), ParseNat(m), ParseNat(d)))
      else None
  }

  /**
    Month and day are rendered as exactly two digits, left-padded with '0' only
    when below ten, and read back as themselves; the year is rendered without
    padding (a positive year never starts with '0').
  */
  lemma CalendarFieldsRendering(d: DateKey)
    requires IsCalendarKey(d)
    ensures |MonthText(d)| == 2 && AllDigits(MonthText(d)) && ParseNat(MonthText(d)) == d.month
    ensures |DayText(d)| == 2 && AllDigits(DayText(d)) && ParseNat(DayText(d)) == d.day
    ensures MonthText(d)[0] == '0' <==> d.month < 10
    ensures DayText(d)[0] == '0' <==> d.day < 10
    ensures d.year > 0 ==> YearText(d)[0] != '0'
    ensures IsIntText(YearText(d)) && ParseInt(YearText(d)) == d.year
  {
    TwoDigitsSpec(d.month);
    TwoDigitsSpec(d.day);
    ParseIntToString(d.year);
    if d.year >= 0 {
      NatToStringShape(d.year);
    }
  }

  /** None of the rendered segments is empty or contains the separator. */
  lemma SegmentsHaveNoSeparator(d: DateKey)
    requires IsCalendarKey(d)
    ensures YearText(d) != "" && '/' !in YearText(d)
    ensures |MonthText(d)| == 2 && '/' !in MonthText(d)
    ensures FileName(d) != "" && '/' !in FileName(d)
  {
    CalendarFieldsRendering(d);
    ParseIntToString(d.year);
  }

  /** The leaf name determines the date: parsing it gives the date back. */
  lemma FileNameRoundTrip(d: DateKey)
    requires IsCalendarKey(d)
    ensures ParseFileName(FileName(d)) == Some(d)
  {
    CalendarFieldsRendering(d);
    var y, m, dd := YearText(d), MonthText(d), DayText(d);
    var name := FileName(d);
    var n := |name|;
    assert n == |y| + 9;
    assert name[n - 3..] == ".md";
    assert name[..n - 9] == y;
    assert name[n - 8..n - 6] == m;
    assert name[n - 5..n - 3] == dd;
  }

  /** Two calendar dates share a daily note name only if they are the same date. */
  lemma FileNameInjective(d1: DateKey, d2: DateKey)
    requires IsCalendarKey(d1) && IsCalendarKey(d2)
    requires FileName(d1) == FileName(d2)
    ensures d1 == d2
  {
    FileNameRoundTrip(d1);
    FileNameRoundTrip(d2);
  }

  /** The segments of `base/y/m/f` (of `y/m/f` when `base` is empty) for separator-free `y`, `m`, `f`. */
  lemma FolderSegments(base: string, y: string, m: string, f: string)
    requires '/' !in y && '/' !in m && '/' !in f
    ensures Split((if base != "" then base + "/" + y else y) + "/" + m + "/" + f)
         == (if base == "" then [] else Split(base)) + [y, m, f]
  {
    var yf := if base != "" then base + "/" + y else y;
    if base != "" {
      SplitAppend(base, y);
    } else {
      assert Split(y) == [y];
    }
    SplitAppend(yf, m);
    SplitAppend(yf + "/" + m, f);
    var front := if base == "" then [] else Split(base);
    AppendAssoc(front + [y], [m], [f]);
    AppendAssoc(front, [y], [m] + [f]);
    assert [y] + ([m] + [f]) == [y, m, f];
  }

  /**
    The note path has the segments of the base folder (none when the setting is
    empty), then the year, the two-digit month and the leaf name.
  */
  lemma FilePathSegments(base: string, d: DateKey)
    requires IsCalendarKey(d)
    ensures Split(FilePath(base, d))
         == (if base == "" then [] else Split(base)) + [YearText(d), MonthText(d), FileName(d)]
  {
    SegmentsHaveNoSeparator(d);
    FolderSegments(base, YearText(d), MonthText(d), FileName(d));
  }

  /**
    With an empty setting the path is exactly `year/month/name`; with a base
    folder that has no stray separators the path has none either. In both cases
    there is no leading, trailing or doubled '/'.
  */
  lemma NoStraySeparators(base: string, d: DateKey)
    requires IsCalendarKey(d)
    requires base == "" || NoEmptySegment(base)
    ensures base == "" ==> Split(FilePath(base, d)) == [YearText(d), MonthText(d), FileName(d)]
    ensures NoEmptySegment(FilePath(base, d))
    ensures FilePath(base, d)[0] != '/'
    ensures forall k :: 0 < k < |FilePath(base, d)| && FilePath(base, d)[k] == '/' ==> FilePath(base, d)[k - 1] != '/'
  {
    SegmentsHaveNoSeparator(d);
    FolderSegments(base, YearText(d), MonthText(d), FileName(d));
    FolderPathHasNoEmptySegment(base, YearText(d), MonthText(d), FileName(d));
    NoEmptySegmentShape(FilePath(base, d));
  }

  /** `base/y/m/f` has no empty segment when `base` has none (or is empty) and `y`, `m`, `f` are non-empty segments. */
  lemma FolderPathHasNoEmptySegment(base: string, y: string, m: string, f: string)
    requires '/' !in y && '/' !in m && '/' !in f && y != "" && m != "" && f != ""
    requires base == "" || NoEmptySegment(base)
    ensures NoEmptySegment((if base != "" then base + "/" + y else y) + "/" + m + "/" + f)
  {
    FolderSegments(base, y, m, f);
    var parts := Split((if base != "" then base + "/" + y else y) + "/" + m + "/" + f);
    forall k | 0 <= k < |parts| ensures parts[k] != "" {
      if base != "" && k < |Split(base)| {
        assert parts[k] == Split(base)[k];
      }
    }
  }

  /**
    The month folder is the parent of the note and the leaf name its base name;
    the month folder is a strict prefix of the note path, and the folders the note
    needs are the month folder and the month folder's own prefixes.
  */
  lemma MonthFolderIsParent(base: string, d: DateKey)
    requires IsCalendarKey(d)
    ensures Parent(FilePath(base, d)) == MonthFolder(base, d)
    ensures BaseName(FilePath(base, d)) == FileName(d)
    ensures MonthFolder(base, d) < FilePath(base, d)
    ensures Parent(MonthFolder(base, d)) == YearFolder(base, d)
    ensures Prefixes(FilePath(base, d)) == Prefixes(MonthFolder(base, d)) + {MonthFolder(base, d)}
  {
    SegmentsHaveNoSeparator(d);
    ParentOfJoin(MonthFolder(base, d), FileName(d));
    ParentOfJoin(YearFolder(base, d), MonthText(d));
    PrefixesOfJoin(MonthFolder(base, d), FileName(d));
  }

  /** The rendered fields of 7 March 2024. */
  lemma SampleDateFields()
    ensures YearText(DateKey(2024, 3, 7)) == "2024"
    ensures MonthText(DateKey(2024, 3, 7)) == "03" && DayText(DateKey(2024, 3, 7)) == "07"
    ensures FileName(DateKey(2024, 3, 7)) == "2024-03-07.md"
  {
    assert NatToString(2024) == "2024" by {
      assert NatToString(20) == "20";
      assert NatToString(202) == "202";
    }
    assert TwoDigits(3) == "03";
    assert TwoDigits(7) == "07";
  }

  /** With base folder "Notes", 7 March 2024 is filed at Notes/2024/03/2024-03-07.md. */
  lemma ExampleWithBaseFolder()
    ensures MonthFolder("Notes", DateKey(2024, 3, 7)) == "Notes/2024/03"
    ensures FilePath("Notes", DateKey(2024, 3, 7)) == "Notes/2024/03/2024-03-07.md"
  {
    SampleDateFields();
  }

  /** With an empty base folder, the same date is filed at 2024/03/2024-03-07.md. */
  lemma ExampleWithoutBaseFolder()
    ensures MonthFolder("", DateKey(2024, 3, 7)) == "2024/03"
    ensures FilePath("", DateKey(2024, 3, 7)) == "2024/03/2024-03-07.md"
  {
    SampleDateFields();
  }
}
