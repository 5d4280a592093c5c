/**
 * The validators and formatters shared by the handlers: number formatting in
 * the ru-RU locale, the chat allow-list and the YYYY-MM-DD date check.
 */
module Utils {
  import opened Wrappers
  import opened Seqs
  import opened JsString
  import opened JsNumber

  // ---------------------------------------------------------------------------
  // formatNumber
  // ---------------------------------------------------------------------------

  /** The ru-RU group separator, a no-break space. */
  const GroupSeparator: char := '\U{00A0}'

  /** Exactly three digits of `k`, with leading zeros. */
  function Pad3(k: nat): (r: string)
    requires k < 1000
    ensures |r| == 3 && AllDigits(r)
  {
    [DigitChar(k / 100), DigitChar(k / 10 % 10), DigitChar(k % 10)]
  }

  /** The digits of `n` in groups of three from the right, separated by no-break spaces. */
  function Grouped(n: nat): (r: string)
    ensures |r| >= 1 && IsDigit(r[0])
    ensures forall i :: 0 <= i < |r| ==> IsDigit(r[i]) || r[i] == GroupSeparator
    ensures GroupSeparator in r <==> n >= 1000
    decreases n
  {
    if n < 1000 then Decimal(n)
    else
      var r := Grouped(n / 1000) + [GroupSeparator] + Pad3(n % 1000);
      assert r[|Grouped(n / 1000)|] == GroupSeparator;
      r
  }

  /** An integer in the ru-RU format: a leading '-' for negatives, then the grouped digits. */
  function FormatInteger(i: int): string
  {
    if i < 0 then "-" + Grouped(-i) else Grouped(i)
  }

  /** The one or two fraction digits of `cents` (1..99) without a trailing zero. */
  function FractionText(cents: nat): string
    requires 0 < cents < 100
  {
    if cents % 10 == 0 then [DigitChar(cents / 10)] else [DigitChar(cents / 10), DigitChar(cents % 10)]
  }

  /**
   * A non-integral number rounded half away from zero to at most two fraction
   * digits, with ',' as the decimal separator.
   */
  function FormatFraction(r: real): string
  {
    var negative := r < 0.0;
    var magnitude := if negative then -r else r;
    var hundredths := (magnitude * 100.0 + 0.5).Floor;
    var whole := if hundredths < 0 then 0 else hundredths / 100;
    var cents := if hundredths < 0 then 0 else hundredths % 100;
    (if negative then "-" else "") + Grouped(whole) + (if cents == 0 then "" else "," + FractionText(cents))
  }

  predicate IsIntegral(r: real)
  {
    r.Floor as real == r
  }

  /** formatNumber: "0" for anything that is not a number or is NaN, otherwise toLocaleString('ru-RU'). */
  function FormatNumber(v: Value): (r: string)
    ensures v == NaN || v == NonNumber ==> r == "0"
    ensures v.Num? && IsIntegral(v.r) ==> r == FormatInteger(v.r.Floor)
  {
    match v
    case NaN => "0"
    case NonNumber => "0"
    case Inf(negative) => if negative then "-∞" else "∞"
    case Num(r) => if IsIntegral(r) then FormatInteger(r.Floor) else FormatFraction(r)
  }

  /** formatNumber of an integer-valued count or amount. */
  function FormatInt(i: int): (r: string)
    ensures r == FormatNumber(Num(i as real))
  {
    FormatInteger(i)
  }

  /** Integers below a thousand are written as their plain decimal digits ("500", "0"). */
  lemma FormatSmallInteger(n: nat)
    requires n < 1000
    ensures FormatNumber(Num(n as real)) == Decimal(n)
  {
  }

  /** From a thousand up, groups are separated by a no-break space and no ordinary space appears. */
  lemma FormatThousands(n: int)
    requires n >= 1000
    ensures GroupSeparator in FormatNumber(Num(n as real))
    ensures ' ' !in FormatNumber(Num(n as real))
  {
    var r := Grouped(n);
    assert ' ' !in r by {
      forall i | 0 <= i < |r| ensures r[i] != ' ' {
        assert IsDigit(r[i]) || r[i] == GroupSeparator;
      }
    }
  }

  predicate NotGroupSeparator(c: char)
  {
    c != GroupSeparator
  }

  /** How the last three decimal digits of `n` sit in its division by 10, 100 and 1000. */
  lemma LowDigits(n: nat)
    requires n >= 1000
    ensures n / 10 / 10 / 10 == n / 1000
    ensures n % 10 == n % 1000 % 10
    ensures n / 10 % 10 == n % 1000 / 10 % 10
    ensures n / 10 / 10 % 10 == n % 1000 / 100
  {
    var a, k := n / 1000, n % 1000;
    assert n == 1000 * a + k;
    assert n / 10 == 100 * a + k / 10;
    assert n / 10 / 10 == 10 * a + k / 100;
  }

  /** The last three digits of `n` split off as a group. */
  lemma DecimalRegroup(n: nat)
    requires n >= 1000
    ensures Decimal(n) == Decimal(n / 1000) + Pad3(n % 1000)
  {
    LowDigits(n);
    var k := n % 1000;
    var d2 := Decimal(n / 10 / 10);
    assert d2 == Decimal(n / 1000) + [DigitChar(k / 100)];
    var d1 := Decimal(n / 10);
    assert d1 == d2 + [DigitChar(k / 10 % 10)];
    assert Decimal(n) == d1 + [DigitChar(k % 10)];
  }

  /** Dropping the separators of `head` NBSP `low` when `low` has none. */
  lemma {:induction false} UngroupJoint(head: string, low: string)
    requires AllDigits(low)
    ensures Filter(head + [GroupSeparator] + low, NotGroupSeparator) == Filter(head, NotGroupSeparator) + low
    decreases |head|
  {
    var s := head + [GroupSeparator] + low;
    if head == [] {
      assert s[1..] == low;
      assert forall i :: 0 <= i < |low| ==> NotGroupSeparator(low[i]);
      FilterAll(low, NotGroupSeparator);
    } else {
      assert s[0] == head[0];
      assert s[1..] == head[1..] + [GroupSeparator] + low;
      UngroupJoint(head[1..], low);
    }
  }

  /** Dropping the group separators from the grouped digits leaves the plain decimal digits. */
  lemma {:induction false} UngroupGrouped(n: nat)
    ensures Filter(Grouped(n), NotGroupSeparator) == Decimal(n)
    decreases n
  {
    if n < 1000 {
      FilterAll(Decimal(n), NotGroupSeparator);
    } else {
      UngroupGrouped(n / 1000);
      var low := Pad3(n % 1000);
      UngroupJoint(Grouped(n / 1000), low);
      DecimalRegroup(n);
    }
  }

  /** The formatted integer, read back by parseInt once the group separators are removed, is the integer. */
  lemma FormatIntegerRoundTrip(i: int)
    ensures ParseInt(Filter(FormatNumber(Num(i as real)), NotGroupSeparator)) == Some(i)
  {
    var n := if i < 0 then -i else i;
    UngroupGrouped(n);
    if i < 0 {
      FilterAppend("-", Grouped(n), NotGroupSeparator);
      assert Filter("-", NotGroupSeparator) == "-";
    }
    assert Filter(FormatNumber(Num(i as real)), NotGroupSeparator) == IntToString(i);
    ParseIntRoundTrip(i);
  }

  // ---------------------------------------------------------------------------
  // checkAccess
  // ---------------------------------------------------------------------------

  /** The example value of the allow-list setting, which counts as not configured. */
  const AllowListPlaceholder: string := "ВАШ_ID_1,ВАШ_ID_2"

  /** A chat id as the handlers pass it: a Telegram number, or text. */
  datatype ChatRef = NumericId(n: int) | TextId(s: string)

  /** String(chatId). */
  function IdString(id: ChatRef): string
  {
    match id
    case NumericId(n) => IntToString(n)
    case TextId(s) => s
  }

  /** The allow-list is set and is not the placeholder. */
  predicate AllowListConfigured(allowList: string)
  {
    allowList != "" && allowList != AllowListPlaceholder
  }

  /** The trimmed comma-separated entries of the allow-list. */
  function AllowedIds(allowList: string): seq<string>
  {
    Map(Trim, Split(allowList, ','))
  }

  /** checkAccess: the chat's id, as a string, is one of the configured entries. */
  function CheckAccess(allowList: string, id: ChatRef): (allowed: bool)
    ensures !AllowListConfigured(allowList) ==> !allowed
  {
    AllowListConfigured(allowList) && IdString(id) in AllowedIds(allowList)
  }

  /**
   * For an allow-list written as comma-free entries joined by commas, access
   * is granted exactly when some entry, once trimmed, is the id's string.
   */
  lemma AccessIffListed(entries: seq<string>, id: ChatRef)
    requires |entries| >= 1
    requires forall i :: 0 <= i < |entries| ==> ',' !in entries[i]
    ensures CheckAccess(Join(entries, ','), id)
        <==> AllowListConfigured(Join(entries, ','))
             && exists i :: 0 <= i < |entries| && Trim(entries[i]) == IdString(id)
  {
    SplitJoin(entries, ',');
  }

  /** A numeric id and its decimal text are granted or refused alike. */
  lemma NumericAndTextAgree(allowList: string, n: int)
    ensures CheckAccess(allowList, NumericId(n)) == CheckAccess(allowList, TextId(IntToString(n)))
  {
  }

  // ---------------------------------------------------------------------------
  // isValidDate
  // ---------------------------------------------------------------------------

  predicate IsLeapYear(year: int)
  {
    (year % 4 == 0 && year % 100 != 0) || year % 400 == 0
  }

  /** The length of month `monthIndex` (0 = January) of `year` in the proleptic Gregorian calendar. */
  function DaysInMonth(year: int, monthIndex: int): (days: int)
    requires 0 <= monthIndex < 12
    ensures 28 <= days <= 31
  {
    if monthIndex == 1 then (if IsLeapYear(year) then 29 else 28)
    else if monthIndex == 3 || monthIndex == 5 || monthIndex == 8 || monthIndex == 10 then 30
    else 31
  }

  /** The local calendar fields a Date reports: getFullYear, getMonth (0-based), getDate. */
  datatype CivilDate = CivilDate(year: int, monthIndex: int, day: int)

  predicate IsCivil(d: CivilDate)
  {
    0 <= d.monthIndex < 12 && 1 <= d.day <= DaysInMonth(d.year, d.monthIndex)
  }

  /**
   * Day `day` of month `monthIndex` of `year`, carried into earlier or later
   * months when it falls outside that month (day 0 is the previous month's
   * last day, day 32 of a 31-day month is the next month's 1st).
   */
  function RollDays(year: int, monthIndex: int, day: int): (d: CivilDate)
    requires 0 <= monthIndex < 12
    ensures IsCivil(d)
    ensures 1 <= day <= DaysInMonth(year, monthIndex) ==> d == CivilDate(year, monthIndex, day)
    ensures day >= 1 ==> d.year >= year
    ensures day >= 0 ==> d.year >= year - 1
    decreases if day < 1 then 1 - day else 0, if day < 1 then 0 else day
  {
    if day < 1 then
      var (y, m) := if monthIndex == 0 then (year - 1, 11) else (year, monthIndex - 1);
      RollDays(y, m, day + DaysInMonth(y, m))
    else if day > DaysInMonth(year, monthIndex) then
      var (y, m) := if monthIndex == 11 then (year + 1, 0) else (year, monthIndex + 1);
      RollDays(y, m, day - DaysInMonth(year, monthIndex))
    else
      CivilDate(year, monthIndex, day)
  }

  /**
   * new Date(year, monthIndex, day) read back in local time: years 0 to 99
   * mean 1900 to 1999, the month carries into the year, the day into the month.
   */
  function NewDate(year: int, monthIndex: int, day: int): (d: CivilDate)
    ensures IsCivil(d)
  {
    var fullYear := if 0 <= year <= 99 then 1900 + year else year;
    RollDays(fullYear + monthIndex / 12, monthIndex % 12, day)
  }

  /** The regular expression ^\d{4}-\d{2}-\d{2}$. */
  predicate HasDateShape(s: string)
  {
    |s| == 10 && s[4] == '-' && s[7] == '-'
    && AllDigits(s[..4]) && AllDigits(s[5..7]) && AllDigits(s[8..])
  }

  /** A well-shaped date string splits at its hyphens into its three digit fields. */
  lemma DateParts(s: string)
    requires HasDateShape(s)
    ensures Split(s, '-') == [s[..4], s[5..7], s[8..]]
  {
    var parts := [s[..4], s[5..7], s[8..]];
    forall i | 0 <= i < 3 ensures '-' !in parts[i] {
      assert AllDigits(parts[i]);
    }
    assert Join(parts, '-') == s by {
      assert Join(parts[1..], '-') == s[5..7] + ['-'] + s[8..];
      assert s == s[..4] + ['-'] + (s[5..7] + ['-'] + s[8..]);
    }
    SplitJoin(parts, '-');
  }

  /** isValidDate: the shape, then new Date(year, month - 1, day) reports the same three fields. */
  function IsValidDate(s: string): (valid: bool)
    ensures valid ==> HasDateShape(s)
  {
    HasDateShape(s)
    && (DateParts(s);
        var fields := Split(s, '-');
        var year := DigitsValue(fields[0]);
        var month := DigitsValue(fields[1]);
        var day := DigitsValue(fields[2]);
        NewDate(year, month - 1, day) == CivilDate(year, month - 1, day))
  }

  /** The year, month and day written in a well-shaped date string. */
  function DateYear(s: string): nat
    requires HasDateShape(s)
  {
    DigitsValue(s[..4])
  }

  function DateMonth(s: string): nat
    requires HasDateShape(s)
  {
    DigitsValue(s[5..7])
  }

  function DateDay(s: string): nat
    requires HasDateShape(s)
  {
    DigitsValue(s[8..])
  }

  /**
   * A well-shaped date string is valid exactly when the month is 1 to 12, the
   * day exists in that month of that year, and the year is not 0000 to 0099.
   */
  lemma DateValidIff(s: string)
    requires HasDateShape(s)
    ensures IsValidDate(s)
        <==> DateYear(s) >= 100 && 1 <= DateMonth(s) <= 12
             && 1 <= DateDay(s) <= DaysInMonth(DateYear(s), DateMonth(s) - 1)
  {
    DateParts(s);
    var year: int, month: int, day: int := DateYear(s), DateMonth(s), DateDay(s);
    var d := NewDate(year, month - 1, day);
    if year < 100 {
      assert d.year >= 1898;
    }
  }

  lemma TwoDigitValue(s: string)
    requires |s| == 2 && AllDigits(s)
    ensures DigitsValue(s) == 10 * DigitValue(s[0]) + DigitValue(s[1])
  {
    var a := s[..1];
    assert a[..0] == [] && a[0] == s[0];
    assert DigitsValue(a) == DigitValue(s[0]);
  }

  lemma FourDigitValue(s: string)
    requires |s| == 4 && AllDigits(s)
    ensures DigitsValue(s) == 1000 * DigitValue(s[0]) + 100 * DigitValue(s[1]) + 10 * DigitValue(s[2]) + DigitValue(s[3])
  {
    var a := s[..3];
    assert a[..2] == s[..2] && a[2] == s[2];
    TwoDigitValue(s[..2]);
    assert DigitsValue(a) == DigitsValue(s[..2]) * 10 + DigitValue(s[2]);
  }

  /** The three fields of a well-shaped date string, digit by digit. */
  lemma DateFields(s: string)
    requires HasDateShape(s)
    ensures DateYear(s) == 1000 * DigitValue(s[0]) + 100 * DigitValue(s[1]) + 10 * DigitValue(s[2]) + DigitValue(s[3])
    ensures DateMonth(s) == 10 * DigitValue(s[5]) + DigitValue(s[6])
    ensures DateDay(s) == 10 * DigitValue(s[8]) + DigitValue(s[9])
  {
    FourDigitValue(s[..4]);
    TwoDigitValue(s[5..7]);
    TwoDigitValue(s[8..]);
  }

  /** "2024-08-09" is a date. */
  lemma SummerDateExample()
    ensures IsValidDate("2024-08-09")
  {
    var s := "2024-08-09";
    DateValidIff(s);
    DateFields(s);
    assert DateYear(s) == 2024 && DateMonth(s) == 8 && DateDay(s) == 9;
  }

  /** "2025-01-01" is a date. */
  lemma NewYearDateExample()
    ensures IsValidDate("2025-01-01")
  {
    var s := "2025-01-01";
    DateValidIff(s);
    DateFields(s);
    assert DateYear(s) == 2025 && DateMonth(s) == 1 && DateDay(s) == 1;
  }

  /** "0050-01-01" is not accepted: new Date reads year 50 as 1950. */
  lemma TwoDigitYearExample()
    ensures !IsValidDate("0050-01-01")
  {
    DateValidIff("0050-01-01");
    DateFields("0050-01-01");
  }

  /** Strings not of the form DDDD-DD-DD are refused before any date is built. */
  lemma ShapeExamples()
    ensures !IsValidDate("2024-8-9")
    ensures !IsValidDate("09-08-2024")
    ensures !IsValidDate("some text")
  {
  }
}
