/**
 * `daterange(df, dt)`: the short human phrase for a span of dates. The
 * active language picks a family of shapes by prefix (`de`, `en`, `es`);
 * inside it, the first of "same day", "same month", "same year" that holds
 * picks the shape. Anything not covered falls through to the generic
 * `"{date_from} – {date_to}"` with the locale's `DATE_FORMAT`.
 *
 * Django's `date` template filter is not part of this model: it is the
 * parameter `fmt`, applied to a date and a format string.
 */
module DateRange {
  import opened Calendar
  import opened Text

  /** Django's `date` filter: a date rendered with a format string. */
  type Formatter = (Date, string) -> string

  const EnDash: string := "\U{2013}"

  /** The language families the function knows, chosen by prefix. */
  datatype Family = German | English | Spanish | Generic

  /** The `lng.startswith(...)` cascade, in source order. */
  function FamilyOf(lng: string): (f: Family)
    ensures f == German <==> StartsWith(lng, "de")
    ensures f == English <==> !StartsWith(lng, "de") && StartsWith(lng, "en")
    ensures f == Spanish <==> !StartsWith(lng, "de") && !StartsWith(lng, "en") && StartsWith(lng, "es")
  {
    if StartsWith(lng, "de") then German
    else if StartsWith(lng, "en") then English
    else if StartsWith(lng, "es") then Spanish
    else Generic
  }

  /** How close the two dates are, the first matching test in source order. */
  datatype Closeness = SameDay | SameMonth | SameYear | Apart

  function ClosenessOf(df: Date, dt: Date): (c: Closeness)
    ensures c == SameDay <==> df == dt
    ensures c == SameMonth <==> df.year == dt.year && df.month == dt.month && df.day != dt.day
    ensures c == SameYear <==> df.year == dt.year && df.month != dt.month
    ensures c == Apart <==> df.year != dt.year
  {
    if df.year == dt.year && df.month == dt.month && df.day == dt.day then SameDay
    else if df.year == dt.year && df.month == dt.month then SameMonth
    else if df.year == dt.year then SameYear
    else Apart
  }

  /** The fall-through at the end of the function, used by every language. */
  function GenericPhrase(df: Date, dt: Date, fmt: Formatter): string {
    if ClosenessOf(df, dt) == SameDay then fmt(df, "DATE_FORMAT")
    else fmt(df, "DATE_FORMAT") + " " + EnDash + " " + fmt(dt, "DATE_FORMAT")
  }

  function GermanPhrase(df: Date, dt: Date, fmt: Formatter): string {
    match ClosenessOf(df, dt)
    case SameDay => fmt(df, "j. F Y")
    case SameMonth => fmt(df, "j") + "." + EnDash + fmt(dt, "j. F Y")
    case SameYear => fmt(df, "j. F") + " " + EnDash + " " + fmt(dt, "j. F Y")
    case Apart => GenericPhrase(df, dt, fmt)
  }

  function EnglishPhrase(df: Date, dt: Date, fmt: Formatter): string {
    match ClosenessOf(df, dt)
    case SameDay => fmt(df, "N jS, Y")
    case SameMonth => fmt(df, "N jS") + " " + EnDash + " " + fmt(dt, "jS, Y")
    case SameYear => fmt(df, "N jS") + " " + EnDash + " " + fmt(dt, "N jS, Y")
    case Apart => GenericPhrase(df, dt, fmt)
  }

  function SpanishPhrase(df: Date, dt: Date, fmt: Formatter): string {
    match ClosenessOf(df, dt)
    case SameDay => fmt(df, "DATE_FORMAT")
    case SameMonth =>
      fmt(df, "j") + " - " + fmt(dt, "j") + " de " + fmt(dt, "F") + " de " + fmt(dt, "Y")
    case SameYear =>
      fmt(df, "j") + " de " + fmt(df, "F") + " - " + fmt(dt, "j") + " de " + fmt(dt, "F") + " de " + fmt(dt, "Y")
    case Apart => GenericPhrase(df, dt, fmt)
  }

  /** `daterange(df, dt)` under the active language `lng`. */
  function Phrase(lng: string, df: Date, dt: Date, fmt: Formatter): string {
    match FamilyOf(lng)
    case German => GermanPhrase(df, dt, fmt)
    case English => EnglishPhrase(df, dt, fmt)
    case Spanish => SpanishPhrase(df, dt, fmt)
    case Generic => GenericPhrase(df, dt, fmt)
  }

  // ---------------------------------------------------------------------
  // What the phrasing promises

  /** The date format each language uses for a single day. */
  function SingleDayFormat(lng: string): string {
    match FamilyOf(lng)
    case German => "j. F Y"
    case English => "N jS, Y"
    case _ => "DATE_FORMAT"
  }

  /** A one-day span is one formatted date, whatever the language. */
  lemma SameDayIsOneDate(lng: string, df: Date, dt: Date, fmt: Formatter)
    requires df == dt
    ensures Phrase(lng, df, dt, fmt) == fmt(df, SingleDayFormat(lng))
  {
  }

  /** German: a day range inside one month, and one inside one year. */
  lemma GermanShapes(lng: string, df: Date, dt: Date, fmt: Formatter)
    requires StartsWith(lng, "de") && df.year == dt.year
    ensures df.month == dt.month && df.day != dt.day ==>
      Phrase(lng, df, dt, fmt) == fmt(df, "j") + ".–" + fmt(dt, "j. F Y")
    ensures df.month != dt.month ==>
      Phrase(lng, df, dt, fmt) == fmt(df, "j. F") + " – " + fmt(dt, "j. F Y")
  {
  }

  /** English: a day range inside one month, and one inside one year. */
  lemma EnglishShapes(lng: string, df: Date, dt: Date, fmt: Formatter)
    requires !StartsWith(lng, "de") && StartsWith(lng, "en") && df.year == dt.year
    ensures df.month == dt.month && df.day != dt.day ==>
      Phrase(lng, df, dt, fmt) == fmt(df, "N jS") + " – " + fmt(dt, "jS, Y")
    ensures df.month != dt.month ==>
      Phrase(lng, df, dt, fmt) == fmt(df, "N jS") + " – " + fmt(dt, "N jS, Y")
  {
  }

  /**
   * Spanish: the `de` shapes; the month and year written once come from `dt`,
   * and a range over two months names `df`'s month as well.
   */
  lemma SpanishShapes(lng: string, df: Date, dt: Date, fmt: Formatter)
    requires !StartsWith(lng, "de") && !StartsWith(lng, "en") && StartsWith(lng, "es") && df.year == dt.year
    ensures df.month == dt.month && df.day != dt.day ==>
      Phrase(lng, df, dt, fmt) == fmt(df, "j") + " - " + fmt(dt, "j") + " de " + fmt(dt, "F") + " de " + fmt(dt, "Y")
    ensures df.month != dt.month ==>
      Phrase(lng, df, dt, fmt)
        == fmt(df, "j") + " de " + fmt(df, "F") + " - " + fmt(dt, "j") + " de " + fmt(dt, "F") + " de " + fmt(dt, "Y")
  {
  }

  /** Across a year boundary every language uses the generic phrase. */
  lemma ApartIsGeneric(lng: string, df: Date, dt: Date, fmt: Formatter)
    requires df.year != dt.year
    ensures Phrase(lng, df, dt, fmt) == fmt(df, "DATE_FORMAT") + " – " + fmt(dt, "DATE_FORMAT")
  {
  }

  /** A language outside the three families always gets the generic phrase. */
  lemma UnknownLanguageIsGeneric(lng: string, df: Date, dt: Date, fmt: Formatter)
    requires !StartsWith(lng, "de") && !StartsWith(lng, "en") && !StartsWith(lng, "es")
    ensures df == dt ==> Phrase(lng, df, dt, fmt) == fmt(df, "DATE_FORMAT")
    ensures df != dt ==> Phrase(lng, df, dt, fmt) == fmt(df, "DATE_FORMAT") + " – " + fmt(dt, "DATE_FORMAT")
  {
  }

  /** Extending a prefix keeps it a prefix. */
  lemma StartsWithExtend(s: string, suffix: string, p: string)
    ensures StartsWith(s, p) ==> StartsWith(s + suffix, p)
  {
    if StartsWith(s, p) {
      assert (s + suffix)[..|p|] == s[..|p|];
    }
  }

  /** A regional or formal variant such as `de-formal` phrases exactly like its base language. */
  lemma VariantLikeBase(base: string, suffix: string, df: Date, dt: Date, fmt: Formatter)
    requires base == "de" || base == "en" || base == "es"
    ensures Phrase(base + suffix, df, dt, fmt) == Phrase(base, df, dt, fmt)
  {
    StartsWithExtend(base, suffix, base);
    assert StartsWith(base, base);
    assert (base + suffix)[..2] == base;
  }
}
