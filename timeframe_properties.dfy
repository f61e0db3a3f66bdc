/**
 * What the reporting-timeframe table promises: every window is ordered,
 * the rolling windows end on the reference date, the calendar windows
 * cover whole periods and sit next to each other, frames that exclude the
 * future end by the reference date, and the serialised form reads back.
 */
module TimeframeProperties {
  import opened Wrappers
  import opened Calendar
  import opened IsoDates
  import opened Text
  import opened Timeframes

  /** `d + n days` for `n >= 0` is on or after `d`, exactly `n` days later. */
  lemma Later(d: Date, n: int)
    requires Valid(d) && n >= 0
    ensures LessEq(d, AddDays(d, n)) && Ordinal(AddDays(d, n)) == Ordinal(d) + n
  {
    OrdinalAddDays(d, n);
    LessEqIffOrdinal(d, AddDays(d, n));
  }

  /** Every row of the table resolves to a window whose start is not after its end. */
  lemma WindowOrdered(f: Frame, ref: Date)
    requires Valid(ref)
    ensures LessEq(Window(f, ref).0, Window(f, ref).1)
  {
    var start := FrameStart(f, ref);
    match f
    case DaysLast7 => Later(start, 6);
    case DaysLast14 => Later(start, 13);
    case DaysNext7 => Later(start, 6);
    case DaysNext14 => Later(start, 13);
    case WeekThis => Later(start, 6);
    case WeekPrevious => Later(start, 6);
    case WeekNext => Later(start, 6);
    case _ =>
  }

  /** `d - n days + n days` is `d`, and lies `n` days before it. */
  lemma BackAndForth(d: Date, n: int)
    requires Valid(d) && n >= 0
    ensures AddDays(AddDays(d, -n), n) == d
    ensures Ordinal(d) - Ordinal(AddDays(d, -n)) == n
  {
    AddDaysCompose(d, -n, n);
    OrdinalAddDays(d, -n);
  }

  /** The rolling windows up to today: today, the last 7 and the last 14 days, all ending on `ref`. */
  lemma PastDaysWindows(ref: Date)
    requires Valid(ref)
    ensures Window(DaysToday, ref) == (ref, ref)
    ensures Window(DaysLast7, ref).1 == ref && Ordinal(ref) - Ordinal(Window(DaysLast7, ref).0) == 6
    ensures Window(DaysLast14, ref).1 == ref && Ordinal(ref) - Ordinal(Window(DaysLast14, ref).0) == 13
  {
    BackAndForth(ref, 6);
    BackAndForth(ref, 13);
  }

  /** The rolling windows from tomorrow start on the calendar successor of `ref`. */
  lemma NextDaysStart(ref: Date)
    requires Valid(ref)
    ensures Window(DaysTomorrow, ref) == (NextDay(ref), NextDay(ref))
    ensures Window(DaysNext7, ref).0 == NextDay(ref)
    ensures Window(DaysNext14, ref).0 == NextDay(ref)
  {
    AddOneDay(ref);
  }

  /** The next 7 and the next 14 days end 7 and 14 days after `ref`. */
  lemma NextDaysEnd(ref: Date)
    requires Valid(ref)
    ensures Ordinal(Window(DaysNext7, ref).1) - Ordinal(ref) == 7
    ensures Ordinal(Window(DaysNext14, ref).1) - Ordinal(ref) == 14
  {
    NextDaysStart(ref);
    DaysAfterTomorrow(ref, 6);
    DaysAfterTomorrow(ref, 13);
  }

  lemma DaysAfterTomorrow(ref: Date, n: int)
    requires Valid(ref)
    ensures Ordinal(AddDays(NextDay(ref), n)) == Ordinal(ref) + 1 + n
  {
    OrdinalNextDay(ref);
    OrdinalAddDays(NextDay(ref), n);
  }

  /** The current week starts on a Monday, lasts seven days and holds `ref`. */
  lemma WeekThisWindow(ref: Date)
    requires Valid(ref)
    ensures var (s, e) := Window(WeekThis, ref);
      s == WeekStart(ref) && Weekday(s) == 0 && LessEq(s, ref) && LessEq(ref, e) && Ordinal(e) - Ordinal(s) == 6
    ensures Window(WeekToDate, ref) == (WeekStart(ref), ref)
  {
    var ws := WeekStart(ref);
    Later(ws, 6);
    LessEqIffOrdinal(ref, AddDays(ws, 6));
  }

  /** The previous week is the seven days that end the day before the current week starts. */
  lemma WeekPreviousWindow(ref: Date)
    requires Valid(ref)
    ensures var (s, e) := Window(WeekPrevious, ref);
      s == AddDays(WeekStart(ref), -7) && Weekday(s) == 0 && NextDay(e) == WeekStart(ref)
  {
    var ws := WeekStart(ref);
    WeekdayAddDays(ws, -7);
    AddDaysCompose(ws, -7, 6);
    AddDaysCompose(ws, -1, 1);
    AddOneDay(AddDays(ws, -1));
  }

  /** `_week_start(d + 7k days)` is `_week_start(d) + 7k days`: whole weeks move the week start along. */
  lemma WeekStartShift(ref: Date, k: int)
    requires Valid(ref)
    ensures WeekStart(AddDays(ref, 7 * k)) == AddDays(WeekStart(ref), 7 * k)
  {
    var n := 7 * k;
    var later := AddDays(ref, n);
    var ws := WeekStart(ref);
    WeekdayAddWeeks(ref, k);
    OrdinalAddDays(ref, n);
    OrdinalAddDays(ws, n);
    OrdinalInjective(WeekStart(later), AddDays(ws, n));
  }

  /** The next week starts the day after the current week ends. */
  lemma WeekNextWindow(ref: Date)
    requires Valid(ref)
    ensures Window(WeekNext, ref).0 == AddDays(WeekStart(ref), 7)
    ensures NextDay(Window(WeekThis, ref).1) == Window(WeekNext, ref).0
  {
    var ws := WeekStart(ref);
    WeekStartShift(ref, 1);
    AddDaysCompose(ws, 6, 1);
    AddOneDay(AddDays(ws, 6));
  }

  /** Month windows cover whole months: this, the one before and the one after. */
  lemma MonthWindows(ref: Date)
    requires Valid(ref)
    ensures Window(MonthThis, ref) == (Date(ref.year, ref.month, 1), LastDayOfMonth(ref.year, ref.month))
    ensures Window(MonthToDate, ref) == (Date(ref.year, ref.month, 1), ref)
    ensures var (s, e) := Window(MonthPrevious, ref);
      s == (if ref.month > 1 then Date(ref.year, ref.month - 1, 1) else Date(ref.year - 1, 12, 1))
      && e == LastDayOfMonth(s.year, s.month)
      && NextDay(e) == Date(ref.year, ref.month, 1)
    ensures var (s, e) := Window(MonthNext, ref);
      s == (if ref.month < 12 then Date(ref.year, ref.month + 1, 1) else Date(ref.year + 1, 1, 1))
      && e == LastDayOfMonth(s.year, s.month)
      && NextDay(LastDayOfMonth(ref.year, ref.month)) == s
  {
    SubtractOneDay(Date(ref.year, ref.month, 1));
    AddOneDay(LastDayOfMonth(ref.year, ref.month));
  }

  /** Quarter windows cover whole quarters: this, the one before and the one after. */
  lemma QuarterWindows(ref: Date)
    requires Valid(ref)
    ensures var (s, e) := Window(QuarterThis, ref);
      s == QuarterStart(ref) && e == LastDayOfMonth(s.year, s.month + 2)
      && LessEq(s, ref) && LessEq(ref, e)
    ensures Window(QuarterToDate, ref) == (QuarterStart(ref), ref)
    ensures var qs := QuarterStart(ref);
      var (s, e) := Window(QuarterPrevious, ref);
      s == (if qs.month > 1 then Date(ref.year, qs.month - 3, 1) else Date(ref.year - 1, 10, 1))
      && e == LastDayOfMonth(s.year, s.month + 2)
      && NextDay(e) == qs
    ensures var (s, e) := Window(QuarterNext, ref);
      s == NextDay(Window(QuarterThis, ref).1)
      && s == (if QuarterStart(ref).month < 10 then Date(ref.year, QuarterStart(ref).month + 3, 1)
               else Date(ref.year + 1, 1, 1))
      && e == LastDayOfMonth(s.year, s.month + 2)
  {
    var qs := QuarterStart(ref);
    SubtractOneDay(qs);
    AddOneDay(LastDayOfMonth(ref.year, qs.month + 2));
  }

  /** Year windows cover whole years: this, the one before and the one after. */
  lemma YearWindows(ref: Date)
    requires Valid(ref)
    ensures Window(YearThis, ref) == (Date(ref.year, 1, 1), Date(ref.year, 12, 31))
    ensures Window(YearToDate, ref) == (Date(ref.year, 1, 1), ref)
    ensures Window(YearPrevious, ref) == (Date(ref.year - 1, 1, 1), Date(ref.year - 1, 12, 31))
    ensures Window(YearNext, ref) == (Date(ref.year + 1, 1, 1), Date(ref.year + 1, 12, 31))
    ensures NextDay(Window(YearPrevious, ref).1) == Window(YearThis, ref).0
    ensures NextDay(Window(YearThis, ref).1) == Window(YearNext, ref).0
  {
    SubtractOneDay(Date(ref.year, 1, 1));
  }

  /** Frames not marked `includes_future` never reach past the reference date. */
  lemma PastFramesEndByRef(f: Frame, ref: Date)
    requires Valid(ref)
    requires f in {DaysToday, DaysLast7, DaysLast14, WeekToDate, WeekPrevious, MonthToDate,
                   MonthPrevious, QuarterToDate, QuarterPrevious, YearToDate, YearPrevious}
    ensures LessEq(Window(f, ref).1, ref)
  {
    match f
    case DaysLast7 => PastDaysWindows(ref);
    case DaysLast14 => PastDaysWindows(ref);
    case WeekPrevious =>
      WeekPreviousWindow(ref);
      WeekThisWindow(ref);
      var e := Window(WeekPrevious, ref).1;
      OrdinalNextDay(e);
      LessEqIffOrdinal(e, ref);
      LessEqIffOrdinal(WeekStart(ref), ref);
    case MonthPrevious => MonthWindows(ref);
    case QuarterPrevious => QuarterWindows(ref);
    case YearPrevious => YearWindows(ref);
    case _ =>
  }

  /** Frames marked `includes_future` reach at least to the reference date. */
  lemma FutureFramesReachRef(f: Frame, ref: Date)
    requires Valid(ref)
    requires f in {DaysTomorrow, DaysNext7, DaysNext14, WeekThis, WeekNext, MonthThis,
                   MonthNext, QuarterThis, QuarterNext, YearThis, YearNext}
    ensures LessEq(ref, Window(f, ref).1)
  {
    WindowOrdered(f, ref);
    match f
    case DaysTomorrow => NextDaysEnd(ref); LessEqIffOrdinal(ref, Window(f, ref).1);
    case DaysNext7 => NextDaysEnd(ref); LessEqIffOrdinal(ref, Window(f, ref).1);
    case DaysNext14 => NextDaysEnd(ref); LessEqIffOrdinal(ref, Window(f, ref).1);
    case WeekThis => WeekThisWindow(ref);
    case WeekNext =>
      WeekThisWindow(ref);
      WeekNextWindow(ref);
      var e := Window(WeekThis, ref).1;
      OrdinalNextDay(e);
      LessEqIffOrdinal(ref, e);
      LessEqIffOrdinal(NextDay(e), Window(f, ref).1);
      LessEqIffOrdinal(ref, Window(f, ref).1);
    case MonthThis => MonthWindows(ref);
    case MonthNext => MonthWindows(ref);
    case QuarterThis => QuarterWindows(ref);
    case QuarterNext =>
      QuarterWindows(ref);
      var e := Window(QuarterThis, ref).1;
      OrdinalNextDay(e);
      LessEqIffOrdinal(ref, e);
      LessEqIffOrdinal(NextDay(e), Window(f, ref).1);
      LessEqIffOrdinal(ref, Window(f, ref).1);
    case YearThis =>
    case YearNext =>
  }

  /** The `includes_future` flag of every row of the table matches its window. */
  lemma IncludesFutureFlag(ref: Date)
    requires Valid(ref)
    ensures forall i :: 0 <= i < |ReportingTimeframes| ==>
      if ReportingTimeframes[i].includesFuture
      then LessEq(ref, Window(ReportingTimeframes[i].frame, ref).1)
      else LessEq(Window(ReportingTimeframes[i].frame, ref).1, ref)
  {
    forall i | 0 <= i < |ReportingTimeframes|
      ensures if ReportingTimeframes[i].includesFuture
        then LessEq(ref, Window(ReportingTimeframes[i].frame, ref).1)
        else LessEq(Window(ReportingTimeframes[i].frame, ref).1, ref)
    {
      var t := ReportingTimeframes[i];
      if t.includesFuture {
        FutureFramesReachRef(t.frame, ref);
      } else {
        PastFramesEndByRef(t.frame, ref);
      }
    }
  }

  // ---------------------------------------------------------------------
  // Resolution and serialisation

  /** No identifier contains `/`, so none is read as a custom range. */
  lemma IdentifierHasNoSlash(f: Frame)
    ensures '/' !in f.Identifier()
  {
  }

  /** Distinct frames have distinct identifiers. */
  lemma IdentifierInjective(f: Frame, g: Frame)
    requires f.Identifier() == g.Identifier()
    ensures f == g
  {
  }

  /** The identifiers of the table are pairwise distinct. */
  lemma IdentifiersDistinct()
    ensures forall i, j :: 0 <= i < j < |ReportingTimeframes| ==>
      ReportingTimeframes[i].Identifier() != ReportingTimeframes[j].Identifier()
  {
    forall i, j | 0 <= i < j < |ReportingTimeframes|
      ensures ReportingTimeframes[i].Identifier() != ReportingTimeframes[j].Identifier()
    {
      if ReportingTimeframes[i].Identifier() == ReportingTimeframes[j].Identifier() {
        IdentifierInjective(ReportingTimeframes[i].frame, ReportingTimeframes[j].frame);
      }
    }
  }

  /** Every identifier of the table resolves to its own row's window. */
  lemma ResolveIdentifier(ref: Date, i: int)
    requires Valid(ref) && 0 <= i < |ReportingTimeframes|
    ensures ResolveToDatesInclusive(ref, ReportingTimeframes[i].Identifier())
         == Ok(Window(ReportingTimeframes[i].frame, ref))
  {
    var row := ReportingTimeframes[i];
    IdentifierHasNoSlash(row.frame);
    var found := Lookup(row.Identifier(), ReportingTimeframes);
    assert found.Some?;
    var j :| 0 <= j < |ReportingTimeframes| && ReportingTimeframes[j].Identifier() == row.Identifier()
      && ReportingTimeframes[j].frame == found.value;
    IdentifierInjective(ReportingTimeframes[j].frame, row.frame);
  }

  /** A text that is neither a custom range nor an identifier of the table is rejected. */
  lemma ResolveUnknown(ref: Date, frame: string)
    requires Valid(ref) && '/' !in frame
    requires forall i :: 0 <= i < |ReportingTimeframes| ==> ReportingTimeframes[i].Identifier() != frame
    ensures ResolveToDatesInclusive(ref, frame) == Err(InvalidTimeframe(frame))
  {
  }

  /** A custom range `a/b` resolves to exactly its two dates, whatever the reference date. */
  lemma ResolveCustom(ref: Date, a: Date, b: Date)
    requires Valid(ref) && InRange(a) && InRange(b)
    ensures ResolveToDatesInclusive(ref, Format(a) + "/" + Format(b)) == Ok((a, b))
  {
    SplitFirstJoin(Format(a), '/', Format(b));
    ParseFormat(a);
    ParseFormat(b);
  }

  /**
   * The datetime resolver agrees with the inclusive one: the same errors, and
   * on success midnight of the first day and midnight of the first day after
   * the window.
   */
  lemma DatetimesAgreeWithDates(ref: Date, frame: string)
    requires Valid(ref)
    ensures var dates := ResolveToDatesInclusive(ref, frame);
      var times := ResolveToDatetimes(ref, frame);
      && (dates.Err? <==> times.Err?)
      && (dates.Err? ==> times.error == dates.error)
      && (dates.Ok? ==>
            Valid(dates.value.1) && times.value == (Midnight(dates.value.0), Midnight(NextDay(dates.value.1))))
  {
    var dates := ResolveToDatesInclusive(ref, frame);
    if dates.Ok? {
      if '/' in frame {
        var parts := SplitFirst(frame, '/');
        assert Parse(parts.1).Some?;
      }
      AddOneDay(dates.value.1);
    }
  }

  /** `decompress(compress(['custom', a, b])) == ['custom', a, b]`. */
  lemma CompressDecompressCustom(a: Date, b: Date)
    requires InRange(a) && InRange(b)
    ensures var v := FrameValue("custom", Some(a), Some(b));
      Decompress(Compress(Values(v))) == Ok(Values(v))
  {
    SplitFirstJoin(Format(a), '/', Format(b));
    ParseFormat(a);
    ParseFormat(b);
  }

  /** No value, or the empty text, decompresses to `['unset', None, None]`, which compresses back to no value. */
  lemma DecompressUnset(value: Option<string>)
    requires value.None? || value.value == ""
    ensures Decompress(value) == Ok(Values(FrameValue("unset", None, None)))
    ensures Compress(Decompress(value).value) == None
  {
  }

  /** A plain identifier decompresses to the empty list, not to its own choice. */
  lemma DecompressIdentifier(i: int)
    requires 0 <= i < |ReportingTimeframes|
    ensures Decompress(Some(ReportingTimeframes[i].Identifier())) == Ok(EmptyList)
  {
    IdentifierHasNoSlash(ReportingTimeframes[i].frame);
  }

  /** A complete custom choice is cleaned into `a/b`, which resolves to exactly those dates. */
  lemma CleanCustomResolves(ref: Date, v: FrameValue, required: bool, includeFuture: bool)
    requires Valid(ref) && Writable(v)
    requires v.choice == "custom" && v.start.Some? && v.end.Some?
    ensures Clean(v, required, includeFuture).Ok? && Clean(v, required, includeFuture).value.Some?
    ensures ResolveToDatesInclusive(ref, Clean(v, required, includeFuture).value.value) == Ok((v.start.value, v.end.value))
  {
    ResolveCustom(ref, v.start.value, v.end.value);
  }

  /** A choice naming an offered row is cleaned into that identifier, which resolves to the row's window. */
  lemma CleanIdentifierResolves(ref: Date, v: FrameValue, required: bool, includeFuture: bool, i: int)
    requires Valid(ref) && Writable(v) && 0 <= i < |ReportingTimeframes|
    requires v.choice == ReportingTimeframes[i].Identifier() && Offered(ReportingTimeframes[i], includeFuture)
    ensures Clean(v, required, includeFuture) == Ok(Some(v.choice))
    ensures ResolveToDatesInclusive(ref, Clean(v, required, includeFuture).value.value)
         == Ok(Window(ReportingTimeframes[i].frame, ref))
  {
    IdentifierHasNoSlash(ReportingTimeframes[i].frame);
    OfferedIdentifiersSpec(ReportingTimeframes, includeFuture, v.choice);
    ResolveIdentifier(ref, i);
  }

  /** Without future frames, the identifier of a row that reaches into the future is not offered. */
  lemma FutureRowNotOffered(i: int)
    requires 0 <= i < |ReportingTimeframes| && ReportingTimeframes[i].includesFuture
    ensures ReportingTimeframes[i].Identifier() !in OfferedIdentifiers(ReportingTimeframes, false)
  {
    var x := ReportingTimeframes[i].Identifier();
    OfferedIdentifiersSpec(ReportingTimeframes, false, x);
    IdentifiersDistinct();
    forall j | 0 <= j < |ReportingTimeframes| && Offered(ReportingTimeframes[j], false)
      ensures ReportingTimeframes[j].Identifier() != x
    {
      assert i != j;
    }
  }

  /**
   * A row that reaches into the future is refused by a field built without
   * future frames: the choice is not among those offered.
   */
  lemma CleanRefusesFutureRow(v: FrameValue, required: bool, i: int)
    requires Writable(v) && 0 <= i < |ReportingTimeframes|
    requires v.choice == ReportingTimeframes[i].Identifier() && ReportingTimeframes[i].includesFuture
    ensures Clean(v, required, false) == Err(InvalidChoice(v.choice))
  {
    IdentifierHasNoSlash(ReportingTimeframes[i].frame);
    FutureRowNotOffered(i);
  }

  /** A choice that is neither a top choice nor an identifier of the table is refused. */
  lemma CleanRefusesUnknownChoice(v: FrameValue, required: bool, includeFuture: bool)
    requires Writable(v) && v.choice != "" && v.choice != "custom" && v.choice != "unset"
    requires forall i :: 0 <= i < |ReportingTimeframes| ==> ReportingTimeframes[i].Identifier() != v.choice
    ensures Clean(v, required, includeFuture) == Err(InvalidChoice(v.choice))
  {
    OfferedIdentifiersSpec(ReportingTimeframes, includeFuture, v.choice);
  }

  /** An identifier is offered exactly when some row carries it and is offered. */
  lemma {:induction false} OfferedIdentifiersSpec(table: seq<Timeframe>, includeFuture: bool, x: string)
    ensures x in OfferedIdentifiers(table, includeFuture)
        <==> exists i :: 0 <= i < |table| && table[i].Identifier() == x && Offered(table[i], includeFuture)
    decreases |table|
  {
    if table != [] {
      var init := table[..|table| - 1];
      OfferedIdentifiersSpec(init, includeFuture, x);
      assert forall i :: 0 <= i < |init| ==> init[i] == table[i];
      if exists i :: 0 <= i < |table| && table[i].Identifier() == x && Offered(table[i], includeFuture) {
        var i :| 0 <= i < |table| && table[i].Identifier() == x && Offered(table[i], includeFuture);
        if i < |init| {
          assert init[i] == table[i];
        }
      }
    }
  }

  /**
   * Every identifier the field offers resolves; without future frames, every
   * offered window ends by the reference date.
   */
  lemma OfferedFramesResolve(ref: Date, includeFuture: bool, x: string)
    requires Valid(ref)
    requires x in OfferedIdentifiers(ReportingTimeframes, includeFuture)
    ensures ResolveToDatesInclusive(ref, x).Ok?
    ensures !includeFuture ==> LessEq(ResolveToDatesInclusive(ref, x).value.1, ref)
  {
    OfferedIdentifiersSpec(ReportingTimeframes, includeFuture, x);
    var i :| 0 <= i < |ReportingTimeframes| && ReportingTimeframes[i].Identifier() == x
      && Offered(ReportingTimeframes[i], includeFuture);
    ResolveIdentifier(ref, i);
    IncludesFutureFlag(ref);
  }
}
