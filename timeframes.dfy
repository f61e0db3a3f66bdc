/**
 * Reporting timeframes: a table of named date windows, each resolved
 * relative to a reference date, and the serialised form of a chosen
 * timeframe (an identifier or `YYYY-MM-DD/YYYY-MM-DD`).
 */
module Timeframes {
  import opened Wrappers
  import opened Calendar
  import opened IsoDates
  import opened Text

  /** `_quarter_start`: the first day of the quarter that holds `d`. */
  function QuarterStart(d: Date): (r: Date)
    requires Valid(d)
    ensures Valid(r) && r.year == d.year && r.day == 1
    ensures r.month in {1, 4, 7, 10} && r.month <= d.month <= r.month + 2
    ensures LessEq(r, d)
  {
    Date(d.year, 1 + (d.month - 1) / 3 * 3, 1)
  }

  /** `_week_start`: the Monday on or before `d`. */
  function WeekStart(d: Date): (r: Date)
    requires Valid(d)
    ensures Valid(r) && Weekday(r) == 0
    ensures LessEq(r, d) && Ordinal(d) - 6 <= Ordinal(r)
    ensures Ordinal(r) == Ordinal(d) - Weekday(d)
  {
    var r := AddDays(d, -Weekday(d));
    OrdinalAddDays(d, -Weekday(d));
    WeekdayAddDays(d, -Weekday(d));
    LessEqIffOrdinal(r, d);
    r
  }

  function FirstOfMonth(d: Date): (r: Date)
    requires Valid(d)
    ensures Valid(r)
  {
    Date(d.year, d.month, 1)
  }

  function FirstOfYear(d: Date): (r: Date)
    ensures Valid(r)
  {
    Date(d.year, 1, 1)
  }

  /** The last day of `d`'s month. */
  function MonthEnd(d: Date): (r: Date)
    requires Valid(d)
    ensures Valid(r)
  {
    LastDayOfMonth(d.year, d.month)
  }

  /** The last day of the month two after `d`'s, in `d`'s year: the end of a quarter that starts in `d`'s month. */
  function QuarterEnd(d: Date): (r: Date)
    requires Valid(d) && d.month <= 10
    ensures Valid(r)
  {
    LastDayOfMonth(d.year, d.month + 2)
  }

  /** New Year's Eve of `d`'s year. */
  function YearEnd(d: Date): (r: Date)
    ensures Valid(r)
  {
    Date(d.year, 12, 31)
  }

  datatype Frame =
    | DaysToday | DaysLast7 | DaysLast14 | DaysTomorrow | DaysNext7 | DaysNext14
    | WeekThis | WeekToDate | WeekPrevious | WeekNext
    | MonthThis | MonthToDate | MonthPrevious | MonthNext
    | QuarterThis | QuarterToDate | QuarterPrevious | QuarterNext
    | YearThis | YearToDate | YearPrevious | YearNext
  {
    predicate IsQuarter() {
      QuarterThis? || QuarterToDate? || QuarterPrevious? || QuarterNext?
    }

    /** The serialised name of the frame, the first column of its row. */
    function Identifier(): string {
      match this
      case DaysToday => "days_today"
      case DaysLast7 => "days_last7"
      case DaysLast14 => "days_last14"
      case DaysTomorrow => "days_tomorrow"
      case DaysNext7 => "days_next7"
      case DaysNext14 => "days_next14"
      case WeekThis => "week_this"
      case WeekToDate => "week_to_date"
      case WeekPrevious => "week_previous"
      case WeekNext => "week_next"
      case MonthThis => "month_this"
      case MonthToDate => "month_to_date"
      case MonthPrevious => "month_previous"
      case MonthNext => "month_next"
      case QuarterThis => "quarter_this"
      case QuarterToDate => "quarter_to_date"
      case QuarterPrevious => "quarter_previous"
      case QuarterNext => "quarter_next"
      case YearThis => "year_this"
      case YearToDate => "year_to_date"
      case YearPrevious => "year_previous"
      case YearNext => "year_next"
    }
  }

  /** The option group a timeframe is listed under. */
  datatype Group = ByDay | ByWeek | ByMonth | ByQuarter | ByYear

  /** One row of `REPORTING_DATE_TIMEFRAMES` (labels and descriptions are display text and left out). */
  datatype Timeframe = Timeframe(frame: Frame, includesFuture: bool, group: Group) {
    function Identifier(): string {
      frame.Identifier()
    }
  }

  const ReportingTimeframes: seq<Timeframe> := [
    Timeframe(DaysToday, false, ByDay),
    Timeframe(DaysLast7, false, ByDay),
    Timeframe(DaysLast14, false, ByDay),
    Timeframe(DaysTomorrow, true, ByDay),
    Timeframe(DaysNext7, true, ByDay),
    Timeframe(DaysNext14, true, ByDay),
    Timeframe(WeekThis, true, ByWeek),
    Timeframe(WeekToDate, false, ByWeek),
    Timeframe(WeekPrevious, false, ByWeek),
    Timeframe(WeekNext, true, ByWeek),
    Timeframe(MonthThis, true, ByMonth),
    Timeframe(MonthToDate, false, ByMonth),
    Timeframe(MonthPrevious, false, ByMonth),
    Timeframe(MonthNext, true, ByMonth),
    Timeframe(QuarterThis, true, ByQuarter),
    Timeframe(QuarterToDate, false, ByQuarter),
    Timeframe(QuarterPrevious, false, ByQuarter),
    Timeframe(QuarterNext, true, ByQuarter),
    Timeframe(YearThis, true, ByYear),
    Timeframe(YearToDate, false, ByYear),
    Timeframe(YearPrevious, false, ByYear),
    Timeframe(YearNext, true, ByYear)
  ]

  /** The `start_inclusive` lambda of each row. */
  function FrameStart(f: Frame, ref: Date): (r: Date)
    requires Valid(ref)
    ensures Valid(r)
    ensures f.IsQuarter() ==> r.month in {1, 4, 7, 10}
  {
    match f
    case DaysToday => ref
    case DaysLast7 => AddDays(ref, -6)
    case DaysLast14 => AddDays(ref, -13)
    case DaysTomorrow => AddDays(ref, 1)
    case DaysNext7 => AddDays(ref, 1)
    case DaysNext14 => AddDays(ref, 1)
    case WeekThis => WeekStart(ref)
    case WeekToDate => WeekStart(ref)
    case WeekPrevious => AddDays(WeekStart(ref), -7)
    case WeekNext => WeekStart(AddDays(ref, 7))
    case MonthThis => FirstOfMonth(ref)
    case MonthToDate => FirstOfMonth(ref)
    case MonthPrevious => FirstOfMonth(AddDays(FirstOfMonth(ref), -1))
    case MonthNext => AddDays(MonthEnd(ref), 1)
    case QuarterThis => QuarterStart(ref)
    case QuarterToDate => QuarterStart(ref)
    case QuarterPrevious => QuarterStart(AddDays(QuarterStart(ref), -1))
    case QuarterNext =>
      var last := LastDayOfMonth(ref.year, QuarterStart(ref).month + 2);
      AddOneDay(last);
      AddDays(last, 1)
    case YearThis => FirstOfYear(ref)
    case YearToDate => FirstOfYear(ref)
    case YearPrevious => FirstOfYear(AddDays(FirstOfYear(ref), -1))
    case YearNext => Date(ref.year + 1, 1, 1)
  }

  /** The `end_inclusive` lambda of each row, given the reference date and the resolved start. */
  function FrameEnd(f: Frame, ref: Date, start: Date): (r: Date)
    requires Valid(ref) && Valid(start)
    requires f.IsQuarter() ==> start.month in {1, 4, 7, 10}
    ensures Valid(r)
  {
    match f
    case DaysToday => start
    case DaysLast7 => AddDays(start, 6)
    case DaysLast14 => AddDays(start, 13)
    case DaysTomorrow => start
    case DaysNext7 => AddDays(start, 6)
    case DaysNext14 => AddDays(start, 13)
    case WeekThis => AddDays(start, 6)
    case WeekToDate => ref
    case WeekPrevious => AddDays(start, 6)
    case WeekNext => AddDays(start, 6)
    case MonthThis => MonthEnd(start)
    case MonthToDate => ref
    case MonthPrevious => MonthEnd(start)
    case MonthNext => MonthEnd(start)
    case QuarterThis => QuarterEnd(start)
    case QuarterToDate => ref
    case QuarterPrevious => QuarterEnd(start)
    case QuarterNext => QuarterEnd(start)
    case YearThis => YearEnd(start)
    case YearToDate => ref
    case YearPrevious => YearEnd(start)
    case YearNext => YearEnd(start)
  }

  /** A table row evaluated at `ref`: `(start(ref), end(ref, start(ref)))`. */
  function Window(f: Frame, ref: Date): (w: (Date, Date))
    requires Valid(ref)
    ensures Valid(w.0) && Valid(w.1)
  {
    var start := FrameStart(f, ref);
    (start, FrameEnd(f, ref, start))
  }

  /** The linear search of the table for a row with the given identifier. */
  function Lookup(frame: string, table: seq<Timeframe>): (r: Option<Frame>)
    ensures r.None? <==> forall i :: 0 <= i < |table| ==> table[i].Identifier() != frame
    ensures r.Some? ==> exists i :: 0 <= i < |table| && table[i].Identifier() == frame && table[i].frame == r.value
  {
    if table == [] then None
    else if table[0].Identifier() == frame then Some(table[0].frame)
    else
      var r := Lookup(frame, table[1..]);
      assert forall i :: 1 <= i < |table| ==> table[i] == table[1..][i - 1];
      r
  }

  datatype ResolveError =
    | InvalidTimeframe(frame: string)  // `ValueError("Invalid timeframe ...")`
    | InvalidIsoDate(text: string)     // `ValueError` from `date.fromisoformat`

  /** Two `date.fromisoformat` calls, left to right, as the custom branch of both resolvers makes them. */
  function ParseCustom(frame: string): (r: Result<(Date, Date), ResolveError>)
    requires '/' in frame
  {
    var (start, end) := SplitFirst(frame, '/');
    match (Parse(start), Parse(end))
    case (None, _) => Err(InvalidIsoDate(start))
    case (Some(_), None) => Err(InvalidIsoDate(end))
    case (Some(s), Some(e)) => Ok((s, e))
  }

  /** `resolve_timeframe_to_dates_inclusive` with a date reference. */
  function ResolveToDatesInclusive(ref: Date, frame: string): (r: Result<(Date, Date), ResolveError>)
    requires Valid(ref)
  {
    if '/' in frame then ParseCustom(frame)
    else match Lookup(frame, ReportingTimeframes)
      case Some(f) => Ok(Window(f, ref))
      case None => Err(InvalidTimeframe(frame))
  }

  /** A naive date-time; the resolvers only produce midnights. */
  datatype DateTime = DateTime(date: Date, hour: int, minute: int, second: int)

  function Midnight(d: Date): DateTime {
    DateTime(d, 0, 0, 0)
  }

  /**
   * `resolve_timeframe_to_datetime_start_inclusive_end_exclusive` with a date
   * reference: midnight of the first day and midnight of the day after the last.
   */
  function ResolveToDatetimes(ref: Date, frame: string): (r: Result<(DateTime, DateTime), ResolveError>)
    requires Valid(ref)
  {
    var dates :=
      if '/' in frame then ParseCustom(frame)
      else match Lookup(frame, ReportingTimeframes)
        case Some(f) => Ok(Window(f, ref))
        case None => Err(InvalidTimeframe(frame));
    match dates
    case Err(e) => Err(e)
    case Ok((start, end)) =>
      assert Valid(end) by {
        if '/' in frame {
          var parts := SplitFirst(frame, '/');
          assert Parse(parts.1).Some?;
        }
      }
      Ok((Midnight(start), Midnight(AddDays(end, 1))))
  }

  // ---------------------------------------------------------------------
  // The form field's serialised value

  /** The cleaned values of the three sub-fields: the choice and the two custom dates. */
  datatype FrameValue = FrameValue(choice: string, start: Option<Date>, end: Option<Date>)

  /** The `data_list` given to `compress` / returned by `decompress`: empty, or three values. */
  datatype DataList = EmptyList | Values(value: FrameValue)

  /** The dates a value carries can be written in ISO form. */
  predicate Writable(v: FrameValue) {
    (v.start.Some? ==> InRange(v.start.value)) && (v.end.Some? ==> InRange(v.end.value))
  }

  /** `DateFrameField.compress`. */
  function Compress(data: DataList): (r: Option<string>)
    requires data.Values? ==> Writable(data.value)
    requires data.Values? && data.value.choice == "custom" ==> data.value.start.Some? && data.value.end.Some?
    ensures r.None? <==> (data.EmptyList? || data.value.choice == "unset")
    ensures r.Some? && data.value.choice != "custom" ==> r.value == data.value.choice
  {
    match data
    case EmptyList => None
    case Values(v) =>
      if v.choice == "unset" then None
      else if v.choice == "custom" then Some(Format(v.start.value) + "/" + Format(v.end.value))
      else Some(v.choice)
  }

  datatype CleanError =
    | Incomplete                      // `error_messages['incomplete']`
    | Required                        // `error_messages['required']`
    | InvalidChoice(choice: string)   // the choice sub-field's `invalid_choice`

  /**
   * The values the choice sub-field accepts: the top choices (`unset` only
   * when the field is optional) and the identifiers of the offered rows,
   * the choices `BuildChoices` lists.
   */
  predicate ValidChoice(choice: string, required: bool, includeFuture: bool) {
    || choice == "custom"
    || (!required && choice == "unset")
    || choice in OfferedIdentifiers(ReportingTimeframes, includeFuture)
  }

  /**
   * `DateFrameField.clean` and then `MultiValueField.clean`: a custom choice
   * needs both dates; a value with every part empty is rejected when the
   * field is required and is no value otherwise; an empty choice beside a
   * date is incomplete; the choice must be one the field offers. The cleaned
   * dates are the output of the two optional date sub-fields; the empty
   * choice is `""`.
   */
  function Clean(v: FrameValue, required: bool, includeFuture: bool): (r: Result<Option<string>, CleanError>)
    requires Writable(v)
    ensures r == Err(Incomplete) <==>
      || (v.choice == "custom" && (v.start.None? || v.end.None?))
      || (v.choice == "" && (v.start.Some? || v.end.Some?))
    ensures r == Err(Required) <==> required && v == FrameValue("", None, None)
    ensures (r.Err? && r.error.InvalidChoice?) <==> v.choice != "" && !ValidChoice(v.choice, required, includeFuture)
    ensures r.Ok? ==> (v.choice == "" || ValidChoice(v.choice, required, includeFuture))
    ensures r.Ok? ==> (r.value.None? <==> v.choice == "" || v.choice == "unset")
    ensures r.Ok? && r.value.Some? && v.choice != "custom" ==> r.value.value == v.choice
  {
    if v.choice == "custom" && (v.start.None? || v.end.None?) then Err(Incomplete)
    else if v.choice == "" && v.start.None? && v.end.None? then
      if required then Err(Required) else Ok(None)
    else if v.choice == "" then Err(Incomplete)
    else if !ValidChoice(v.choice, required, includeFuture) then Err(InvalidChoice(v.choice))
    else Ok(Compress(Values(v)))
  }

  /** `DateFrameWidget.decompress`; `value` is `None` or a string, and `""` counts as no value. */
  function Decompress(value: Option<string>): (r: Result<DataList, ResolveError>)
  {
    if value.None? || value.value == "" then Ok(Values(FrameValue("unset", None, None)))
    else if '/' in value.value then
      match ParseCustom(value.value)
      case Err(e) => Err(e)
      case Ok((s, e)) => Ok(Values(FrameValue("custom", Some(s), Some(e))))
    else Ok(EmptyList)
  }

  // ---------------------------------------------------------------------
  // The choices the field offers (`DateFrameField.__init__`)

  /** An option group: its label and the identifiers listed under it. */
  datatype ChoiceGroup = ChoiceGroup(group: Group, identifiers: seq<string>)

  /** Whether a row is offered: future frames only when they are asked for. */
  predicate Offered(t: Timeframe, includeFuture: bool) {
    includeFuture || !t.includesFuture
  }

  /** The identifiers of the offered rows of `table`, in table order. */
  function OfferedIdentifiers(table: seq<Timeframe>, includeFuture: bool): seq<string> {
    if table == [] then []
    else
      var rest := OfferedIdentifiers(table[..|table| - 1], includeFuture);
      var last := table[|table| - 1];
      if Offered(last, includeFuture) then rest + [last.Identifier()] else rest
  }

  function FlattenGroups(groups: seq<ChoiceGroup>): seq<string> {
    if groups == [] then [] else FlattenGroups(groups[..|groups| - 1]) + groups[|groups| - 1].identifiers
  }

  function Labels(groups: seq<ChoiceGroup>): seq<Group> {
    if groups == [] then [] else Labels(groups[..|groups| - 1]) + [groups[|groups| - 1].group]
  }

  /** The group labels of `table`, with adjacent repetitions collapsed (what `itertools.groupby` yields). */
  function Runs(table: seq<Timeframe>): seq<Group> {
    if table == [] then []
    else
      var rest := Runs(table[..|table| - 1]);
      var g := table[|table| - 1].group;
      if rest != [] && rest[|rest| - 1] == g then rest else rest + [g]
  }

  /** The position, among the runs of equal labels, of the run that row `i` belongs to. */
  function RunOf(table: seq<Timeframe>, i: nat): int
    requires i < |table|
  {
    |Runs(table[..i + 1])| - 1
  }

  lemma FlattenAppend(groups: seq<ChoiceGroup>, g: ChoiceGroup)
    ensures FlattenGroups(groups + [g]) == FlattenGroups(groups) + g.identifiers
  {
    assert (groups + [g])[..|groups|] == groups;
  }

  lemma LabelsAppend(groups: seq<ChoiceGroup>, g: ChoiceGroup)
    ensures Labels(groups + [g]) == Labels(groups) + [g.group]
  {
    assert (groups + [g])[..|groups|] == groups;
  }

  lemma {:induction false} LabelsLength(groups: seq<ChoiceGroup>)
    ensures |Labels(groups)| == |groups|
    ensures forall i :: 0 <= i < |groups| ==> Labels(groups)[i] == groups[i].group
  {
    if groups != [] {
      LabelsLength(groups[..|groups| - 1]);
    }
  }

  lemma OfferedStep(table: seq<Timeframe>, i: nat, includeFuture: bool)
    requires i < |table|
    ensures OfferedIdentifiers(table[..i + 1], includeFuture)
         == OfferedIdentifiers(table[..i], includeFuture)
            + (if Offered(table[i], includeFuture) then [table[i].Identifier()] else [])
  {
    assert table[..i + 1][..i] == table[..i];
  }

  lemma RunsStep(table: seq<Timeframe>, i: nat)
    requires i < |table|
    ensures var rest := Runs(table[..i]);
      Runs(table[..i + 1]) == if rest != [] && rest[|rest| - 1] == table[i].group then rest else rest + [table[i].group]
  {
    assert table[..i + 1][..i] == table[..i];
  }

  /** Opening a new, empty group adds its label and no identifier. */
  lemma OpenGroup(groups: seq<ChoiceGroup>, g: Group)
    ensures FlattenGroups(groups + [ChoiceGroup(g, [])]) == FlattenGroups(groups)
    ensures Labels(groups + [ChoiceGroup(g, [])]) == Labels(groups) + [g]
  {
    FlattenAppend(groups, ChoiceGroup(g, []));
    LabelsAppend(groups, ChoiceGroup(g, []));
  }

  /** Appending an identifier to the last group appends it to the flattened list. */
  lemma GrowLast(groups: seq<ChoiceGroup>, id: string)
    requires groups != []
    ensures var last := groups[|groups| - 1];
      var grown := groups[..|groups| - 1] + [last.(identifiers := last.identifiers + [id])];
      FlattenGroups(grown) == FlattenGroups(groups) + [id] && Labels(grown) == Labels(groups)
  {
    var last := groups[|groups| - 1];
    var init := groups[..|groups| - 1];
    assert groups == init + [last];
    FlattenAppend(init, last);
    LabelsAppend(init, last);
    FlattenAppend(init, last.(identifiers := last.identifiers + [id]));
    LabelsAppend(init, last.(identifiers := last.identifiers + [id]));
  }

  /**
   * After the first `n` rows: each offered row sits in the group of its run,
   * and every identifier in a group comes from an offered row of that run.
   */
  ghost predicate Placed(table: seq<Timeframe>, n: nat, groups: seq<ChoiceGroup>, includeFuture: bool)
    requires n <= |table|
  {
    && (forall j :: 0 <= j < n && Offered(table[j], includeFuture) ==>
          0 <= RunOf(table, j) < |groups| && table[j].Identifier() in groups[RunOf(table, j)].identifiers)
    && (forall k, x :: 0 <= k < |groups| && x in groups[k].identifiers ==>
          exists j :: 0 <= j < n && RunOf(table, j) == k && Offered(table[j], includeFuture) && table[j].Identifier() == x)
  }

  /** Opening an empty group places nothing new. */
  lemma PlacedOpen(table: seq<Timeframe>, n: nat, groups: seq<ChoiceGroup>, g: Group, includeFuture: bool)
    requires n <= |table| && Placed(table, n, groups, includeFuture)
    ensures Placed(table, n, groups + [ChoiceGroup(g, [])], includeFuture)
  {
    var extended := groups + [ChoiceGroup(g, [])];
    forall k, x | 0 <= k < |extended| && x in extended[k].identifiers
      ensures exists j :: 0 <= j < n && RunOf(table, j) == k && Offered(table[j], includeFuture) && table[j].Identifier() == x
    {
      assert k < |groups| && extended[k] == groups[k];
    }
  }

  /** An offered row joins the last group, which is the group of its run; the other groups stay as they are. */
  lemma PlacedGrow(table: seq<Timeframe>, i: nat, groups: seq<ChoiceGroup>, grown: seq<ChoiceGroup>, includeFuture: bool)
    requires i < |table| && Placed(table, i, groups, includeFuture)
    requires Offered(table[i], includeFuture) && groups != [] && RunOf(table, i) == |groups| - 1
    requires |grown| == |groups| && forall k :: 0 <= k < |groups| - 1 ==> grown[k] == groups[k]
    requires grown[|groups| - 1].identifiers == groups[|groups| - 1].identifiers + [table[i].Identifier()]
    ensures Placed(table, i + 1, grown, includeFuture)
  {
    var last := |groups| - 1;
    var id := table[i].Identifier();
    forall j | 0 <= j < i + 1 && Offered(table[j], includeFuture)
      ensures 0 <= RunOf(table, j) < |grown| && table[j].Identifier() in grown[RunOf(table, j)].identifiers
    {
      var k := RunOf(table, j);
      if j < i {
        assert table[j].Identifier() in groups[k].identifiers;
        if k < last {
          assert grown[k] == groups[k];
        }
      }
    }
    forall k, x | 0 <= k < |grown| && x in grown[k].identifiers
      ensures exists j :: 0 <= j < i + 1 && RunOf(table, j) == k && Offered(table[j], includeFuture) && table[j].Identifier() == x
    {
      if k == last && x == id {
        assert RunOf(table, i) == k;
      } else {
        if k < last {
          assert grown[k] == groups[k];
        }
        assert x in groups[k].identifiers;
        var j :| 0 <= j < i && RunOf(table, j) == k && Offered(table[j], includeFuture) && table[j].Identifier() == x;
        assert 0 <= j < i + 1;
      }
    }
  }

  /** A row that is not offered leaves the groups as they are. */
  lemma PlacedSkip(table: seq<Timeframe>, i: nat, groups: seq<ChoiceGroup>, includeFuture: bool)
    requires i < |table| && Placed(table, i, groups, includeFuture) && !Offered(table[i], includeFuture)
    ensures Placed(table, i + 1, groups, includeFuture)
  {
  }

  /** `Placed` after the whole table, spelt out. */
  lemma PlacedAll(table: seq<Timeframe>, groups: seq<ChoiceGroup>, includeFuture: bool)
    requires Placed(table, |table|, groups, includeFuture)
    ensures forall j :: 0 <= j < |table| && Offered(table[j], includeFuture) ==>
      0 <= RunOf(table, j) < |groups| && table[j].Identifier() in groups[RunOf(table, j)].identifiers
    ensures forall k, x :: 0 <= k < |groups| && x in groups[k].identifiers ==>
      exists j :: 0 <= j < |table| && RunOf(table, j) == k && Offered(table[j], includeFuture) && table[j].Identifier() == x
  {
  }

  /** The groups once row `t` is reached: a new, empty group when its label differs from the last one. */
  function OpenFor(groups: seq<ChoiceGroup>, t: Timeframe): (r: seq<ChoiceGroup>)
    ensures r != [] && r[|r| - 1].group == t.group
  {
    if groups == [] || groups[|groups| - 1].group != t.group then groups + [ChoiceGroup(t.group, [])] else groups
  }

  /** One row of the `groupby` loop: open a group when the label changes, then list the row if it is offered. */
  function AddRow(groups: seq<ChoiceGroup>, t: Timeframe, includeFuture: bool): seq<ChoiceGroup> {
    var extended := OpenFor(groups, t);
    var last := extended[|extended| - 1];
    if Offered(t, includeFuture) then extended[..|extended| - 1] + [last.(identifiers := last.identifiers + [t.Identifier()])]
    else extended
  }

  /** Adding row `i` keeps the flattened identifiers and the labels in step with the table. */
  lemma AddRowStep(table: seq<Timeframe>, i: nat, groups: seq<ChoiceGroup>, includeFuture: bool)
    requires i < |table|
    requires FlattenGroups(groups) == OfferedIdentifiers(table[..i], includeFuture)
    requires Labels(groups) == Runs(table[..i])
    ensures FlattenGroups(AddRow(groups, table[i], includeFuture)) == OfferedIdentifiers(table[..i + 1], includeFuture)
    ensures Labels(AddRow(groups, table[i], includeFuture)) == Runs(table[..i + 1])
    ensures RunOf(table, i) == |OpenFor(groups, table[i])| - 1
  {
    var t := table[i];
    OfferedStep(table, i, includeFuture);
    RunsStep(table, i);
    LabelsLength(groups);
    var extended := OpenFor(groups, t);
    if groups == [] || groups[|groups| - 1].group != t.group {
      OpenGroup(groups, t.group);
    }
    assert Labels(extended) == Runs(table[..i + 1]);
    LabelsLength(extended);
    if Offered(t, includeFuture) {
      GrowLast(extended, t.Identifier());
    }
  }

  /** Adding row `i` puts it, if offered, in the group of its run, and nothing else moves. */
  lemma AddRowPlaced(table: seq<Timeframe>, i: nat, groups: seq<ChoiceGroup>, includeFuture: bool)
    requires i < |table| && Placed(table, i, groups, includeFuture)
    requires RunOf(table, i) == |OpenFor(groups, table[i])| - 1
    ensures Placed(table, i + 1, AddRow(groups, table[i], includeFuture), includeFuture)
  {
    var t := table[i];
    var extended := OpenFor(groups, t);
    if groups == [] || groups[|groups| - 1].group != t.group {
      PlacedOpen(table, i, groups, t.group, includeFuture);
    }
    if Offered(t, includeFuture) {
      var last := extended[|extended| - 1];
      var grown := extended[..|extended| - 1] + [last.(identifiers := last.identifiers + [t.Identifier()])];
      PlacedGrow(table, i, extended, grown, includeFuture);
    } else {
      PlacedSkip(table, i, extended, includeFuture);
    }
  }

  /**
   * The `groupby` loop: one group per run of equal labels, holding the
   * offered identifiers; each offered row sits in the group of its own run,
   * and a group holds nothing else.
   */
  method GroupOffered(table: seq<Timeframe>, includeFuture: bool) returns (groups: seq<ChoiceGroup>)
    ensures FlattenGroups(groups) == OfferedIdentifiers(table, includeFuture)
    ensures Labels(groups) == Runs(table)
    ensures forall j :: 0 <= j < |table| && Offered(table[j], includeFuture) ==>
      0 <= RunOf(table, j) < |groups| && table[j].Identifier() in groups[RunOf(table, j)].identifiers
    ensures forall k, x :: 0 <= k < |groups| && x in groups[k].identifiers ==>
      exists j :: 0 <= j < |table| && RunOf(table, j) == k && Offered(table[j], includeFuture) && table[j].Identifier() == x
  {
    groups := [];
    var i := 0;
    while i < |table|
      invariant 0 <= i <= |table|
      invariant FlattenGroups(groups) == OfferedIdentifiers(table[..i], includeFuture)
      invariant Labels(groups) == Runs(table[..i])
      invariant Placed(table, i, groups, includeFuture)
    {
      var t := table[i];
      AddRowStep(table, i, groups, includeFuture);
      AddRowPlaced(table, i, groups, includeFuture);
      groups := AddRow(groups, t, includeFuture);
      i := i + 1;
    }
    assert table[..i] == table;
    PlacedAll(table, groups, includeFuture);
  }

  /**
   * The choices of `DateFrameField`: the top group (`unset` first when the field
   * is optional, then `custom`) and one option group per run of equal group
   * labels in the table, holding the identifiers of the offered rows.
   */
  method BuildChoices(required: bool, includeFuture: bool) returns (top: seq<string>, groups: seq<ChoiceGroup>)
    ensures top == if required then ["custom"] else ["unset", "custom"]
    ensures FlattenGroups(groups) == OfferedIdentifiers(ReportingTimeframes, includeFuture)
    ensures Labels(groups) == Runs(ReportingTimeframes)
    ensures forall j :: 0 <= j < |ReportingTimeframes| && Offered(ReportingTimeframes[j], includeFuture) ==>
      0 <= RunOf(ReportingTimeframes, j) < |groups|
      && ReportingTimeframes[j].Identifier() in groups[RunOf(ReportingTimeframes, j)].identifiers
    ensures forall k, x :: 0 <= k < |groups| && x in groups[k].identifiers ==>
      exists j :: 0 <= j < |ReportingTimeframes| && RunOf(ReportingTimeframes, j) == k
        && Offered(ReportingTimeframes[j], includeFuture) && ReportingTimeframes[j].Identifier() == x
  {
    top := ["custom"];
    if !required {
      top := ["unset"] + top;
    }
    groups := GroupOffered(ReportingTimeframes, includeFuture);
  }
}
