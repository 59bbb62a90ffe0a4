/** Integrity checks on raw OHLCV frames before they enter the funnel:
    required columns, missing values, the high/low envelope, non-negative
    volume, gaps in the time index, and a summary of a frame. */
module DataValidator {
  import opened Common
  import opened Bars

  datatype Column = OpenColumn | HighColumn | LowColumn | CloseColumn | VolumeColumn

  /** A row as loaded; None is a NaN cell. time is in minutes. */
  datatype RawRow = RawRow(time: int, open: Option<real>, high: Option<real>, low: Option<real>,
                           close: Option<real>, volume: Option<real>)

  /** A loaded frame: which of the five columns it has, and its rows. */
  datatype RawFrame = RawFrame(columns: set<Column>, rows: seq<RawRow>)

  const RequiredColumns: seq<Column> := [OpenColumn, HighColumn, LowColumn, CloseColumn, VolumeColumn]

  function Field(r: RawRow, c: Column): Option<real>
  {
    match c
    case OpenColumn => r.open
    case HighColumn => r.high
    case LowColumn => r.low
    case CloseColumn => r.close
    case VolumeColumn => r.volume
  }

  /** The position of a column in the required-column list. */
  function ColumnRank(c: Column): (k: nat)
    ensures k < |RequiredColumns| && RequiredColumns[k] == c
  {
    match c
    case OpenColumn => 0
    case HighColumn => 1
    case LowColumn => 2
    case CloseColumn => 3
    case VolumeColumn => 4
  }

  /** A column the frame lacks. */
  function AbsentFn(df: RawFrame): Column -> Option<Column>
  {
    c => if c in df.columns then None else Some(c)
  }

  /** The required columns the frame lacks, in the fixed column order, each
      once. */
  function MissingColumnsOf(df: RawFrame): (missing: seq<Column>)
    ensures forall c :: c in missing <==> c in RequiredColumns && c !in df.columns
    ensures forall i, j :: 0 <= i < j < |missing| ==> ColumnRank(missing[i]) < ColumnRank(missing[j])
  {
    AbsentColumns(df);
    FilterMap(RequiredColumns, AbsentFn(df))
  }

  lemma AbsentColumns(df: RawFrame)
    ensures forall c :: c in FilterMap(RequiredColumns, AbsentFn(df)) <==> c in RequiredColumns && c !in df.columns
    ensures forall i, j :: 0 <= i < j < |FilterMap(RequiredColumns, AbsentFn(df))| ==>
              ColumnRank(FilterMap(RequiredColumns, AbsentFn(df))[i]) < ColumnRank(FilterMap(RequiredColumns, AbsentFn(df))[j])
  {
    var f := AbsentFn(df);
    forall c
      ensures c in FilterMap(RequiredColumns, f) <==> c in RequiredColumns && c !in df.columns
    {
      FilterMapMember(RequiredColumns, f, c);
      if c !in df.columns {
        assert f(RequiredColumns[ColumnRank(c)]) == Some(c);
      }
    }
    forall c: Column
      ensures f(c).Some? ==> ColumnRank(f(c).value) == ColumnRank(c)
    {
    }
    FilterMapRanked(RequiredColumns, f, ColumnRank, ColumnRank);
  }

  lemma EveryColumnRequired()
    ensures forall c: Column :: c in RequiredColumns
  {
    forall c: Column
      ensures c in RequiredColumns
    {
      match c
      case OpenColumn => assert RequiredColumns[0] == c;
      case HighColumn => assert RequiredColumns[1] == c;
      case LowColumn => assert RequiredColumns[2] == c;
      case CloseColumn => assert RequiredColumns[3] == c;
      case VolumeColumn => assert RequiredColumns[4] == c;
    }
  }

  /** The six row-wise rules, in the order they are checked. */
  datatype Rule = HighBelowLow | HighBelowOpen | HighBelowClose | LowAboveOpen | LowAboveClose | NegativeVolume

  const Rules: seq<Rule> := [HighBelowLow, HighBelowOpen, HighBelowClose, LowAboveOpen, LowAboveClose, NegativeVolume]

  /** The position of a rule in the rule list. */
  function RuleRank(rule: Rule): (k: nat)
    ensures k < |Rules| && Rules[k] == rule
  {
    match rule
    case HighBelowLow => 0
    case HighBelowOpen => 1
    case HighBelowClose => 2
    case LowAboveOpen => 3
    case LowAboveClose => 4
    case NegativeVolume => 5
  }

  lemma EveryRuleChecked()
    ensures forall rule: Rule :: rule in Rules
  {
    forall rule: Rule
      ensures rule in Rules
    {
      match rule
      case HighBelowLow => assert Rules[0] == rule;
      case HighBelowOpen => assert Rules[1] == rule;
      case HighBelowClose => assert Rules[2] == rule;
      case LowAboveOpen => assert Rules[3] == rule;
      case LowAboveClose => assert Rules[4] == rule;
      case NegativeVolume => assert Rules[5] == rule;
    }
  }

  /** A row breaks a rule; a comparison involving NaN is false, so a row with
      a missing cell never breaks a rule on that cell. */
  predicate Violates(r: RawRow, rule: Rule)
  {
    match rule
    case HighBelowLow => r.high.Some? && r.low.Some? && r.high.value < r.low.value
    case HighBelowOpen => r.high.Some? && r.open.Some? && r.high.value < r.open.value
    case HighBelowClose => r.high.Some? && r.close.Some? && r.high.value < r.close.value
    case LowAboveOpen => r.low.Some? && r.open.Some? && r.low.value > r.open.value
    case LowAboveClose => r.low.Some? && r.close.Some? && r.low.value > r.close.value
    case NegativeVolume => r.volume.Some? && r.volume.value < 0.0
  }

  function CountMissing(rows: seq<RawRow>, c: Column): (n: nat)
    ensures n <= |rows|
    ensures n == 0 <==> forall i :: 0 <= i < |rows| ==> Field(rows[i], c).Some?
  {
    if rows == [] then 0
    else CountMissing(rows[..|rows| - 1], c) + (if Field(rows[|rows| - 1], c).None? then 1 else 0)
  }

  function CountViolations(rows: seq<RawRow>, rule: Rule): (n: nat)
    ensures n <= |rows|
    ensures n == 0 <==> forall i :: 0 <= i < |rows| ==> !Violates(rows[i], rule)
  {
    if rows == [] then 0
    else CountViolations(rows[..|rows| - 1], rule) + (if Violates(rows[|rows| - 1], rule) then 1 else 0)
  }

  /** Clean rows give every count zero. */
  lemma CleanRowsPassEveryCheck(rows: seq<RawRow>)
    requires forall i :: 0 <= i < |rows| ==> CleanRow(rows[i])
    ensures forall c :: CountMissing(rows, c) == 0
    ensures forall rule :: CountViolations(rows, rule) == 0
  {
    forall c, i | 0 <= i < |rows|
      ensures Field(rows[i], c).Some?
    {
      match c
      case OpenColumn =>
      case HighColumn =>
      case LowColumn =>
      case CloseColumn =>
      case VolumeColumn =>
    }
    forall rule, i | 0 <= i < |rows|
      ensures !Violates(rows[i], rule)
    {
      match rule
      case HighBelowLow =>
      case HighBelowOpen =>
      case HighBelowClose =>
      case LowAboveOpen =>
      case LowAboveClose =>
      case NegativeVolume =>
    }
  }

  datatype Problem =
    | MissingColumns(columns: seq<Column>)
    | MissingValues(column: Column, count: nat)
    | Violations(rule: Rule, count: nat)

  /** The slot of a rule's message in the report. */
  function RuleSlot(rule: Rule): nat
  {
    |RequiredColumns| + RuleRank(rule)
  }

  /** Where a message stands in the report: the missing-value messages in
      column order, then the rule messages in rule order. */
  function ProblemRank(e: Problem): nat
  {
    match e
    case MissingColumns(_) => 0
    case MissingValues(c, _) => ColumnRank(c)
    case Violations(rule, _) => RuleSlot(rule)
  }

  /** Messages strictly in report order, so none is repeated. */
  predicate InReportOrder(errors: seq<Problem>)
  {
    forall a, b :: 0 <= a < b < |errors| ==> ProblemRank(errors[a]) < ProblemRank(errors[b])
  }

  /** A row no check can object to. */
  predicate CleanRow(r: RawRow)
  {
    r.open.Some? && r.high.Some? && r.low.Some? && r.close.Some? && r.volume.Some? &&
    r.low.value <= r.open.value <= r.high.value && r.low.value <= r.close.value <= r.high.value &&
    r.volume.value >= 0.0
  }

  /** The message for one column: its number of missing cells, if any. */
  function MissingValuesOf(rows: seq<RawRow>, c: Column): Option<Problem>
  {
    var n := CountMissing(rows, c);
    if n > 0 then Some(MissingValues(c, n)) else None
  }

  function MissingValuesFn(rows: seq<RawRow>): Column -> Option<Problem>
  {
    c => MissingValuesOf(rows, c)
  }

  /** The message for one rule: its number of offending rows, if any. */
  function ViolationsOf(rows: seq<RawRow>, rule: Rule): Option<Problem>
  {
    var n := CountViolations(rows, rule);
    if n > 0 then Some(Violations(rule, n)) else None
  }

  function ViolationsFn(rows: seq<RawRow>): Rule -> Option<Problem>
  {
    rule => ViolationsOf(rows, rule)
  }

  /** Every missing-value message names a column with its exact, positive
      count, and stands before every rule message. */
  lemma MissingValuesSound(rows: seq<RawRow>)
    ensures var errors := FilterMap(RequiredColumns, MissingValuesFn(rows));
            forall a :: 0 <= a < |errors| ==>
              errors[a].MissingValues? && errors[a].count == CountMissing(rows, errors[a].column) > 0 &&
              ProblemRank(errors[a]) < |RequiredColumns|
  {
    FilterMapAll(RequiredColumns, MissingValuesFn(rows),
                 (e: Problem) => e.MissingValues? && e.count == CountMissing(rows, e.column) > 0 &&
                                 ProblemRank(e) < |RequiredColumns|);
  }

  /** Every column with missing cells has its message. */
  lemma MissingValuesComplete(rows: seq<RawRow>)
    ensures forall c :: CountMissing(rows, c) > 0 ==>
              MissingValues(c, CountMissing(rows, c)) in FilterMap(RequiredColumns, MissingValuesFn(rows))
  {
    var f := MissingValuesFn(rows);
    forall c | CountMissing(rows, c) > 0
      ensures MissingValues(c, CountMissing(rows, c)) in FilterMap(RequiredColumns, f)
    {
      FilterMapMember(RequiredColumns, f, MissingValues(c, CountMissing(rows, c)));
      assert f(RequiredColumns[ColumnRank(c)]) == Some(MissingValues(c, CountMissing(rows, c)));
    }
  }

  /** Without missing cells there is no missing-value message. */
  lemma MissingValuesNone(rows: seq<RawRow>)
    requires forall c :: CountMissing(rows, c) == 0
    ensures FilterMap(RequiredColumns, MissingValuesFn(rows)) == []
  {
    FilterMapEmpty(RequiredColumns, MissingValuesFn(rows));
  }

  /** The missing-value messages follow the column order, each column once. */
  lemma MissingValuesInOrder(rows: seq<RawRow>)
    ensures InReportOrder(FilterMap(RequiredColumns, MissingValuesFn(rows)))
  {
    var f := MissingValuesFn(rows);
    forall c: Column
      ensures f(c).Some? ==> ProblemRank(f(c).value) == ColumnRank(c)
    {
    }
    FilterMapRanked(RequiredColumns, f, ColumnRank, ProblemRank);
  }

  /** Every rule message names a rule with its exact, positive count, and
      stands after every missing-value message. */
  lemma ViolationsSound(rows: seq<RawRow>)
    ensures var errors := FilterMap(Rules, ViolationsFn(rows));
            forall a :: 0 <= a < |errors| ==>
              errors[a].Violations? && errors[a].count == CountViolations(rows, errors[a].rule) > 0 &&
              ProblemRank(errors[a]) >= |RequiredColumns|
  {
    FilterMapAll(Rules, ViolationsFn(rows),
                 (e: Problem) => e.Violations? && e.count == CountViolations(rows, e.rule) > 0 &&
                                 ProblemRank(e) >= |RequiredColumns|);
  }

  /** Every broken rule has its message. */
  lemma ViolationsComplete(rows: seq<RawRow>)
    ensures forall rule :: CountViolations(rows, rule) > 0 ==>
              Violations(rule, CountViolations(rows, rule)) in FilterMap(Rules, ViolationsFn(rows))
  {
    var f := ViolationsFn(rows);
    forall rule | CountViolations(rows, rule) > 0
      ensures Violations(rule, CountViolations(rows, rule)) in FilterMap(Rules, f)
    {
      FilterMapMember(Rules, f, Violations(rule, CountViolations(rows, rule)));
      assert f(Rules[RuleRank(rule)]) == Some(Violations(rule, CountViolations(rows, rule)));
    }
  }

  /** Without a broken rule there is no rule message. */
  lemma ViolationsNone(rows: seq<RawRow>)
    requires forall rule :: CountViolations(rows, rule) == 0
    ensures FilterMap(Rules, ViolationsFn(rows)) == []
  {
    FilterMapEmpty(Rules, ViolationsFn(rows));
  }

  /** The rule messages follow the rule order, each rule once. */
  lemma ViolationsInOrder(rows: seq<RawRow>)
    ensures InReportOrder(FilterMap(Rules, ViolationsFn(rows)))
  {
    var f := ViolationsFn(rows);
    forall rule: Rule
      ensures f(rule).Some? ==> ProblemRank(f(rule).value) == RuleSlot(rule)
    {
    }
    FilterMapRanked(Rules, f, RuleSlot, ProblemRank);
  }

  /** The per-column missing-value messages: exactly one per column with
      missing cells, with its count, in column order. */
  method MissingValueReport(rows: seq<RawRow>) returns (errors: seq<Problem>)
    ensures |errors| <= |RequiredColumns|
    ensures forall a :: 0 <= a < |errors| ==>
              errors[a].MissingValues? && errors[a].count == CountMissing(rows, errors[a].column) > 0
    ensures forall c :: CountMissing(rows, c) > 0 ==> MissingValues(c, CountMissing(rows, c)) in errors
    ensures (forall c :: CountMissing(rows, c) == 0) ==> errors == []
    ensures InReportOrder(errors)
    ensures forall a :: 0 <= a < |errors| ==> ProblemRank(errors[a]) < |RequiredColumns|
  {
    var verdict := MissingValuesFn(rows);
    errors := [];
    var k := 0;
    while k < |RequiredColumns|
      invariant 0 <= k <= |RequiredColumns|
      invariant errors == FilterMap(RequiredColumns[..k], verdict)
    {
      FilterMapStep(RequiredColumns, verdict, k);
      var col := RequiredColumns[k];
      var naCount := CountMissing(rows, col);
      if naCount > 0 {
        errors := errors + [MissingValues(col, naCount)];
      }
      k := k + 1;
    }
    assert RequiredColumns[..k] == RequiredColumns;
    MissingValuesSound(rows);
    MissingValuesComplete(rows);
    if forall c :: CountMissing(rows, c) == 0 {
      MissingValuesNone(rows);
    }
    MissingValuesInOrder(rows);
  }

  /** The per-rule messages: exactly one per broken rule, with its count,
      in rule order. */
  method RuleReport(rows: seq<RawRow>) returns (errors: seq<Problem>)
    ensures |errors| <= |Rules|
    ensures forall a :: 0 <= a < |errors| ==>
              errors[a].Violations? && errors[a].count == CountViolations(rows, errors[a].rule) > 0
    ensures forall rule :: CountViolations(rows, rule) > 0 ==> Violations(rule, CountViolations(rows, rule)) in errors
    ensures (forall rule :: CountViolations(rows, rule) == 0) ==> errors == []
    ensures InReportOrder(errors)
    ensures forall a :: 0 <= a < |errors| ==> ProblemRank(errors[a]) >= |RequiredColumns|
  {
    var verdict := ViolationsFn(rows);
    errors := [];
    var m := 0;
    while m < |Rules|
      invariant 0 <= m <= |Rules|
      invariant errors == FilterMap(Rules[..m], verdict)
    {
      FilterMapStep(Rules, verdict, m);
      var rule := Rules[m];
      var invalid := CountViolations(rows, rule);
      if invalid > 0 {
        errors := errors + [Violations(rule, invalid)];
      }
      m := m + 1;
    }
    assert Rules[..m] == Rules;
    ViolationsSound(rows);
    ViolationsComplete(rows);
    if forall rule :: CountViolations(rows, rule) == 0 {
      ViolationsNone(rows);
    }
    ViolationsInOrder(rows);
  }

  /** The missing-value messages followed by the rule messages are still in
      report order. */
  lemma ReportJoin(valueErrors: seq<Problem>, ruleErrors: seq<Problem>)
    requires InReportOrder(valueErrors) && InReportOrder(ruleErrors)
    requires forall a :: 0 <= a < |valueErrors| ==> ProblemRank(valueErrors[a]) < |RequiredColumns|
    requires forall a :: 0 <= a < |ruleErrors| ==> ProblemRank(ruleErrors[a]) >= |RequiredColumns|
    ensures InReportOrder(valueErrors + ruleErrors)
  {
    var errors := valueErrors + ruleErrors;
    forall a, b | 0 <= a < b < |errors|
      ensures ProblemRank(errors[a]) < ProblemRank(errors[b])
    {
      if b < |valueErrors| {
        assert errors[a] == valueErrors[a] && errors[b] == valueErrors[b];
      } else if a < |valueErrors| {
        assert errors[a] == valueErrors[a] && errors[b] == ruleErrors[b - |valueErrors|];
      } else {
        assert errors[a] == ruleErrors[a - |valueErrors|] && errors[b] == ruleErrors[b - |valueErrors|];
      }
    }
  }

  /** The row checks of validate_ohlcv: the missing-value messages, then the
      rule messages. */
  method RowReport(rows: seq<RawRow>) returns (errors: seq<Problem>)
    ensures forall a :: 0 <= a < |errors| ==>
              (errors[a].MissingValues? && errors[a].count == CountMissing(rows, errors[a].column) > 0) ||
              (errors[a].Violations? && errors[a].count == CountViolations(rows, errors[a].rule) > 0)
    ensures forall c :: CountMissing(rows, c) > 0 ==> MissingValues(c, CountMissing(rows, c)) in errors
    ensures forall rule :: CountViolations(rows, rule) > 0 ==> Violations(rule, CountViolations(rows, rule)) in errors
    ensures |errors| <= |RequiredColumns| + |Rules|
    ensures InReportOrder(errors)
    ensures (forall i :: 0 <= i < |rows| ==> CleanRow(rows[i])) ==> errors == []
  {
    if forall i :: 0 <= i < |rows| ==> CleanRow(rows[i]) {
      CleanRowsPassEveryCheck(rows);
    }
    var valueErrors := MissingValueReport(rows);
    var ruleErrors := RuleReport(rows);
    errors := valueErrors + ruleErrors;
    ReportJoin(valueErrors, ruleErrors);
    assert forall a :: 0 <= a < |errors| ==>
             errors[a] == if a < |valueErrors| then valueErrors[a] else ruleErrors[a - |valueErrors|];
  }

  /** DataValidator.validate_ohlcv. Missing columns end the check with one
      message. Otherwise there is one message per column with missing values,
      then one per broken rule, each with the exact count of rows; the frame
      is valid exactly when there is no message. */
  method ValidateOhlcv(df: RawFrame) returns (isValid: bool, errors: seq<Problem>)
    ensures isValid <==> errors == []
    ensures MissingColumnsOf(df) != [] ==> errors == [MissingColumns(MissingColumnsOf(df))]
    ensures MissingColumnsOf(df) == [] ==>
              (forall a :: 0 <= a < |errors| ==>
                 (errors[a].MissingValues? && errors[a].count == CountMissing(df.rows, errors[a].column) > 0) ||
                 (errors[a].Violations? && errors[a].count == CountViolations(df.rows, errors[a].rule) > 0)) &&
              (forall c :: CountMissing(df.rows, c) > 0 ==> MissingValues(c, CountMissing(df.rows, c)) in errors) &&
              (forall rule :: CountViolations(df.rows, rule) > 0 ==> Violations(rule, CountViolations(df.rows, rule)) in errors)
    ensures |errors| <= |RequiredColumns| + |Rules|
    ensures InReportOrder(errors)
    ensures MissingColumnsOf(df) == [] && (forall i :: 0 <= i < |df.rows| ==> CleanRow(df.rows[i])) ==> isValid
  {
    var missing := MissingColumnsOf(df);
    if missing != [] {
      return false, [MissingColumns(missing)];
    }
    errors := RowReport(df.rows);
    isValid := |errors| == 0;
  }

  /** A gap between two consecutive index entries. */
  datatype Gap = Gap(start: int, end: int, duration: int, expected: int)

  /** Consecutive times more than 1.5 times the expected interval apart. */
  predicate IsGapAt(rows: seq<RawRow>, expectedMinutes: int, i: nat)
    requires 1 <= i < |rows|
  {
    2 * (rows[i].time - rows[i - 1].time) > 3 * expectedMinutes
  }

  function GapAt(rows: seq<RawRow>, expectedMinutes: int, i: nat): Gap
    requires 1 <= i < |rows|
  {
    Gap(rows[i - 1].time, rows[i].time, rows[i].time - rows[i - 1].time, expectedMinutes)
  }

  /** The gaps among the first n rows, in index order. */
  function GapsUpTo(rows: seq<RawRow>, expectedMinutes: int, n: nat): seq<Gap>
    requires n <= |rows|
  {
    if n <= 1 then []
    else GapsUpTo(rows, expectedMinutes, n - 1) +
         (if IsGapAt(rows, expectedMinutes, n - 1) then [GapAt(rows, expectedMinutes, n - 1)] else [])
  }

  /** A gap is reported exactly for each pair of consecutive rows that are too
      far apart. */
  lemma {:induction false} GapsUpToMember(rows: seq<RawRow>, expectedMinutes: int, n: nat, g: Gap)
    requires n <= |rows|
    ensures g in GapsUpTo(rows, expectedMinutes, n) <==>
            exists i :: 1 <= i < n && IsGapAt(rows, expectedMinutes, i) && g == GapAt(rows, expectedMinutes, i)
    decreases n
  {
    if n > 1 {
      GapsUpToMember(rows, expectedMinutes, n - 1, g);
    }
  }

  /** On a strictly increasing index the gaps come out in time order. */
  lemma {:induction false} GapsInTimeOrder(rows: seq<RawRow>, expectedMinutes: int, n: nat)
    requires n <= |rows|
    requires forall i :: 1 <= i < |rows| ==> rows[i - 1].time < rows[i].time
    ensures forall a, b :: 0 <= a < b < |GapsUpTo(rows, expectedMinutes, n)| ==>
              GapsUpTo(rows, expectedMinutes, n)[a].end <= GapsUpTo(rows, expectedMinutes, n)[b].start
    ensures forall a :: 0 <= a < |GapsUpTo(rows, expectedMinutes, n)| ==>
              GapsUpTo(rows, expectedMinutes, n)[a].end <= rows[if n == 0 then 0 else n - 1].time
    decreases n
  {
    if n > 1 {
      GapsInTimeOrder(rows, expectedMinutes, n - 1);
      var prev := GapsUpTo(rows, expectedMinutes, n - 1);
      forall a | 0 <= a < |prev|
        ensures prev[a].end <= rows[n - 1].time
      {
        assert prev[a].end <= rows[n - 2].time;
      }
    }
  }

  /** DataValidator.check_data_gaps: fewer than two rows have no gaps;
      otherwise every consecutive pair is compared, in order. */
  method CheckDataGaps(df: RawFrame, expectedMinutes: int) returns (gaps: seq<Gap>)
    ensures gaps == GapsUpTo(df.rows, expectedMinutes, |df.rows|)
  {
    if |df.rows| < 2 {
      return [];
    }
    gaps := [];
    var i := 1;
    while i < |df.rows|
      invariant 1 <= i <= |df.rows|
      invariant gaps == GapsUpTo(df.rows, expectedMinutes, i)
    {
      var actualDelta := df.rows[i].time - df.rows[i - 1].time;
      if 2 * actualDelta > 3 * expectedMinutes {
        gaps := gaps + [Gap(df.rows[i - 1].time, df.rows[i].time, actualDelta, expectedMinutes)];
      }
      i := i + 1;
    }
  }

  /** The non-NaN cells of a column, in order (what pandas aggregates skip to). */
  function Present(rows: seq<RawRow>, c: Column): (r: seq<real>)
    ensures |r| + CountMissing(rows, c) == |rows|
    ensures forall x :: x in r <==> exists i :: 0 <= i < |rows| && Field(rows[i], c) == Some(x)
  {
    if rows == [] then []
    else
      var init := rows[..|rows| - 1];
      var last := rows[|rows| - 1];
      assert forall i :: 0 <= i < |init| ==> init[i] == rows[i];
      Present(init, c) + (if Field(last, c).Some? then [Field(last, c).value] else [])
  }

  datatype DataSummary = DataSummary(
    totalCandles: nat, start: int, end: int,
    priceMin: Option<real>, priceMax: Option<real>, closeMean: Option<real>,
    volumeTotal: real, volumeMean: Option<real>, volumeMax: Option<real>,
    missing: map<Column, nat>)

  function MinOrNaN(s: seq<real>): Option<real>
  {
    if s == [] then None else Some(MinOf(s))
  }

  function MaxOrNaN(s: seq<real>): Option<real>
  {
    if s == [] then None else Some(MaxOf(s))
  }

  function MeanOrNaN(s: seq<real>): Option<real>
  {
    if s == [] then None else Some(Mean(s))
  }

  /** The NaN-skipping minimum of a column: NaN exactly when every cell is
      missing, otherwise a present cell no larger than any other. */
  lemma PresentMin(rows: seq<RawRow>, c: Column)
    ensures var m := MinOrNaN(Present(rows, c));
            (m.None? <==> CountMissing(rows, c) == |rows|) &&
            (m.Some? ==>
               (forall i :: 0 <= i < |rows| && Field(rows[i], c).Some? ==> m.value <= Field(rows[i], c).value) &&
               (exists i :: 0 <= i < |rows| && Field(rows[i], c) == m))
  {
    var p := Present(rows, c);
    if p != [] {
      var m := MinOf(p);
      forall i | 0 <= i < |rows| && Field(rows[i], c).Some?
        ensures m <= Field(rows[i], c).value
      {
        assert Field(rows[i], c).value in p;
      }
      assert m in p;
    }
  }

  /** The NaN-skipping maximum of a column, symmetrically. */
  lemma PresentMax(rows: seq<RawRow>, c: Column)
    ensures var m := MaxOrNaN(Present(rows, c));
            (m.None? <==> CountMissing(rows, c) == |rows|) &&
            (m.Some? ==>
               (forall i :: 0 <= i < |rows| && Field(rows[i], c).Some? ==> Field(rows[i], c).value <= m.value) &&
               (exists i :: 0 <= i < |rows| && Field(rows[i], c) == m))
  {
    var p := Present(rows, c);
    if p != [] {
      var m := MaxOf(p);
      forall i | 0 <= i < |rows| && Field(rows[i], c).Some?
        ensures Field(rows[i], c).value <= m
      {
        assert Field(rows[i], c).value in p;
      }
      assert m in p;
    }
  }

  /** DataValidator.summarize_data: nothing for an empty frame; otherwise the
      row count, first and last time, NaN-skipping price and volume
      statistics, and the number of missing cells per column. A required
      column absent from the frame is a KeyError. */
  function SummarizeData(df: RawFrame): (s: Option<DataSummary>)
    requires MissingColumnsOf(df) == []
    ensures s.None? <==> |df.rows| == 0
    ensures s.Some? ==>
              s.value.totalCandles == |df.rows| &&
              s.value.start == df.rows[0].time && s.value.end == df.rows[|df.rows| - 1].time &&
              s.value.missing.Keys == (set c | c in RequiredColumns) &&
              (forall c :: c in s.value.missing ==> s.value.missing[c] == CountMissing(df.rows, c))
  {
    if |df.rows| == 0 then None
    else
      var lows := Present(df.rows, LowColumn);
      var highs := Present(df.rows, HighColumn);
      var volumes := Present(df.rows, VolumeColumn);
      Some(DataSummary(
        |df.rows|, df.rows[0].time, df.rows[|df.rows| - 1].time,
        MinOrNaN(lows), MaxOrNaN(highs), MeanOrNaN(Present(df.rows, CloseColumn)),
        Sum(volumes), MeanOrNaN(volumes), MaxOrNaN(volumes),
        map c | c in RequiredColumns :: CountMissing(df.rows, c)))
  }

  /** price_min of the summary: NaN exactly when the low column is all
      NaN, otherwise the smallest low among the present cells. */
  lemma SummaryPriceMin(df: RawFrame)
    requires MissingColumnsOf(df) == [] && |df.rows| > 0
    ensures var m := SummarizeData(df).value.priceMin;
            (m.None? <==> CountMissing(df.rows, LowColumn) == |df.rows|) &&
            (m.Some? ==>
               (forall i :: 0 <= i < |df.rows| && Field(df.rows[i], LowColumn).Some? ==> m.value <= Field(df.rows[i], LowColumn).value) &&
               (exists i :: 0 <= i < |df.rows| && Field(df.rows[i], LowColumn) == m))
  {
    PresentMin(df.rows, LowColumn);
    var s := SummarizeData(df).value;
    assert s.priceMin == MinOrNaN(Present(df.rows, LowColumn));
  }

  /** price_max of the summary: NaN exactly when the high column is all
      NaN, otherwise the largest high among the present cells. */
  lemma SummaryPriceMax(df: RawFrame)
    requires MissingColumnsOf(df) == [] && |df.rows| > 0
    ensures var m := SummarizeData(df).value.priceMax;
            (m.None? <==> CountMissing(df.rows, HighColumn) == |df.rows|) &&
            (m.Some? ==>
               (forall i :: 0 <= i < |df.rows| && Field(df.rows[i], HighColumn).Some? ==> Field(df.rows[i], HighColumn).value <= m.value) &&
               (exists i :: 0 <= i < |df.rows| && Field(df.rows[i], HighColumn) == m))
  {
    PresentMax(df.rows, HighColumn);
    var s := SummarizeData(df).value;
    assert s.priceMax == MaxOrNaN(Present(df.rows, HighColumn));
  }
}
