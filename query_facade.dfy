/**
 * The export entry points of the query facade (`QueryFacade`): dispatch of
 * a date by its length, the month-range export, and the exports of every
 * month and every year. The database, the report generators and the
 * exporter are outside the model: `Backend` says which months the bill
 * metadata lists and whether generating and exporting one report
 * succeeds.
 */
module QueryExport {
  import opened Strings

  /**
   * What the facade's collaborators answer. `billDates` is `None` when
   * reading the bill dates throws; `yearlyOk` and `monthlyOk` say whether
   * generating and writing the report for a date and format succeeds
   * once its numbers have been read.
   */
  datatype Backend = Backend(
    billDates: Option<seq<string>>,
    yearlyOk: (string, string) -> bool,
    monthlyOk: (string, string) -> bool)

  /** `export_yearly_report`: the year must parse, then generation and export must succeed. */
  predicate ExportYearly(env: Backend, year: string, format: string) {
    Stoi(year).Some? && env.yearlyOk(year, format)
  }

  /** `export_monthly_report`: six characters, both numbers parse, generation and export succeed. */
  predicate ExportMonthly(env: Backend, month: string, format: string) {
    |month| == 6 && Stoi(month[..4]).Some? && Stoi(month[4..6]).Some? && env.monthlyOk(month, format)
  }

  /** `export_by_date`: four characters is a year, six a month, anything else fails. */
  predicate ExportByDate(env: Backend, date: string, format: string) {
    if |date| == 4 then ExportYearly(env, date, format)
    else if |date| == 6 then ExportMonthly(env, date, format)
    else false
  }

  /** A four-character date is a yearly export, a six-character one a monthly export, any other length fails. */
  lemma {:induction false} ExportByDateSpec(env: Backend, date: string, format: string)
    ensures |date| == 4 ==> (ExportByDate(env, date, format) <==> ExportYearly(env, date, format))
    ensures |date| == 6 ==> (ExportByDate(env, date, format) <==> ExportMonthly(env, date, format))
    ensures |date| != 4 && |date| != 6 ==> !ExportByDate(env, date, format)
    ensures ExportMonthly(env, date, format) ==> |date| == 6
  {
  }

  /** `std::string`'s `<=`. */
  predicate LessEq(a: string, b: string) {
    LexLessEq(a, b)
  }

  predicate InRange(m: string, start: string, end: string) {
    LessEq(start, m) && LessEq(m, end)
  }

  /** The months to export, in the order the metadata lists them. */
  function Select(months: seq<string>, start: string, end: string): seq<string>
    decreases |months|
  {
    if months == [] then []
    else
      var m := months[|months| - 1];
      Select(months[..|months| - 1], start, end) + (if InRange(m, start, end) then [m] else [])
  }

  /** How many of the months fail to export. */
  function MonthFailures(env: Backend, months: seq<string>, format: string): nat
    decreases |months|
  {
    if months == [] then 0
    else
      var m := months[|months| - 1];
      MonthFailures(env, months[..|months| - 1], format) + (if ExportMonthly(env, m, format) then 0 else 1)
  }

  /** `export_by_date_range`. */
  function ExportRange(env: Backend, start: string, end: string, format: string): bool {
    if |start| != 6 || |end| != 6 || LexLess(end, start) then false
    else match env.billDates
      case None => false
      case Some(all) =>
        var chosen := Select(all, start, end);
        chosen == [] || MonthFailures(env, chosen, format) == 0
  }

  /** The distinct four-character year prefixes of the months. */
  function Years(months: seq<string>): set<string>
    decreases |months|
  {
    if months == [] then {}
    else
      var m := months[|months| - 1];
      Years(months[..|months| - 1]) + (if |m| >= 4 then {m[..4]} else {})
  }

  /** `export_all_monthly_reports`: no months is a success, a read error a failure. */
  function ExportAllMonthly(env: Backend, format: string): bool {
    match env.billDates
    case None => false
    case Some(all) => all == [] || MonthFailures(env, all, format) == 0
  }

  /** `export_all_yearly_reports`. */
  function ExportAllYearly(env: Backend, format: string): bool {
    match env.billDates
    case None => false
    case Some(all) => all == [] || forall y :: y in Years(all) ==> ExportYearly(env, y, format)
  }

  /** `export_all_reports`: both passes run, and both must succeed. */
  function ExportAll(env: Backend, format: string): bool {
    var monthlyOk := ExportAllMonthly(env, format);
    var yearlyOk := ExportAllYearly(env, format);
    monthlyOk && yearlyOk
  }

  // ------------------------------------------------------------- lemmas

  /** A month is selected exactly when it is listed and lies between the two bounds. */
  lemma {:induction false} SelectMembers(months: seq<string>, start: string, end: string)
    ensures forall m :: m in Select(months, start, end) <==> m in months && InRange(m, start, end)
    decreases |months|
  {
    if months != [] {
      var front := months[..|months| - 1];
      SelectMembers(front, start, end);
      assert months == front + [months[|months| - 1]];
    }
  }

  /** Selection keeps the metadata's order: selecting from two lists is selecting from each. */
  lemma {:induction false} SelectConcat(a: seq<string>, b: seq<string>, start: string, end: string)
    ensures Select(a + b, start, end) == Select(a, start, end) + Select(b, start, end)
    decreases |b|
  {
    if b == [] {
      assert a + b == a;
    } else {
      var b' := b[..|b| - 1];
      var tail := if InRange(b[|b| - 1], start, end) then [b[|b| - 1]] else [];
      assert (a + b)[..|a + b| - 1] == a + b' && (a + b)[|a + b| - 1] == b[|b| - 1];
      SelectConcat(a, b', start, end);
      ConcatAssoc(Select(a, start, end), Select(b', start, end), tail);
    }
  }

  /** There are no failures exactly when every month exports. */
  lemma {:induction false} NoFailures(env: Backend, months: seq<string>, format: string)
    ensures MonthFailures(env, months, format) == 0 <==> forall m :: m in months ==> ExportMonthly(env, m, format)
    ensures MonthFailures(env, months, format) <= |months|
    decreases |months|
  {
    if months != [] {
      var front := months[..|months| - 1];
      NoFailures(env, front, format);
      assert months == front + [months[|months| - 1]];
    }
  }

  /**
   * A range with a bound that is not six characters, or whose start is
   * after its end, fails. Otherwise it succeeds exactly when the dates
   * can be read and every listed month in the range exports; if no month
   * is in the range, it succeeds.
   */
  lemma {:induction false} ExportRangeSpec(env: Backend, start: string, end: string, format: string)
    ensures (|start| != 6 || |end| != 6 || LexLess(end, start)) ==> !ExportRange(env, start, end, format)
    ensures |start| == 6 && |end| == 6 && LessEq(start, end) ==>
      (ExportRange(env, start, end, format) <==>
        env.billDates.Some? &&
        forall m :: m in env.billDates.value && InRange(m, start, end) ==> ExportMonthly(env, m, format))
  {
    if |start| == 6 && |end| == 6 && LessEq(start, end) {
      if LexLess(end, start) {
        if start == end {
          LexLessIrreflexive(start);
        } else {
          LexLessTransitive(start, end, start);
          LexLessIrreflexive(start);
        }
      }
      if env.billDates.Some? {
        var all := env.billDates.value;
        SelectMembers(all, start, end);
        NoFailures(env, Select(all, start, end), format);
      }
    }
  }

  /**
   * The full export succeeds exactly when the bill dates can be read,
   * every listed month exports and every year prefix of a listed month
   * exports; with no listed month there is nothing to fail.
   */
  lemma {:induction false} ExportAllSpec(env: Backend, format: string)
    ensures ExportAll(env, format) <==>
      && env.billDates.Some?
      && (forall m :: m in env.billDates.value ==> ExportMonthly(env, m, format))
      && (forall y :: y in Years(env.billDates.value) ==> ExportYearly(env, y, format))
  {
    if env.billDates.Some? {
      var all := env.billDates.value;
      NoFailures(env, all, format);
      if all == [] {
        assert Years(all) == {};
      }
    }
  }

  /** A year is exported exactly when some listed month of at least four characters starts with it. */
  lemma {:induction false} YearsMembers(months: seq<string>)
    ensures forall y :: y in Years(months) <==> exists m :: m in months && |m| >= 4 && m[..4] == y
    decreases |months|
  {
    if months != [] {
      var front := months[..|months| - 1];
      var last := months[|months| - 1];
      YearsMembers(front);
      assert months == front + [last];
      forall y | y in Years(months) ensures exists m :: m in months && |m| >= 4 && m[..4] == y {
        if y !in Years(front) {
          assert last in months;
        }
      }
    }
  }

  lemma {:induction false} YearsShape(months: seq<string>)
    ensures forall y :: y in Years(months) ==> |y| == 4
    decreases |months|
  {
    if months != [] {
      YearsShape(months[..|months| - 1]);
    }
  }

  // ------------------------------------------------------------ the methods

  /** The export loop of the range and monthly exports: success and failure counts. */
  method ExportMonths(env: Backend, months: seq<string>, format: string) returns (success: nat, failure: nat)
    ensures failure == MonthFailures(env, months, format)
    ensures success + failure == |months|
  {
    success, failure := 0, 0;
    var i := 0;
    while i < |months|
      invariant 0 <= i <= |months|
      invariant failure == MonthFailures(env, months[..i], format)
      invariant success + failure == i
    {
      TakeStep(months, i);
      if ExportMonthly(env, months[i], format) {
        success := success + 1;
      } else {
        failure := failure + 1;
      }
      i := i + 1;
    }
    TakeAll(months);
  }

  /** The filter loop of `export_by_date_range`. */
  method SelectMonths(all: seq<string>, start: string, end: string) returns (chosen: seq<string>)
    ensures chosen == Select(all, start, end)
  {
    chosen := [];
    var i := 0;
    while i < |all|
      invariant 0 <= i <= |all|
      invariant chosen == Select(all[..i], start, end)
    {
      TakeStep(all, i);
      if LessEq(start, all[i]) && LessEq(all[i], end) {
        chosen := chosen + [all[i]];
      }
      i := i + 1;
    }
    TakeAll(all);
  }

  method ExportByDateRange(env: Backend, start: string, end: string, format: string) returns (ok: bool)
    ensures ok == ExportRange(env, start, end, format)
  {
    if |start| != 6 || |end| != 6 || LexLess(end, start) {
      return false;
    }
    if env.billDates.None? {
      return false;
    }
    var chosen := SelectMonths(env.billDates.value, start, end);
    if chosen == [] {
      return true;
    }
    var success, failure := ExportMonths(env, chosen, format);
    ok := failure == 0;
  }

  method ExportAllMonthlyReports(env: Backend, format: string) returns (ok: bool)
    ensures ok == ExportAllMonthly(env, format)
  {
    if env.billDates.None? {
      return false;
    }
    var all := env.billDates.value;
    if all == [] {
      return true;
    }
    var success, failure := ExportMonths(env, all, format);
    ok := failure == 0;
  }

  /** The `unique_years` loop. */
  method CollectYears(all: seq<string>) returns (years: set<string>)
    ensures years == Years(all)
  {
    years := {};
    var i := 0;
    while i < |all|
      invariant 0 <= i <= |all|
      invariant years == Years(all[..i])
    {
      TakeStep(all, i);
      if |all[i]| >= 4 {
        years := years + {all[i][..4]};
      }
      i := i + 1;
    }
    TakeAll(all);
  }

  method ExportAllYearlyReports(env: Backend, format: string) returns (ok: bool)
    ensures ok == ExportAllYearly(env, format)
  {
    if env.billDates.None? {
      return false;
    }
    var all := env.billDates.value;
    if all == [] {
      return true;
    }
    var years := CollectYears(all);
    var pending := years;
    var failure := 0;
    while pending != {}
      invariant pending <= years
      invariant failure == 0 <==> forall y :: y in years - pending ==> ExportYearly(env, y, format)
      decreases |pending|
    {
      var y :| y in pending;
      if !ExportYearly(env, y, format) {
        failure := failure + 1;
      }
      pending := pending - {y};
    }
    assert years - pending == years;
    ok := failure == 0;
  }
}
