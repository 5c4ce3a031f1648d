/**
 * The sectioned bill parser (`Bill_Parser`): a file is a sequence of
 * sections, each opened by a `DATE:` line and a `REMARK:` line, followed
 * by parent categories, child categories and items. Each item under a
 * valid parent and child becomes a record handed to the caller; every
 * misplaced line becomes an error message and parsing goes on.
 */
module SectionParsing {
  import opened Strings
  import opened LineValidation

  datatype ParserState = ExpectingDate | ExpectingRemark | ProcessingContent

  /** The error messages of `parseFile`, one constructor per message text. */
  datatype ParseError =
    | ExpectedDate(line: nat, text: string)
    | ExpectedRemark(line: nat, text: string)
    | UnexpectedRemark(line: nat)
    | InvalidParentCategory(line: nat, name: string)
    | ChildWithoutParent(line: nat, name: string)
    | ChildNotValidForParent(line: nat, name: string, parent: string)
    | ItemWithoutParent(line: nat, text: string)
    | ItemWithoutChild(line: nat, text: string)
    | UnrecognizedLine(line: nat, text: string)
    | MissingRemarkAtEnd

  /** A record passed to the handler; the amount is kept as the item's first match, the text the source hands to `std::stod`. */
  datatype ParsedRecord = ParsedRecord(date: string, parent: string, child: string, amount: string, description: string)

  /** The parser's fields together with the errors and records produced so far. */
  datatype Machine = Machine(
    state: ParserState, date: string, parent: string, child: string, lineNumber: nat,
    errors: seq<ParseError>, records: seq<ParsedRecord>)

  /** The state after `reset()` with nothing produced yet. */
  const Start := Machine(ExpectingDate, "", "", "", 0, [], [])

  /** A DATE line: the section's date is set and the category context is cleared. */
  function OpenSection(m: Machine, date: string): Machine {
    m.(date := date, parent := "", child := "", state := ExpectingRemark)
  }

  /** The `PROCESSING_CONTENT` case for a classified, non-empty line. */
  function Content(rules: CategoryRules, m: Machine, vr: ValidationResult, line: string): Machine
    requires vr.kind != Empty && |vr.matches| >= 1
    requires vr.kind == Item ==> |vr.matches| == 2
  {
    var n := m.lineNumber;
    match vr.kind
    case Date => OpenSection(m, vr.matches[0])
    case Remark => m.(errors := m.errors + [UnexpectedRemark(n)])
    case Parent => m.(parent := vr.matches[0], child := "")
    case InvalidParent =>
      m.(errors := m.errors + [InvalidParentCategory(n, vr.matches[0])], parent := "", child := "")
    case Child =>
      if m.parent == "" then m.(errors := m.errors + [ChildWithoutParent(n, vr.matches[0])])
      else if IsValidChildForParent(rules, m.parent, vr.matches[0]) then m.(child := vr.matches[0])
      else m.(errors := m.errors + [ChildNotValidForParent(n, vr.matches[0], m.parent)], child := "")
    case Item =>
      var e1 := if m.parent == "" then [ItemWithoutParent(n, line)] else [];
      var e2 := if m.child == "" then [ItemWithoutChild(n, line)] else [];
      if e1 + e2 != [] then m.(errors := m.errors + e1 + e2)
      else m.(records := m.records + [ParsedRecord(m.date, m.parent, m.child, vr.matches[0], vr.matches[1])])
    case Unrecognized => m.(errors := m.errors + [UnrecognizedLine(n, vr.matches[0])])
  }

  /** One iteration of the line loop of `parseFile`. */
  function Step(rules: CategoryRules, m: Machine, line: string): Machine {
    StepOn(rules, m, Validate(rules, line), line)
  }

  /** The loop step for a line the validator has classified as `vr`. */
  function StepOn(rules: CategoryRules, m: Machine, vr: ValidationResult, line: string): Machine
    requires vr.kind != Empty ==> |vr.matches| >= 1
    requires vr.kind == Item ==> |vr.matches| == 2
  {
    var m1 := m.(lineNumber := m.lineNumber + 1);
    if vr.kind == Empty then m1
    else match m.state
      case ExpectingDate =>
        if vr.kind == Date then OpenSection(m1, vr.matches[0])
        else m1.(errors := m1.errors + [ExpectedDate(m1.lineNumber, line)])
      case ExpectingRemark =>
        if vr.kind == Remark then m1.(state := ProcessingContent)
        else
          // the missing REMARK is reported and the line falls through to content handling
          Content(rules, m1.(errors := m1.errors + [ExpectedRemark(m1.lineNumber, line)], state := ProcessingContent), vr, line)
      case ProcessingContent => Content(rules, m1, vr, line)
  }

  function Run(rules: CategoryRules, m: Machine, lines: seq<string>): Machine
    decreases |lines|
  {
    if lines == [] then m else Step(rules, Run(rules, m, lines[..|lines| - 1]), lines[|lines| - 1])
  }

  /** The errors `parseFile` returns: the loop's errors, then the end-of-file check. */
  function FinalErrors(m: Machine): seq<ParseError> {
    m.errors + (if m.state == ExpectingRemark then [MissingRemarkAtEnd] else [])
  }

  /** The loop step: one more line read from `lines` is one more `Step`. */
  lemma {:induction false} RunPrefix(rules: CategoryRules, lines: seq<string>, i: nat, before: Machine, after: Machine)
    requires i < |lines|
    requires before == Run(rules, Start, lines[..i]) && after == Step(rules, before, lines[i])
    ensures after == Run(rules, Start, lines[..i + 1])
  {
    var p := lines[..i + 1];
    assert p[..|p| - 1] == lines[..i] && p[|p| - 1] == lines[i];
  }

  lemma {:induction false} RunAppend(rules: CategoryRules, m: Machine, lines: seq<string>, line: string)
    ensures Run(rules, m, lines + [line]) == Step(rules, Run(rules, m, lines), line)
  {
    assert (lines + [line])[..|lines|] == lines;
  }

  /** A blank line only advances the line number, in every state. */
  lemma {:induction false} EmptyLineStep(rules: CategoryRules, m: Machine, line: string)
    requires AllSpace(line)
    ensures Step(rules, m, line) == m.(lineNumber := m.lineNumber + 1)
  {
  }

  /**
   * A DATE line opens a new section from any state: context cleared, a
   * REMARK expected next; it is an error only where a REMARK was expected.
   */
  lemma {:induction false} DateStep(rules: CategoryRules, m: Machine, line: string)
    requires IsDateText(Trim(line))
    ensures var m' := Step(rules, m, line);
      && m'.state == ExpectingRemark && m'.parent == "" && m'.child == ""
      && m'.date == Trim(line)[5..] && m'.records == m.records
      && m'.errors == m.errors + (if m.state == ExpectingRemark then [ExpectedRemark(m.lineNumber + 1, line)] else [])
  {
    ValidateRemark(rules, line);
    ValidateDate(rules, line);
  }

  /**
   * A line other than a REMARK right after a DATE is reported, and is then
   * handled exactly as a content line would be.
   */
  lemma {:induction false} MissingRemarkFallsThrough(rules: CategoryRules, m: Machine, line: string)
    requires m.state == ExpectingRemark
    requires !AllSpace(line) && !StartsWith(Trim(line), "REMARK:")
    ensures Step(rules, m, line) ==
      Step(rules, m.(state := ProcessingContent, errors := m.errors + [ExpectedRemark(m.lineNumber + 1, line)]), line)
    ensures |Step(rules, m, line).errors| > |m.errors|
    ensures Step(rules, m, line).errors[|m.errors|] == ExpectedRemark(m.lineNumber + 1, line)
  {
    ValidateRemark(rules, line);
    MissingRemarkOn(rules, m, Validate(rules, line), line);
  }

  lemma {:induction false} MissingRemarkOn(rules: CategoryRules, m: Machine, vr: ValidationResult, line: string)
    requires m.state == ExpectingRemark
    requires vr.kind != Remark && vr.kind != Empty && |vr.matches| >= 1
    requires vr.kind == Item ==> |vr.matches| == 2
    ensures StepOn(rules, m, vr, line) ==
      StepOn(rules, m.(state := ProcessingContent, errors := m.errors + [ExpectedRemark(m.lineNumber + 1, line)]), vr, line)
    ensures |StepOn(rules, m, vr, line).errors| > |m.errors|
    ensures StepOn(rules, m, vr, line).errors[|m.errors|] == ExpectedRemark(m.lineNumber + 1, line)
  {
    var m1 := m.(lineNumber := m.lineNumber + 1);
    var m2 := m1.(errors := m1.errors + [ExpectedRemark(m1.lineNumber, line)], state := ProcessingContent);
    assert StepOn(rules, m, vr, line) == Content(rules, m2, vr, line);
    var m' := m.(state := ProcessingContent, errors := m.errors + [ExpectedRemark(m.lineNumber + 1, line)]);
    assert m'.(lineNumber := m'.lineNumber + 1) == m2;
    assert StepOn(rules, m', vr, line) == Content(rules, m2, vr, line);
    ContentKeepsErrors(rules, m2, vr, line);
    var e := Content(rules, m2, vr, line).errors;
    assert e[|m.errors|] == e[..|m2.errors|][|m.errors|] == m2.errors[|m.errors|];
  }

  /** Content handling only ever appends errors. */
  lemma {:induction false} ContentKeepsErrors(rules: CategoryRules, m: Machine, vr: ValidationResult, line: string)
    requires vr.kind != Empty && |vr.matches| >= 1
    requires vr.kind == Item ==> |vr.matches| == 2
    ensures var r := Content(rules, m, vr, line);
      |m.errors| <= |r.errors| && r.errors[..|m.errors|] == m.errors
  {
    var r := Content(rules, m, vr, line);
    assert r.errors == m.errors + r.errors[|m.errors|..];
  }

  /** An item with neither a parent nor a child context gives two errors and no record. */
  lemma {:induction false} ItemWithoutContext(rules: CategoryRules, m: Machine, line: string)
    requires m.state == ProcessingContent && m.parent == "" && m.child == ""
    requires Validate(rules, line).kind == Item
    ensures var n := m.lineNumber + 1;
      Step(rules, m, line) == m.(lineNumber := n, errors := m.errors + [ItemWithoutParent(n, line), ItemWithoutChild(n, line)])
  {
  }

  /** The invariant of the line loop: what the parser holds is always consistent with the rules. */
  ghost predicate Consistent(rules: CategoryRules, m: Machine) {
    && (m.state == ExpectingDate ==> m.parent == "" && m.child == "" && m.records == [])
    && (m.state != ExpectingDate ==> IsDateText("DATE:" + m.date))
    && (m.parent != "" ==> IsValidParent(rules, m.parent))
    && (m.child != "" ==> m.parent != "" && IsValidChildForParent(rules, m.parent, m.child))
    && forall k :: 0 <= k < |m.records| ==> RecordFits(rules, m.records[k])
  }

  /** A record carries a six-digit date, a configured parent and a child allowed under it. */
  ghost predicate RecordFits(rules: CategoryRules, r: ParsedRecord) {
    IsDateText("DATE:" + r.date) && r.parent != "" && r.child != ""
    && IsValidParent(rules, r.parent) && IsValidChildForParent(rules, r.parent, r.child)
  }

  lemma {:induction false} DateTextPayload(t: string)
    requires IsDateText(t)
    ensures IsDateText("DATE:" + t[5..])
  {
    assert "DATE:" + t[5..] == t;
  }

  /** What the section parser relies on in a classification: its shape, and that dates and parents are valid. */
  ghost predicate Sound(rules: CategoryRules, vr: ValidationResult) {
    && (vr.kind != Empty ==> |vr.matches| >= 1)
    && (vr.kind == Item ==> |vr.matches| == 2)
    && (vr.kind == Date ==> IsDateText("DATE:" + vr.matches[0]))
    && (vr.kind == Parent ==> IsValidParent(rules, vr.matches[0]))
  }

  lemma {:induction false} ValidateSound(rules: CategoryRules, line: string)
    ensures Sound(rules, Validate(rules, line))
  {
    ValidateParent(rules, line);
    ValidateDate(rules, line);
    if Validate(rules, line).kind == Date { DateTextPayload(Trim(line)); }
  }

  lemma {:induction false} ContentConsistent(rules: CategoryRules, m: Machine, vr: ValidationResult, line: string)
    requires Sound(rules, vr) && vr.kind != Empty
    requires Consistent(rules, m) && m.state != ExpectingDate
    ensures Consistent(rules, Content(rules, m, vr, line))
  {
  }

  lemma {:induction false} StepOnConsistent(rules: CategoryRules, m: Machine, vr: ValidationResult, line: string)
    requires Sound(rules, vr) && Consistent(rules, m)
    ensures Consistent(rules, StepOn(rules, m, vr, line))
  {
    var m1 := m.(lineNumber := m.lineNumber + 1);
    if vr.kind != Empty {
      match m.state
      case ExpectingDate =>
        if vr.kind == Date {
          assert StepOn(rules, m, vr, line) == OpenSection(m1, vr.matches[0]);
        } else {
          assert StepOn(rules, m, vr, line) == m1.(errors := m1.errors + [ExpectedDate(m1.lineNumber, line)]);
        }
      case ExpectingRemark =>
        if vr.kind != Remark {
          var m2 := m1.(errors := m1.errors + [ExpectedRemark(m1.lineNumber, line)], state := ProcessingContent);
          assert StepOn(rules, m, vr, line) == Content(rules, m2, vr, line);
          ContentConsistent(rules, m2, vr, line);
        } else {
          assert StepOn(rules, m, vr, line) == m1.(state := ProcessingContent);
        }
      case ProcessingContent =>
        assert StepOn(rules, m, vr, line) == Content(rules, m1, vr, line);
        ContentConsistent(rules, m1, vr, line);
    } else {
      assert StepOn(rules, m, vr, line) == m1;
    }
  }

  lemma {:induction false} StepConsistent(rules: CategoryRules, m: Machine, line: string)
    requires Consistent(rules, m)
    ensures Consistent(rules, Step(rules, m, line))
  {
    ValidateSound(rules, line);
    StepOnConsistent(rules, m, Validate(rules, line), line);
  }

  lemma {:induction false} RunConsistent(rules: CategoryRules, lines: seq<string>)
    ensures Consistent(rules, Run(rules, Start, lines))
  {
    if lines != [] {
      RunConsistent(rules, lines[..|lines| - 1]);
      StepConsistent(rules, Run(rules, Start, lines[..|lines| - 1]), lines[|lines| - 1]);
    }
  }

  /**
   * Every record handed to the caller has a non-empty parent and child,
   * the parent is a configured category, the child is allowed under it,
   * and the date is the six digits of a DATE line.
   */
  lemma {:induction false} RecordsWellFormed(rules: CategoryRules, lines: seq<string>, k: nat)
    requires k < |Run(rules, Start, lines).records|
    ensures var r := Run(rules, Start, lines).records[k];
      && r.parent != "" && r.child != ""
      && r.parent in rules && r.child in rules[r.parent]
      && |r.date| == 6 && AllDigits(r.date)
  {
    RunConsistent(rules, lines);
    var r := Run(rules, Start, lines).records[k];
    assert RecordFits(rules, r);
    assert ("DATE:" + r.date)[5..] == r.date;
  }

  lemma {:induction false} ContentProgress(rules: CategoryRules, m: Machine, vr: ValidationResult, line: string)
    requires vr.kind != Empty && |vr.matches| >= 1
    requires vr.kind == Item ==> |vr.matches| == 2
    ensures var m' := Content(rules, m, vr, line);
      m'.lineNumber == m.lineNumber && m.errors <= m'.errors && m.records <= m'.records
  {
  }

  lemma {:induction false} StepProgress(rules: CategoryRules, m: Machine, line: string)
    ensures var m' := Step(rules, m, line);
      m'.lineNumber == m.lineNumber + 1 && m.errors <= m'.errors && m.records <= m'.records
  {
    StepOnProgress(rules, m, Validate(rules, line), line);
  }

  lemma {:induction false} StepOnProgress(rules: CategoryRules, m: Machine, vr: ValidationResult, line: string)
    requires vr.kind != Empty ==> |vr.matches| >= 1
    requires vr.kind == Item ==> |vr.matches| == 2
    ensures var m' := StepOn(rules, m, vr, line);
      m'.lineNumber == m.lineNumber + 1 && m.errors <= m'.errors && m.records <= m'.records
  {
    var m1 := m.(lineNumber := m.lineNumber + 1);
    if vr.kind != Empty {
      match m.state
      case ExpectingDate =>
      case ExpectingRemark =>
        if vr.kind != Remark {
          var m2 := m1.(errors := m1.errors + [ExpectedRemark(m1.lineNumber, line)], state := ProcessingContent);
          assert StepOn(rules, m, vr, line) == Content(rules, m2, vr, line);
          ContentProgress(rules, m2, vr, line);
        }
      case ProcessingContent =>
        assert StepOn(rules, m, vr, line) == Content(rules, m1, vr, line);
        ContentProgress(rules, m1, vr, line);
    }
  }

  /** The line counter is the number of lines read, and errors and records only grow. */
  lemma {:induction false} RunProgress(rules: CategoryRules, m: Machine, lines: seq<string>)
    ensures Run(rules, m, lines).lineNumber == m.lineNumber + |lines|
    ensures m.errors <= Run(rules, m, lines).errors
    ensures m.records <= Run(rules, m, lines).records
  {
    if lines != [] {
      RunProgress(rules, m, lines[..|lines| - 1]);
      StepProgress(rules, Run(rules, m, lines[..|lines| - 1]), lines[|lines| - 1]);
    }
  }

  datatype ParseOutcome = CouldNotOpen | Parsed(errors: seq<ParseError>, records: seq<ParsedRecord>)

  class SectionParser {
    const rules: CategoryRules
    var state: ParserState
    var date: string
    var parent: string
    var child: string
    var lineNumber: nat

    function Snapshot(errors: seq<ParseError>, records: seq<ParsedRecord>): Machine
      reads this
    {
      Machine(state, date, parent, child, lineNumber, errors, records)
    }

    constructor (rules: CategoryRules)
      ensures this.rules == rules && Snapshot([], []) == Start
    {
      this.rules := rules;
      state, date, parent, child, lineNumber := ExpectingDate, "", "", "", 0;
    }

    /** `reset()`: back to expecting a DATE, with no date, parent, child or lines read. */
    method Reset()
      modifies this
      ensures Snapshot([], []) == Start
    {
      date, parent, child := "", "", "";
      lineNumber := 0;
      state := ExpectingDate;
    }

    /** The `PROCESSING_CONTENT` branch of the switch. */
    method HandleContent(vr: ValidationResult, line: string, errors: seq<ParseError>, records: seq<ParsedRecord>)
      returns (errs: seq<ParseError>, recs: seq<ParsedRecord>)
      requires vr.kind != Empty && |vr.matches| >= 1
      requires vr.kind == Item ==> |vr.matches| == 2
      modifies this
      ensures Snapshot(errs, recs) == Content(rules, old(Snapshot(errors, records)), vr, line)
    {
      errs, recs := errors, records;
      var n := lineNumber;
      if vr.kind == Date {
        date := vr.matches[0];
        parent, child := "", "";
        state := ExpectingRemark;
      } else if vr.kind == Remark {
        errs := errs + [UnexpectedRemark(n)];
      } else if vr.kind == Parent {
        parent := vr.matches[0];
        child := "";
      } else if vr.kind == InvalidParent {
        errs := errs + [InvalidParentCategory(n, vr.matches[0])];
        parent, child := "", "";
      } else if vr.kind == Child {
        if parent == "" {
          errs := errs + [ChildWithoutParent(n, vr.matches[0])];
        } else if IsValidChildForParent(rules, parent, vr.matches[0]) {
          child := vr.matches[0];
        } else {
          errs := errs + [ChildNotValidForParent(n, vr.matches[0], parent)];
          child := "";
        }
      } else if vr.kind == Item {
        var hasError := false;
        if parent == "" {
          errs := errs + [ItemWithoutParent(n, line)];
          hasError := true;
        }
        if child == "" {
          errs := errs + [ItemWithoutChild(n, line)];
          hasError := true;
        }
        if !hasError {
          recs := recs + [ParsedRecord(date, parent, child, vr.matches[0], vr.matches[1])];
        }
      } else if vr.kind == Unrecognized {
        errs := errs + [UnrecognizedLine(n, vr.matches[0])];
      }
    }

    /** One line of the `parseFile` loop: count it, validate it, dispatch on the state. */
    method ParseLine(line: string, errors: seq<ParseError>, records: seq<ParsedRecord>)
      returns (errs: seq<ParseError>, recs: seq<ParsedRecord>)
      modifies this
      ensures Snapshot(errs, recs) == Step(rules, old(Snapshot(errors, records)), line)
    {
      var vr := Validate(rules, line);
      errs, recs := ParseClassified(vr, line, errors, records);
    }

    /** The loop body once the line is classified: the line is counted, then the switch on the state. */
    method ParseClassified(vr: ValidationResult, line: string, errors: seq<ParseError>, records: seq<ParsedRecord>)
      returns (errs: seq<ParseError>, recs: seq<ParsedRecord>)
      requires vr.kind != Empty ==> |vr.matches| >= 1
      requires vr.kind == Item ==> |vr.matches| == 2
      modifies this
      ensures Snapshot(errs, recs) == StepOn(rules, old(Snapshot(errors, records)), vr, line)
    {
      errs, recs := errors, records;
      ghost var m := Snapshot(errors, records);
      lineNumber := lineNumber + 1;
      ghost var m1 := Snapshot(errs, recs);
      assert m1 == m.(lineNumber := m.lineNumber + 1);
      if vr.kind != Empty {
        if state == ExpectingDate {
          if vr.kind == Date {
            date := vr.matches[0];
            parent, child := "", "";
            state := ExpectingRemark;
          } else {
            errs := errs + [ExpectedDate(lineNumber, line)];
          }
        } else if state == ExpectingRemark {
          if vr.kind == Remark {
            state := ProcessingContent;
          } else {
            errs := errs + [ExpectedRemark(lineNumber, line)];
            state := ProcessingContent;
            errs, recs := HandleContent(vr, line, errs, recs);
          }
        } else {
          errs, recs := HandleContent(vr, line, errs, recs);
        }
      }
    }

    /**
     * `parseFile`: `None` stands for a file that cannot be opened (the
     * source throws); otherwise the lines are read in order, each record
     * goes to the result in the order the handler would see it, and the
     * returned errors end with the end-of-file check.
     */
    method ParseFile(file: Option<seq<string>>) returns (outcome: ParseOutcome)
      modifies this
      ensures file.None? ==> outcome == CouldNotOpen
      ensures file.Some? ==>
        var m := Run(rules, Start, file.value);
        && Snapshot(m.errors, m.records) == m
        && outcome == Parsed(FinalErrors(m), m.records)
    {
      if file.None? {
        return CouldNotOpen;
      }
      var lines := file.value;
      var errors: seq<ParseError> := [];
      var records: seq<ParsedRecord> := [];
      Reset();
      var i := 0;
      while i < |lines|
        invariant 0 <= i <= |lines|
        invariant Snapshot(errors, records) == Run(rules, Start, lines[..i])
      {
        var line := lines[i];
        ghost var before := Snapshot(errors, records);
        errors, records := ParseLine(line, errors, records);
        RunPrefix(rules, lines, i, before, Snapshot(errors, records));
        i := i + 1;
      }
      TakeAll(lines);
      outcome := Parsed(FinalErrors(Snapshot(errors, records)), records);
    }
  }
}
