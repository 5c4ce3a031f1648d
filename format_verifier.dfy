/**
 * The bill format verifier (`BillFormatVerifier`): a bill file starts
 * with a `DATE:YYYYMM` line and a `REMARK:` line; the body is a sequence
 * of parent titles, each followed by sub-titles, each followed by content
 * lines. The verifier reports errors and warnings, counts content lines
 * per sub-title, and at the end checks every parent it saw.
 */
module FormatVerification {
  import opened Strings

  /** `BillConfig`: the parent titles and, per parent, its valid sub-titles. */
  datatype BillConfig = BillConfig(parents: set<string>, subTitles: map<string, set<string>>)

  predicate IsParentTitle(config: BillConfig, line: string) {
    line in config.parents
  }

  predicate IsValidSubTitle(config: BillConfig, parent: string, sub: string) {
    parent in config.subTitles && sub in config.subTitles[parent]
  }

  datatype VerifyError =
    | CannotOpenFile
    | BadDateHeader(line: nat, text: string)
    | FileEmpty
    | BadRemarkHeader(line: nat, text: string)
    | FileTooShort
    | ExpectedParent(line: nat, text: string)
    | ParentMissingSub(line: nat, parent: string)
    | InvalidSub(line: nat, sub: string, parent: string)
    | InvalidContent(line: nat, text: string)
    | ParentMissingSubAtEnd(parent: string)

  datatype VerifyWarning =
    | SubMissingContent(line: nat, sub: string)
    | SubMissingContentAtEnd(sub: string)
    | AllSubsEmpty(parent: string)

  datatype Report = Report(errors: seq<VerifyError>, warnings: seq<VerifyWarning>)

  /** Parent title -> (sub-title -> number of content lines). */
  type Structure = map<string, map<string, nat>>

  /** `^DATE:\d{6}$`, matched against the whole untrimmed line. */
  predicate IsDateHeader(line: string) {
    |line| == 11 && StartsWith(line, "DATE:") && AllDigits(line[5..])
  }

  /** `^REMARK:.*`, matched against the whole line. */
  predicate IsRemarkHeader(line: string) {
    StartsWith(line, "REMARK:") && NoLineTerminator(line[7..])
  }

  /**
   * `^\d+(?:\.\d+)?(?:[^\d\s].*)$`. The digits must be maximal, since the
   * class after them excludes digits; a fraction that leads nowhere is
   * dropped again by backtracking, and `.` is itself not a digit or a
   * space; so the pattern holds exactly when a run of digits is followed
   * by a character that is not whitespace and a rest with no line break.
   */
  predicate IsContentLine(line: string) {
    exists k :: 1 <= k < |line| && AllDigits(line[..k]) && !IsDigit(line[k]) && !IsSpace(line[k]) && NoLineTerminator(line[k + 1..])
  }

  datatype VState = ExpectParent | ExpectSub | ExpectContent

  /** The loop's variables, the structure and the result so far. */
  datatype Scan = Scan(
    state: VState, parent: string, sub: string,
    structure: Structure, order: seq<string>,
    errors: seq<VerifyError>, warnings: seq<VerifyWarning>)

  const Fresh := Scan(ExpectParent, "", "", map[], [], [], [])

  function AddError(sc: Scan, e: VerifyError): Scan { sc.(errors := sc.errors + [e]) }
  function AddWarning(sc: Scan, w: VerifyWarning): Scan { sc.(warnings := sc.warnings + [w]) }

  /** `bill_structure[p]`: registers `p` with no sub-titles unless already present. */
  function Register(sc: Scan, p: string): (r: Scan)
    ensures p in r.structure
  {
    if p in sc.structure then sc else sc.(structure := sc.structure[p := map[]], order := sc.order + [p])
  }

  /** `bill_structure[p][s] = 0`. */
  function RegisterSub(sc: Scan, p: string, s: string): (r: Scan) {
    var sc1 := Register(sc, p);
    var subs: map<string, nat> := sc1.structure[p][s := 0];
    sc1.(structure := sc1.structure[p := subs])
  }

  /** The count of `s` under `p`; 0 for an entry not present. */
  function CountOf(structure: Structure, p: string, s: string): nat {
    if p in structure && s in structure[p] then structure[p][s] else 0
  }

  /** `bill_structure[p][s]++`. */
  function Increment(sc: Scan, p: string, s: string): Scan {
    var sc1 := Register(sc, p);
    var c: nat := CountOf(sc1.structure, p, s) + 1;
    var subs: map<string, nat> := sc1.structure[p][s := c];
    sc1.(structure := sc1.structure[p := subs])
  }

  function HandleParent(config: BillConfig, sc: Scan, line: string, n: nat): Scan {
    if IsParentTitle(config, line) then Register(sc.(parent := line, state := ExpectSub), line)
    else AddError(sc, ExpectedParent(n, line))
  }

  function HandleSub(config: BillConfig, sc: Scan, line: string, n: nat): Scan {
    if IsParentTitle(config, line) then HandleParent(config, AddError(sc, ParentMissingSub(n, sc.parent)), line, n)
    else if IsValidSubTitle(config, sc.parent, line) then
      RegisterSub(sc.(sub := line, state := ExpectContent), sc.parent, line)
    else
      // an invalid sub-title is reported, and recorded anyway so its content is still checked
      RegisterSub(AddError(sc, InvalidSub(n, line, sc.parent)).(sub := line, state := ExpectContent), sc.parent, line)
  }

  /** The warning for a sub-title left without content, if it applies. */
  function WarnIfEmptySub(sc: Scan, n: nat): Scan {
    if sc.sub != "" && CountOf(sc.structure, sc.parent, sc.sub) == 0 then AddWarning(sc, SubMissingContent(n, sc.sub))
    else sc
  }

  function HandleContent(config: BillConfig, sc: Scan, line: string, n: nat): Scan {
    if IsParentTitle(config, line) then HandleParent(config, WarnIfEmptySub(sc, n), line, n).(sub := "")
    else if IsValidSubTitle(config, sc.parent, line) then HandleSub(config, WarnIfEmptySub(sc, n), line, n)
    else if IsContentLine(line) then Increment(sc, sc.parent, sc.sub)
    else AddError(sc, InvalidContent(n, line))
  }

  /** `_process_line` for the non-empty line numbered `n`. */
  function ProcessLine(config: BillConfig, sc: Scan, line: string, n: nat): Scan {
    match sc.state
    case ExpectParent => HandleParent(config, sc, line, n)
    case ExpectSub =>
      var sc1 := if sc.sub != "" && sc.parent in sc.structure && sc.sub in sc.structure[sc.parent]
                    && sc.structure[sc.parent][sc.sub] == 0
                 then AddWarning(sc, SubMissingContent(n, sc.sub)) else sc;
      HandleSub(config, sc1.(sub := ""), line, n)
    case ExpectContent => HandleContent(config, sc, line, n)
  }

  /** The body loop over the lines after the header; the first is line 3. */
  function ScanBody(config: BillConfig, body: seq<string>): Scan
    decreases |body|
  {
    if body == [] then Fresh
    else
      var sc := ScanBody(config, body[..|body| - 1]);
      var line := body[|body| - 1];
      if line == "" then sc else ProcessLine(config, sc, line, |body| + 2)
  }

  /** The end-of-file check on the last sub-title. */
  function EndOfFile(sc: Scan): Scan {
    if sc.sub != "" && CountOf(sc.structure, sc.parent, sc.sub) == 0 then AddWarning(sc, SubMissingContentAtEnd(sc.sub))
    else sc
  }

  predicate AllZero(subs: map<string, nat>) {
    forall s :: s in subs ==> subs[s] == 0
  }

  /** `_post_validation_checks`, visiting parents in `order`. */
  function PostChecks(structure: Structure, order: seq<string>): Report
    decreases |order|
  {
    if order == [] then Report([], [])
    else
      var r := PostChecks(structure, order[..|order| - 1]);
      var p := order[|order| - 1];
      if p !in structure then r
      else if structure[p] == map[] then r.(errors := r.errors + [ParentMissingSubAtEnd(p)])
      else if AllZero(structure[p]) then r.(warnings := r.warnings + [AllSubsEmpty(p)])
      else r
  }

  /** The header check: `None` when both header lines are well-formed. */
  function HeaderError(lines: seq<string>): Option<VerifyError> {
    if |lines| == 0 then Some(FileEmpty)
    else if !IsDateHeader(lines[0]) then Some(BadDateHeader(1, lines[0]))
    else if |lines| == 1 then Some(FileTooShort)
    else if !IsRemarkHeader(lines[1]) then Some(BadRemarkHeader(2, lines[1]))
    else None
  }

  /** The scan state after the body loop and the end-of-file check. */
  function FinalScan(config: BillConfig, lines: seq<string>): Scan {
    if HeaderError(lines).Some? then Fresh.(errors := [HeaderError(lines).value])
    else EndOfFile(ScanBody(config, lines[2..]))
  }

  /** The report of `validate` for a file that opened. */
  function Verify(config: BillConfig, lines: seq<string>): Report {
    var sc := FinalScan(config, lines);
    var post := PostChecks(sc.structure, sc.order);
    Report(sc.errors + post.errors, sc.warnings + post.warnings)
  }

  // ----- Properties -----

  /** `order` lists each registered parent once, in the order of registration. */
  ghost predicate OrderMatches(structure: Structure, order: seq<string>) {
    && (forall p :: p in structure <==> p in order)
    && (forall i, j :: 0 <= i < j < |order| ==> order[i] != order[j])
  }

  /** What the loop keeps true between lines. */
  ghost predicate ScanInv(sc: Scan) {
    && OrderMatches(sc.structure, sc.order)
    && (sc.state == ExpectParent ==> sc.sub == "" && sc.structure == map[])
    && (sc.state == ExpectSub ==> sc.sub == "" && sc.parent in sc.structure)
    && (sc.state == ExpectContent ==> sc.sub != "" && sc.parent in sc.structure && sc.sub in sc.structure[sc.parent])
  }

  lemma {:induction false} RegisterKeeps(sc: Scan, p: string)
    requires OrderMatches(sc.structure, sc.order)
    ensures OrderMatches(Register(sc, p).structure, Register(sc, p).order)
    ensures sc.structure.Keys <= Register(sc, p).structure.Keys
  {
  }

  lemma {:induction false} HandleParentKeeps(config: BillConfig, sc: Scan, line: string, n: nat)
    requires OrderMatches(sc.structure, sc.order) && sc.sub == ""
    requires sc.state == ExpectParent ==> sc.structure == map[]
    requires sc.state == ExpectSub ==> sc.parent in sc.structure
    requires sc.state != ExpectContent
    ensures ScanInv(HandleParent(config, sc, line, n))
  {
    RegisterKeeps(sc.(parent := line, state := ExpectSub), line);
  }

  lemma {:induction false} RegisterSubKeeps(sc: Scan, p: string, s: string)
    requires OrderMatches(sc.structure, sc.order) && p in sc.structure
    ensures var r := RegisterSub(sc, p, s);
      OrderMatches(r.structure, r.order) && p in r.structure && s in r.structure[p] && r.structure[p][s] == 0
      && r.order == sc.order
  {
  }

  lemma {:induction false} HandleSubKeeps(config: BillConfig, sc: Scan, line: string, n: nat)
    requires OrderMatches(sc.structure, sc.order) && sc.sub == "" && sc.parent in sc.structure
    requires sc.state != ExpectContent && sc.state != ExpectParent
    requires line != ""
    ensures ScanInv(HandleSub(config, sc, line, n))
  {
    if IsParentTitle(config, line) {
      HandleParentKeeps(config, AddError(sc, ParentMissingSub(n, sc.parent)), line, n);
    } else if IsValidSubTitle(config, sc.parent, line) {
      RegisterSubKeeps(sc.(sub := line, state := ExpectContent), sc.parent, line);
    } else {
      RegisterSubKeeps(AddError(sc, InvalidSub(n, line, sc.parent)).(sub := line, state := ExpectContent), sc.parent, line);
    }
  }

  lemma {:induction false} ProcessLineKeeps(config: BillConfig, sc: Scan, line: string, n: nat)
    requires ScanInv(sc) && line != ""
    ensures ScanInv(ProcessLine(config, sc, line, n))
  {
    match sc.state
    case ExpectParent => HandleParentKeeps(config, sc, line, n);
    case ExpectSub =>
      HandleSubKeeps(config, sc.(sub := ""), line, n);
    case ExpectContent =>
      if IsParentTitle(config, line) {
        var w := WarnIfEmptySub(sc, n);
        RegisterKeeps(w.(parent := line, state := ExpectSub), line);
      } else if IsValidSubTitle(config, sc.parent, line) {
        ContentSubKeeps(config, WarnIfEmptySub(sc, n), line, n);
      } else if IsContentLine(line) {
        RegisterKeeps(sc, sc.parent);
      }
  }

  /** `HandleSub` reached from the content state: the current sub-title is replaced. */
  lemma {:induction false} ContentSubKeeps(config: BillConfig, sc: Scan, line: string, n: nat)
    requires OrderMatches(sc.structure, sc.order) && sc.parent in sc.structure
    requires !IsParentTitle(config, line) && line != ""
    ensures ScanInv(HandleSub(config, sc, line, n))
  {
    if IsValidSubTitle(config, sc.parent, line) {
      RegisterSubKeeps(sc.(sub := line, state := ExpectContent), sc.parent, line);
    } else {
      RegisterSubKeeps(AddError(sc, InvalidSub(n, line, sc.parent)).(sub := line, state := ExpectContent), sc.parent, line);
    }
  }

  lemma {:induction false} ScanBodyKeeps(config: BillConfig, body: seq<string>)
    ensures ScanInv(ScanBody(config, body))
  {
    if body != [] {
      ScanBodyKeeps(config, body[..|body| - 1]);
      var line := body[|body| - 1];
      if line != "" {
        ProcessLineKeeps(config, ScanBody(config, body[..|body| - 1]), line, |body| + 2);
      }
    }
  }

  /**
   * While a sub-title is expected there is never a current sub-title, so
   * the missing-content warning of the `EXPECT_SUB` case never fires: a
   * line in that state adds no warning.
   */
  lemma {:induction false} ExpectSubAddsNoWarning(config: BillConfig, body: seq<string>, line: string, n: nat)
    requires ScanBody(config, body).state == ExpectSub
    ensures ProcessLine(config, ScanBody(config, body), line, n).warnings == ScanBody(config, body).warnings
  {
    ScanBodyKeeps(config, body);
  }

  /** A valid parent title in `EXPECT_PARENT` registers the parent and expects a sub-title. */
  lemma {:induction false} ParentOpens(config: BillConfig, sc: Scan, line: string, n: nat)
    requires sc.state == ExpectParent && IsParentTitle(config, line)
    ensures var r := ProcessLine(config, sc, line, n);
      r.state == ExpectSub && r.parent == line && line in r.structure && r.errors == sc.errors
  {
  }

  /** An invalid sub-title is an error, but content lines are still counted under it, from 0. */
  lemma {:induction false} InvalidSubStillCounts(config: BillConfig, sc: Scan, line: string, n: nat)
    requires sc.state == ExpectSub && !IsParentTitle(config, line) && !IsValidSubTitle(config, sc.parent, line)
    ensures var r := ProcessLine(config, sc, line, n);
      && r.errors == sc.errors + [InvalidSub(n, line, sc.parent)]
      && r.state == ExpectContent && r.sub == line && CountOf(r.structure, sc.parent, line) == 0
  {
  }

  /** A content line adds one to the current sub-title's count and changes no other count. */
  lemma {:induction false} ContentCountsOnce(config: BillConfig, sc: Scan, line: string, n: nat)
    requires ScanInv(sc) && sc.state == ExpectContent
    requires !IsParentTitle(config, line) && !IsValidSubTitle(config, sc.parent, line) && IsContentLine(line)
    ensures var r := ProcessLine(config, sc, line, n);
      && r.structure.Keys == sc.structure.Keys
      && r.structure[sc.parent].Keys == sc.structure[sc.parent].Keys
      && CountOf(r.structure, sc.parent, sc.sub) == CountOf(sc.structure, sc.parent, sc.sub) + 1
      && (forall p, s :: (p != sc.parent || s != sc.sub) ==> CountOf(r.structure, p, s) == CountOf(sc.structure, p, s))
      && r.errors == sc.errors && r.warnings == sc.warnings && r.state == ExpectContent
  {
  }

  /** A malformed header is the only error: the body is not scanned and no parent is checked. */
  lemma {:induction false} BadHeaderStops(config: BillConfig, lines: seq<string>)
    requires HeaderError(lines).Some?
    ensures Verify(config, lines) == Report([HeaderError(lines).value], [])
  {
  }

  /** The header passes exactly when line 1 is `DATE:` with six digits and line 2 a `REMARK:` line. */
  lemma {:induction false} HeaderAccepts(lines: seq<string>)
    ensures HeaderError(lines).None? <==> |lines| >= 2 && IsDateHeader(lines[0]) && IsRemarkHeader(lines[1])
  {
  }

  /**
   * The end-of-file checks report exactly the parents without sub-titles
   * (as errors) and the parents whose sub-titles all lack content (as
   * warnings), and nothing else.
   */
  lemma {:induction false} PostChecksExact(structure: Structure, order: seq<string>)
    requires forall i, j :: 0 <= i < j < |order| ==> order[i] != order[j]
    ensures var r := PostChecks(structure, order);
      && (forall p :: ParentMissingSubAtEnd(p) in r.errors <==> p in order && p in structure && structure[p] == map[])
      && (forall p :: AllSubsEmpty(p) in r.warnings <==>
            p in order && p in structure && structure[p] != map[] && AllZero(structure[p]))
      && (forall k :: 0 <= k < |r.errors| ==> r.errors[k].ParentMissingSubAtEnd?)
      && (forall k :: 0 <= k < |r.warnings| ==> r.warnings[k].AllSubsEmpty?)
  {
    if order != [] {
      var front := order[..|order| - 1];
      assert forall i, j :: 0 <= i < j < |front| ==> front[i] != front[j];
      PostChecksExact(structure, front);
      var p := order[|order| - 1];
      assert forall q :: q in order <==> q in front || q == p;
      assert p !in front;
    }
  }

  /** `validate` is true exactly when no error was recorded, whatever the warnings. */
  lemma {:induction false} VerdictIgnoresWarnings(config: BillConfig, lines: seq<string>)
    ensures var r := Verify(config, lines);
      r.errors == [] <==> (FinalScan(config, lines).errors == [] &&
        forall p :: p in FinalScan(config, lines).structure ==> FinalScan(config, lines).structure[p] != map[])
  {
    var sc := FinalScan(config, lines);
    if HeaderError(lines).None? {
      ScanBodyKeeps(config, lines[2..]);
      assert OrderMatches(sc.structure, sc.order);
    }
    assert OrderMatches(sc.structure, sc.order);
    PostChecksExact(sc.structure, sc.order);
    var post := PostChecks(sc.structure, sc.order);
    if post.errors != [] {
      assert post.errors[0] in post.errors;
    }
  }

  class BillFormatVerifier {
    /** `bill_structure`, with its parents in the order they were first registered. */
    var billStructure: Structure
    var order: seq<string>

    constructor ()
      ensures billStructure == map[] && order == []
    {
      billStructure, order := map[], [];
    }

    /**
     * `validate`: `None` stands for a file that cannot be opened. Returns
     * the verdict and the report, and leaves the structure the scan built.
     */
    method Validate(file: Option<seq<string>>, config: BillConfig) returns (ok: bool, result: Report)
      modifies this
      ensures file.None? ==> result == Report([CannotOpenFile], []) && billStructure == map[]
      ensures file.Some? ==>
        result == Verify(config, file.value) && billStructure == FinalScan(config, file.value).structure
      ensures ok <==> result.errors == []
    {
      billStructure, order := map[], [];
      if file.None? {
        result := Report([CannotOpenFile], []);
        ok := false;
        return;
      }
      var lines := file.value;
      var sc: Scan;
      var header := HeaderError(lines);
      if header.Some? {
        sc := Fresh.(errors := [header.value]);
      } else {
        var body := lines[2..];
        sc := Fresh;
        var i := 0;
        while i < |body|
          invariant 0 <= i <= |body|
          invariant sc == ScanBody(config, body[..i])
        {
          TakeStep(body, i);
          if body[i] != "" {
            sc := ProcessLine(config, sc, body[i], i + 3);
          }
          i := i + 1;
        }
        TakeAll(body);
        sc := EndOfFile(sc);
      }
      billStructure, order := sc.structure, sc.order;
      var post := PostCheck();
      result := Report(sc.errors + post.errors, sc.warnings + post.warnings);
      ok := result.errors == [];
    }

    /** `_post_validation_checks` over the parents in registration order. */
    method PostCheck() returns (r: Report)
      ensures r == PostChecks(billStructure, order)
    {
      r := Report([], []);
      var i := 0;
      while i < |order|
        invariant 0 <= i <= |order|
        invariant r == PostChecks(billStructure, order[..i])
      {
        var p := order[i];
        TakeStep(order, i);
        if p in billStructure {
          var subs := billStructure[p];
          if subs == map[] {
            r := r.(errors := r.errors + [ParentMissingSubAtEnd(p)]);
          } else if AllZero(subs) {
            r := r.(warnings := r.warnings + [AllSubsEmpty(p)]);
          }
        }
        i := i + 1;
      }
      TakeAll(order);
    }
  }
}
