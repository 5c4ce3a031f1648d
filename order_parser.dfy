/**
 * The hierarchical order parser (`BillParser` at the repository root):
 * each trimmed line is matched against the DATE, REMARK, item, child and
 * parent patterns in that order. Parents, children and items are numbered
 * within their enclosing scope: parents within a date, children within a
 * parent, items within a child. Each recognised line becomes a record.
 */
module OrderParsing {
  import opened Strings

  /** The shape of a trimmed line, with the captures of the pattern it matched first. */
  datatype Shape =
    | DateLine(digits: string)
    | RemarkLine(text: string)
    | ItemLine(amount: string, description: string)
    | ChildLine(name: string)
    | ParentLine(name: string)
    | NoMatch

  /** `^DATE:(\d{6})$` */
  predicate IsDateShape(t: string) {
    |t| == 11 && StartsWith(t, "DATE:") && AllDigits(t[5..])
  }

  /** `^REMARK:(.*)$` */
  predicate IsRemarkShape(t: string) {
    StartsWith(t, "REMARK:") && NoLineTerminator(t[7..])
  }

  /** `^([a-z_]+)$` */
  predicate IsChildShape(t: string) {
    t != [] && forall k :: 0 <= k < |t| ==> IsLower(t[k]) || t[k] == '_'
  }

  /** `^([A-Z].*)$` */
  predicate IsParentShape(t: string) {
    t != [] && IsUpper(t[0]) && NoLineTerminator(t[1..])
  }

  /**
   * The end of the greedy match of `\d+(?:\.\d+)?` at the start of `s`:
   * the digits, and a fraction when a digit follows the point.
   */
  function NumberEnd(s: string): (r: nat)
    requires s != [] && IsDigit(s[0])
    ensures 1 <= r <= |s|
  {
    var k := DigitsEnd(s, 0);
    if k + 1 < |s| && s[k] == '.' && IsDigit(s[k + 1]) then DigitsEnd(s, k + 1) else k
  }

  /**
   * `^(\d+(?:\.\d+)?)\s*(.*)$` with the captures the greedy match takes. A
   * shorter amount never rescues a failed match: the text after it starts
   * with a digit or a point, so the rest would include the same line break.
   */
  function MatchItem(t: string): (r: Option<(string, string)>)
    ensures r.Some? ==> t != [] && IsDigit(t[0])
    ensures r.Some? ==> |r.value.0| >= 1 && StartsWith(t, r.value.0) && EndsWith(t, r.value.1)
    ensures r.Some? ==> NoLineTerminator(r.value.1)
  {
    if t == [] || !IsDigit(t[0]) then None
    else
      var e := NumberEnd(t);
      var w := SkipSpaces(t, e);
      if NoLineTerminator(t[w..]) then Some((t[..e], t[w..])) else None
  }

  /** The patterns tried in order: date, remark, item, child, parent. */
  function Classify(t: string): Shape {
    if IsDateShape(t) then DateLine(t[5..])
    else if IsRemarkShape(t) then RemarkLine(t[7..])
    else if MatchItem(t).Some? then ItemLine(MatchItem(t).value.0, MatchItem(t).value.1)
    else if IsChildShape(t) then ChildLine(t)
    else if IsParentShape(t) then ParentLine(t)
    else NoMatch
  }

  datatype RecordKind = DateRecord | RemarkRecord | ParentRecord | ChildRecord | ItemRecord

  /** `ParsedRecord`; fields a kind does not use keep their defaults (0 and ""). */
  datatype OrderedRecord = OrderedRecord(
    kind: RecordKind, lineNumber: nat, order: nat, parentOrder: nat, childOrder: nat,
    content: string, amount: string, description: string)

  /** The parser's fields. */
  datatype Counters = Counters(
    lineNumber: nat, parentCounter: nat, childCounter: nat, itemCounter: nat,
    currentParentOrder: nat, currentChildOrder: nat, records: seq<OrderedRecord>)

  /** The fields after `reset()`. */
  const Init := Counters(0, 0, 0, 0, 0, 0, [])

  /** The effect of a matched line, already counted as line `m.lineNumber`. */
  function Apply(m: Counters, shape: Shape): Counters {
    var n := m.lineNumber;
    match shape
    case DateLine(d) =>
      m.(parentCounter := 0, childCounter := 0, itemCounter := 0, currentParentOrder := 0, currentChildOrder := 0,
         records := m.records + [OrderedRecord(DateRecord, n, 0, 0, 0, d, "", "")])
    case RemarkLine(c) =>
      m.(records := m.records + [OrderedRecord(RemarkRecord, n, 0, 0, 0, Trim(c), "", "")])
    case ItemLine(a, d) =>
      if m.currentParentOrder == 0 || m.currentChildOrder == 0 then m
      else
        var k := m.itemCounter + 1;
        m.(itemCounter := k,
           records := m.records + [OrderedRecord(ItemRecord, n, k, m.currentParentOrder, m.currentChildOrder, "", a, Trim(d))])
    case ChildLine(c) =>
      if m.currentParentOrder == 0 then m
      else
        var k := m.childCounter + 1;
        m.(childCounter := k, itemCounter := 0, currentChildOrder := k,
           records := m.records + [OrderedRecord(ChildRecord, n, k, m.currentParentOrder, 0, c, "", "")])
    case ParentLine(p) =>
      var k := m.parentCounter + 1;
      m.(parentCounter := k, childCounter := 0, itemCounter := 0, currentParentOrder := k, currentChildOrder := 0,
         records := m.records + [OrderedRecord(ParentRecord, n, k, 0, 0, p, "", "")])
    case NoMatch => m
  }

  /** `parseLine`. */
  function Step(m: Counters, line: string): Counters {
    var m1 := m.(lineNumber := m.lineNumber + 1);
    var t := Trim(line);
    if t == [] then m1 else Apply(m1, Classify(t))
  }

  function Run(m: Counters, lines: seq<string>): Counters
    decreases |lines|
  {
    if lines == [] then m else Step(Run(m, lines[..|lines| - 1]), lines[|lines| - 1])
  }

  /** The loop step: one more line read from `lines` is one more `Step`. */
  lemma {:induction false} RunPrefix(lines: seq<string>, i: nat, before: Counters, after: Counters)
    requires i < |lines|
    requires before == Run(Init, lines[..i]) && after == Step(before, lines[i])
    ensures after == Run(Init, lines[..i + 1])
  {
    var p := lines[..i + 1];
    assert p[..|p| - 1] == lines[..i] && p[|p| - 1] == lines[i];
  }

  lemma {:induction false} RunAppend(m: Counters, lines: seq<string>, line: string)
    ensures Run(m, lines + [line]) == Step(Run(m, lines), line)
  {
    assert (lines + [line])[..|lines|] == lines;
  }

  /** Date before remark before item before child before parent: a DATE or REMARK line is never a parent. */
  lemma {:induction false} ClassifyPriority(t: string)
    ensures Classify(t).ParentLine? <==>
      IsParentShape(t) && !IsDateShape(t) && !IsRemarkShape(t) && !IsChildShape(t) && MatchItem(t).None?
    ensures IsDateShape(t) ==> IsParentShape(t) && Classify(t) == DateLine(t[5..])
    ensures Classify(t).ItemLine? <==> !IsDateShape(t) && !IsRemarkShape(t) && MatchItem(t).Some?
  {
    if IsDateShape(t) {
      assert t[0] == "DATE:"[0];
      assert NoLineTerminator(t[1..]) by {
        forall k | 0 <= k < |t[1..]| ensures !IsLineTerminator(t[1..][k]) {
          if k < 4 { assert t[1..][k] == "DATE:"[k + 1]; } else { assert t[1..][k] == t[5..][k - 4]; }
        }
      }
    }
  }

  /** A DATE line resets every counter and both current orders. */
  lemma {:induction false} DateResets(m: Counters, line: string)
    requires IsDateShape(Trim(line))
    ensures var m' := Step(m, line);
      && m'.parentCounter == 0 && m'.childCounter == 0 && m'.itemCounter == 0
      && m'.currentParentOrder == 0 && m'.currentChildOrder == 0
      && m'.records == m.records + [OrderedRecord(DateRecord, m.lineNumber + 1, 0, 0, 0, Trim(line)[5..], "", "")]
  {
  }

  /** An item line yields a record exactly when both a parent and a child are current. */
  lemma {:induction false} ItemNeedsContext(m: Counters, line: string)
    requires Classify(Trim(line)).ItemLine? && Trim(line) != []
    ensures |Step(m, line).records| == |m.records| + 1 <==> m.currentParentOrder != 0 && m.currentChildOrder != 0
    ensures m.currentParentOrder == 0 || m.currentChildOrder == 0 ==> Step(m, line) == m.(lineNumber := m.lineNumber + 1)
  {
  }

  // ----- Numbering within scopes -----

  /** Kinds that close the scope in which items, children and parents are numbered. */
  const ItemScope: set<RecordKind> := {DateRecord, ParentRecord, ChildRecord}
  const ChildScope: set<RecordKind> := {DateRecord, ParentRecord}
  const ParentScope: set<RecordKind> := {DateRecord}

  /** The records after the last one whose kind is in `scope`. */
  function After(rs: seq<OrderedRecord>, scope: set<RecordKind>): seq<OrderedRecord>
    decreases |rs|
  {
    if rs == [] then []
    else if rs[|rs| - 1].kind in scope then []
    else After(rs[..|rs| - 1], scope) + [rs[|rs| - 1]]
  }

  /** The last record whose kind is in `scope`. */
  function LastIn(rs: seq<OrderedRecord>, scope: set<RecordKind>): Option<OrderedRecord>
    decreases |rs|
  {
    if rs == [] then None
    else if rs[|rs| - 1].kind in scope then Some(rs[|rs| - 1])
    else LastIn(rs[..|rs| - 1], scope)
  }

  function Count(rs: seq<OrderedRecord>, kind: RecordKind): nat
    decreases |rs|
  {
    if rs == [] then 0 else Count(rs[..|rs| - 1], kind) + (if rs[|rs| - 1].kind == kind then 1 else 0)
  }

  /** The order the record at `j` must carry given the records before it. */
  ghost predicate NumberedAt(rs: seq<OrderedRecord>, j: nat)
    requires j < |rs|
  {
    var r := rs[j];
    var before := rs[..j];
    match r.kind
    case ItemRecord =>
      && r.order == Count(After(before, ItemScope), ItemRecord) + 1
      && LastIn(before, ItemScope).Some?
      && LastIn(before, ItemScope).value.kind == ChildRecord
      && LastIn(before, ItemScope).value.order == r.childOrder
      && LastIn(before, ItemScope).value.parentOrder == r.parentOrder
    case ChildRecord =>
      && r.order == Count(After(before, ChildScope), ChildRecord) + 1
      && LastIn(before, ChildScope).Some?
      && LastIn(before, ChildScope).value.kind == ParentRecord
      && LastIn(before, ChildScope).value.order == r.parentOrder
    case ParentRecord =>
      r.order == Count(After(before, ParentScope), ParentRecord) + 1
    case _ => true
  }

  ghost predicate Numbered(rs: seq<OrderedRecord>) {
    forall j :: 0 <= j < |rs| ==> NumberedAt(rs, j)
  }

  function CurrentOrder(rs: seq<OrderedRecord>, scope: set<RecordKind>, kind: RecordKind): nat {
    match LastIn(rs, scope)
    case None => 0
    case Some(r) => if r.kind == kind then r.order else 0
  }

  /** The counters are exactly what the records produced so far imply. */
  ghost predicate Agree(m: Counters) {
    var rs := m.records;
    && m.itemCounter == Count(After(rs, ItemScope), ItemRecord)
    && m.childCounter == Count(After(rs, ChildScope), ChildRecord)
    && m.parentCounter == Count(After(rs, ParentScope), ParentRecord)
    && m.currentChildOrder == CurrentOrder(rs, ItemScope, ChildRecord)
    && m.currentParentOrder == CurrentOrder(rs, ChildScope, ParentRecord)
    && (LastIn(rs, ItemScope).Some? && LastIn(rs, ItemScope).value.kind == ChildRecord ==>
          LastIn(rs, ItemScope).value.parentOrder == m.currentParentOrder)
  }

  /** Records carry increasing line numbers, none beyond the lines read. */
  ghost predicate InOrder(rs: seq<OrderedRecord>, lineNumber: nat) {
    && (forall j :: 0 <= j < |rs| ==> 1 <= rs[j].lineNumber <= lineNumber)
    && (forall i, j :: 0 <= i < j < |rs| ==> rs[i].lineNumber < rs[j].lineNumber)
  }

  ghost predicate Inv(m: Counters) {
    Agree(m) && Numbered(m.records) && InOrder(m.records, m.lineNumber)
  }

  lemma {:induction false} NumberedAtPrefix(rs: seq<OrderedRecord>, r: OrderedRecord, j: nat)
    requires j < |rs| && NumberedAt(rs, j)
    ensures NumberedAt(rs + [r], j)
  {
    assert (rs + [r])[..j] == rs[..j];
  }

  /** Appending one record: how the scope functions move. */
  lemma {:induction false} Extend(rs: seq<OrderedRecord>, r: OrderedRecord, scope: set<RecordKind>)
    ensures After(rs + [r], scope) == if r.kind in scope then [] else After(rs, scope) + [r]
    ensures LastIn(rs + [r], scope) == if r.kind in scope then Some(r) else LastIn(rs, scope)
  {
    assert (rs + [r])[..|rs|] == rs;
  }

  lemma {:induction false} CountAppend(rs: seq<OrderedRecord>, r: OrderedRecord, kind: RecordKind)
    ensures Count(rs + [r], kind) == Count(rs, kind) + (if r.kind == kind then 1 else 0)
  {
    assert (rs + [r])[..|rs|] == rs;
  }

  /** Appending a record numbered as `NumberedAt` demands keeps `Numbered` and `InOrder`. */
  lemma {:induction false} AppendNumbered(rs: seq<OrderedRecord>, n: nat, r: OrderedRecord)
    requires Numbered(rs) && InOrder(rs, n)
    requires r.lineNumber == n + 1
    requires NumberedAt(rs + [r], |rs|)
    ensures Numbered(rs + [r]) && InOrder(rs + [r], n + 1)
  {
    forall j | 0 <= j < |rs| ensures NumberedAt(rs + [r], j) {
      NumberedAtPrefix(rs, r, j);
    }
  }

  /** The scope functions after appending `r`, for each of the three scopes. */
  lemma {:induction false} ExtendAll(rs: seq<OrderedRecord>, r: OrderedRecord)
    ensures After(rs + [r], ItemScope) == if r.kind in ItemScope then [] else After(rs, ItemScope) + [r]
    ensures After(rs + [r], ChildScope) == if r.kind in ChildScope then [] else After(rs, ChildScope) + [r]
    ensures After(rs + [r], ParentScope) == if r.kind in ParentScope then [] else After(rs, ParentScope) + [r]
    ensures LastIn(rs + [r], ItemScope) == if r.kind in ItemScope then Some(r) else LastIn(rs, ItemScope)
    ensures LastIn(rs + [r], ChildScope) == if r.kind in ChildScope then Some(r) else LastIn(rs, ChildScope)
    ensures (rs + [r])[..|rs|] == rs
  {
    Extend(rs, r, ItemScope);
    Extend(rs, r, ChildScope);
    Extend(rs, r, ParentScope);
  }

  lemma {:induction false} ItemKeeps(m: Counters, a: string, d: string)
    requires Inv(m) && m.currentParentOrder != 0 && m.currentChildOrder != 0
    ensures Inv(Apply(m.(lineNumber := m.lineNumber + 1), ItemLine(a, d)))
  {
    var n := m.lineNumber + 1;
    var rs := m.records;
    var r := OrderedRecord(ItemRecord, n, m.itemCounter + 1, m.currentParentOrder, m.currentChildOrder, "", a, Trim(d));
    var m' := m.(lineNumber := n, itemCounter := m.itemCounter + 1, records := rs + [r]);
    assert Apply(m.(lineNumber := n), ItemLine(a, d)) == m';
    ItemAgrees(m, r, m');
    ItemNumbered(m, r);
    AppendNumbered(rs, m.lineNumber, r);
  }

  /** The counters still agree with the records once an item record is appended. */
  lemma {:induction false} ItemAgrees(m: Counters, r: OrderedRecord, m': Counters)
    requires Agree(m) && r.kind == ItemRecord
    requires m' == m.(lineNumber := m'.lineNumber, itemCounter := m.itemCounter + 1, records := m.records + [r])
    ensures Agree(m')
  {
    ItemScopes(m.records, r);
  }

  /** An item record is inside all three scopes: it counts as one more item and moves no current order. */
  lemma {:induction false} ItemScopes(rs: seq<OrderedRecord>, r: OrderedRecord)
    requires r.kind == ItemRecord
    ensures Count(After(rs + [r], ItemScope), ItemRecord) == Count(After(rs, ItemScope), ItemRecord) + 1
    ensures Count(After(rs + [r], ChildScope), ChildRecord) == Count(After(rs, ChildScope), ChildRecord)
    ensures Count(After(rs + [r], ParentScope), ParentRecord) == Count(After(rs, ParentScope), ParentRecord)
    ensures LastIn(rs + [r], ItemScope) == LastIn(rs, ItemScope)
    ensures CurrentOrder(rs + [r], ItemScope, ChildRecord) == CurrentOrder(rs, ItemScope, ChildRecord)
    ensures CurrentOrder(rs + [r], ChildScope, ParentRecord) == CurrentOrder(rs, ChildScope, ParentRecord)
  {
    assert r.kind !in ItemScope && r.kind !in ChildScope && r.kind !in ParentScope;
    Extend(rs, r, ItemScope);
    Extend(rs, r, ChildScope);
    Extend(rs, r, ParentScope);
    CountAppend(After(rs, ItemScope), r, ItemRecord);
    CountAppend(After(rs, ChildScope), r, ChildRecord);
    CountAppend(After(rs, ParentScope), r, ParentRecord);
  }

  /** An item record numbered by the counters is what `NumberedAt` demands. */
  lemma {:induction false} ItemNumbered(m: Counters, r: OrderedRecord)
    requires Agree(m) && m.currentParentOrder != 0 && m.currentChildOrder != 0
    requires r.kind == ItemRecord && r.order == m.itemCounter + 1
    requires r.parentOrder == m.currentParentOrder && r.childOrder == m.currentChildOrder
    ensures NumberedAt(m.records + [r], |m.records|)
  {
    var rs := m.records;
    assert (rs + [r])[..|rs|] == rs;
    assert (rs + [r])[|rs|] == r;
  }

  lemma {:induction false} ChildKeeps(m: Counters, c: string)
    requires Inv(m) && m.currentParentOrder != 0
    ensures Inv(Apply(m.(lineNumber := m.lineNumber + 1), ChildLine(c)))
  {
    var n := m.lineNumber + 1;
    var rs := m.records;
    var k := m.childCounter + 1;
    var r := OrderedRecord(ChildRecord, n, k, m.currentParentOrder, 0, c, "", "");
    assert r.kind in ItemScope && r.kind !in ChildScope && r.kind !in ParentScope;
    var m' := m.(lineNumber := n, childCounter := k, itemCounter := 0, currentChildOrder := k, records := rs + [r]);
    assert Apply(m.(lineNumber := n), ChildLine(c)) == m';
    ExtendAll(rs, r);
    CountAppend(After(rs, ChildScope), r, ChildRecord);
    CountAppend(After(rs, ParentScope), r, ParentRecord);
    AppendNumbered(rs, m.lineNumber, r);
  }

  lemma {:induction false} ParentKeeps(m: Counters, p: string)
    requires Inv(m)
    ensures Inv(Apply(m.(lineNumber := m.lineNumber + 1), ParentLine(p)))
  {
    var n := m.lineNumber + 1;
    var rs := m.records;
    var k := m.parentCounter + 1;
    var r := OrderedRecord(ParentRecord, n, k, 0, 0, p, "", "");
    assert r.kind in ItemScope && r.kind in ChildScope && r.kind !in ParentScope;
    var m' := m.(lineNumber := n, parentCounter := k, childCounter := 0, itemCounter := 0,
                 currentParentOrder := k, currentChildOrder := 0, records := rs + [r]);
    assert Apply(m.(lineNumber := n), ParentLine(p)) == m';
    ExtendAll(rs, r);
    CountAppend(After(rs, ParentScope), r, ParentRecord);
    AppendNumbered(rs, m.lineNumber, r);
  }

  lemma {:induction false} DateKeeps(m: Counters, d: string)
    requires Inv(m)
    ensures Inv(Apply(m.(lineNumber := m.lineNumber + 1), DateLine(d)))
  {
    var n := m.lineNumber + 1;
    var rs := m.records;
    var r := OrderedRecord(DateRecord, n, 0, 0, 0, d, "", "");
    assert r.kind in ItemScope && r.kind in ChildScope && r.kind in ParentScope;
    var m' := m.(lineNumber := n, parentCounter := 0, childCounter := 0, itemCounter := 0,
                 currentParentOrder := 0, currentChildOrder := 0, records := rs + [r]);
    assert Apply(m.(lineNumber := n), DateLine(d)) == m';
    ExtendAll(rs, r);
    AppendNumbered(rs, m.lineNumber, r);
  }

  lemma {:induction false} RemarkKeeps(m: Counters, c: string)
    requires Inv(m)
    ensures Inv(Apply(m.(lineNumber := m.lineNumber + 1), RemarkLine(c)))
  {
    var n := m.lineNumber + 1;
    var rs := m.records;
    var r := OrderedRecord(RemarkRecord, n, 0, 0, 0, Trim(c), "", "");
    var m' := m.(lineNumber := n, records := rs + [r]);
    assert Apply(m.(lineNumber := n), RemarkLine(c)) == m';
    assert Agree(m') by {
      ExtendAll(rs, r);
      assert r.kind !in ItemScope && r.kind !in ChildScope && r.kind !in ParentScope;
      CountAppend(After(rs, ItemScope), r, ItemRecord);
      CountAppend(After(rs, ChildScope), r, ChildRecord);
      CountAppend(After(rs, ParentScope), r, ParentRecord);
      assert CurrentOrder(rs + [r], ItemScope, ChildRecord) == CurrentOrder(rs, ItemScope, ChildRecord);
      assert CurrentOrder(rs + [r], ChildScope, ParentRecord) == CurrentOrder(rs, ChildScope, ParentRecord);
    }
    assert NumberedAt(rs + [r], |rs|) by { assert (rs + [r])[|rs|] == r; }
    AppendNumbered(rs, m.lineNumber, r);
  }

  lemma {:induction false} StepKeeps(m: Counters, line: string)
    requires Inv(m)
    ensures Inv(Step(m, line))
  {
    var m1 := m.(lineNumber := m.lineNumber + 1);
    CountLineKeeps(m);
    if Trim(line) != [] {
      var shape := Classify(Trim(line));
      assert Step(m, line) == Apply(m1, shape);
      ApplyKeeps(m, shape);
    }
  }

  /** Counting a line keeps the invariant: the records are unchanged and their line numbers stay in range. */
  lemma {:induction false} CountLineKeeps(m: Counters)
    requires Inv(m)
    ensures Inv(m.(lineNumber := m.lineNumber + 1))
  {
  }

  lemma {:induction false} ApplyKeeps(m: Counters, shape: Shape)
    requires Inv(m)
    ensures Inv(Apply(m.(lineNumber := m.lineNumber + 1), shape))
  {
    match shape
    case DateLine(d) => DateKeeps(m, d);
    case RemarkLine(c) => RemarkKeeps(m, c);
    case ItemLine(a, d) =>
      if m.currentParentOrder != 0 && m.currentChildOrder != 0 { ItemKeeps(m, a, d); }
      else { CountLineKeeps(m); }
    case ChildLine(c) =>
      if m.currentParentOrder != 0 { ChildKeeps(m, c); }
      else { CountLineKeeps(m); }
    case ParentLine(p) => ParentKeeps(m, p);
    case NoMatch => CountLineKeeps(m);
  }

  lemma {:induction false} StepGrows(m: Counters, line: string)
    ensures m.records <= Step(m, line).records
  {
    var m1 := m.(lineNumber := m.lineNumber + 1);
    if Trim(line) != [] {
      var shape := Classify(Trim(line));
      assert Step(m, line) == Apply(m1, shape);
      match shape
      case NoMatch =>
      case _ =>
    }
  }

  lemma {:induction false} RunKeeps(lines: seq<string>)
    ensures Inv(Run(Init, lines))
  {
    if lines != [] {
      RunKeeps(lines[..|lines| - 1]);
      StepKeeps(Run(Init, lines[..|lines| - 1]), lines[|lines| - 1]);
    }
  }

  /**
   * Numbering of the parsed records: the k-th item since its child gets
   * order k and points at that child and its parent; the k-th child since
   * its parent gets order k; the k-th parent since the date gets order k.
   * Records appear in input order, with strictly increasing line numbers.
   */
  lemma {:induction false} RecordsNumbered(lines: seq<string>)
    ensures var rs := Run(Init, lines).records;
      && Numbered(rs)
      && (forall i, j :: 0 <= i < j < |rs| ==> rs[i].lineNumber < rs[j].lineNumber)
      && (forall j :: 0 <= j < |rs| ==> 1 <= rs[j].lineNumber <= |lines|)
  {
    RunKeeps(lines);
    RunLineNumber(lines);
  }

  lemma {:induction false} RunLineNumber(lines: seq<string>)
    ensures Run(Init, lines).lineNumber == |lines|
  {
    if lines != [] {
      RunLineNumber(lines[..|lines| - 1]);
      StepLineNumber(Run(Init, lines[..|lines| - 1]), lines[|lines| - 1]);
    }
  }

  /** Every line read counts, matched or not. */
  lemma {:induction false} StepLineNumber(m: Counters, line: string)
    ensures Step(m, line).lineNumber == m.lineNumber + 1
  {
    var t := Trim(line);
    if t != [] {
      ApplyKeepsLine(m.(lineNumber := m.lineNumber + 1), Classify(t));
    }
  }

  lemma {:induction false} ApplyKeepsLine(m: Counters, shape: Shape)
    ensures Apply(m, shape).lineNumber == m.lineNumber
  {
  }

  lemma {:induction false} RunConcat(m: Counters, a: seq<string>, b: seq<string>)
    ensures Run(m, a + b) == Run(Run(m, a), b)
    decreases |b|
  {
    if b == [] {
      assert a + b == a;
    } else {
      RunConcat(m, a, b[..|b| - 1]);
      assert (a + b)[..|a + b| - 1] == a + b[..|b| - 1];
    }
  }

  lemma {:induction false} RunGrows(m: Counters, more: seq<string>)
    ensures m.records <= Run(m, more).records
    decreases |more|
  {
    if more != [] {
      RunGrows(m, more[..|more| - 1]);
      StepGrows(Run(m, more[..|more| - 1]), more[|more| - 1]);
    }
  }

  /** Records are only ever appended: parsing more lines keeps the earlier records. */
  lemma {:induction false} RecordsGrow(lines: seq<string>, more: seq<string>)
    ensures Run(Init, lines).records <= Run(Init, lines + more).records
  {
    RunConcat(Init, lines, more);
    RunGrows(Run(Init, lines), more);
  }

  class OrderParser {
    var records: seq<OrderedRecord>
    var lineNumber: nat
    var parentCounter: nat
    var childCounter: nat
    var itemCounter: nat
    var currentParentOrder: nat
    var currentChildOrder: nat

    function Abstract(): Counters
      reads this
    {
      Counters(lineNumber, parentCounter, childCounter, itemCounter, currentParentOrder, currentChildOrder, records)
    }

    constructor ()
      ensures Abstract() == Init
    {
      records := [];
      lineNumber, parentCounter, childCounter, itemCounter := 0, 0, 0, 0;
      currentParentOrder, currentChildOrder := 0, 0;
    }

    method Reset()
      modifies this
      ensures Abstract() == Init
    {
      records := [];
      lineNumber, parentCounter, childCounter, itemCounter := 0, 0, 0, 0;
      currentParentOrder, currentChildOrder := 0, 0;
    }

    /** `parseLine`: one line's effect on the counters and the records. */
    method ParseLine(line: string)
      modifies this
      ensures Abstract() == Step(old(Abstract()), line)
    {
      lineNumber := lineNumber + 1;
      var t := Trim(line);
      if t != [] {
        ApplyShape(Classify(t));
      }
    }

    /** The `regex_match` branches of `parseLine`, for the line already counted. */
    method ApplyShape(shape: Shape)
      modifies this
      ensures Abstract() == Apply(old(Abstract()), shape)
    {
      match shape {
        case DateLine(d) =>
          parentCounter, childCounter, itemCounter := 0, 0, 0;
          currentParentOrder, currentChildOrder := 0, 0;
          records := records + [OrderedRecord(DateRecord, lineNumber, 0, 0, 0, d, "", "")];
        case RemarkLine(c) =>
          records := records + [OrderedRecord(RemarkRecord, lineNumber, 0, 0, 0, Trim(c), "", "")];
        case ItemLine(a, d) =>
          if currentParentOrder == 0 || currentChildOrder == 0 {
            return;
          }
          itemCounter := itemCounter + 1;
          records := records + [OrderedRecord(ItemRecord, lineNumber, itemCounter, currentParentOrder, currentChildOrder, "", a, Trim(d))];
        case ChildLine(c) =>
          if currentParentOrder == 0 {
            return;
          }
          childCounter := childCounter + 1;
          itemCounter := 0;
          currentChildOrder := childCounter;
          records := records + [OrderedRecord(ChildRecord, lineNumber, childCounter, currentParentOrder, 0, c, "", "")];
        case ParentLine(p) =>
          parentCounter := parentCounter + 1;
          childCounter, itemCounter := 0, 0;
          currentParentOrder := parentCounter;
          currentChildOrder := 0;
          records := records + [OrderedRecord(ParentRecord, lineNumber, parentCounter, 0, 0, p, "", "")];
        case NoMatch =>
      }
    }

    /**
     * `parseFile`: `None` stands for a file that cannot be opened (the
     * source throws and the fields are left as they were).
     */
    method ParseFile(file: Option<seq<string>>) returns (isOpen: bool)
      modifies this
      ensures isOpen == file.Some?
      ensures !isOpen ==> Abstract() == old(Abstract())
      ensures isOpen ==> Abstract() == Run(Init, file.value)
    {
      if file.None? {
        return false;
      }
      var lines := file.value;
      Reset();
      var i := 0;
      while i < |lines|
        invariant 0 <= i <= |lines|
        invariant Abstract() == Run(Init, lines[..i])
      {
        ghost var before := Abstract();
        ParseLine(lines[i]);
        RunPrefix(lines, i, before, Abstract());
        i := i + 1;
      }
      TakeAll(lines);
      return true;
    }
  }
}
