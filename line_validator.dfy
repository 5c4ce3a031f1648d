/**
 * The bill line classifier (`LineValidator`): a trimmed line is a date
 * header, a remark, an item (amount and description), a child category,
 * a parent category, an unknown parent, or unrecognized. The category
 * rules are the parent -> children map read from the JSON configuration.
 */
module LineValidation {
  import opened Strings

  datatype LineType = Empty | Date | Remark | Item | Child | Parent | InvalidParent | Unrecognized

  /** The classification and the captured parts of the line. */
  datatype ValidationResult = ValidationResult(kind: LineType, matches: seq<string>)

  /** Parent category -> its allowed child categories. */
  type CategoryRules = map<string, set<string>>

  function IsValidParent(rules: CategoryRules, parent: string): bool {
    parent in rules
  }

  function IsValidChildForParent(rules: CategoryRules, parent: string, child: string): (r: bool)
    ensures r <==> IsValidParent(rules, parent) && child in rules[parent]
  {
    parent in rules && child in rules[parent]
  }

  predicate IsChildChar(c: char) {
    IsLower(c) || c == '_'
  }

  predicate IsBlankOrTab(c: char) {
    c == ' ' || c == '\t'
  }

  /** `find_first_not_of(" \t", from)`, or |s| when there is none. */
  function SkipBlanks(s: string, from: nat): (r: nat)
    requires from <= |s|
    decreases |s| - from
    ensures from <= r <= |s|
    ensures forall k :: from <= k < r ==> IsBlankOrTab(s[k])
    ensures r < |s| ==> !IsBlankOrTab(s[r])
  {
    if from == |s| || !IsBlankOrTab(s[from]) then from else SkipBlanks(s, from + 1)
  }

  /** The amount and the description of an item line: split at the first space. */
  function SplitItem(t: string): seq<string> {
    match Find(t, " ")
    case None => [t, ""]
    case Some(p) =>
      var d := SkipBlanks(t, p);
      if d < |t| then [t[..p], t[d..]] else [t[..p], ""]
  }

  predicate IsDateText(t: string) {
    |t| == 11 && StartsWith(t, "DATE:") && AllDigits(t[5..])
  }

  /** The classification of an already trimmed line. */
  function Classify(rules: CategoryRules, t: string): ValidationResult {
    if t == "" then ValidationResult(Empty, [])
    else if StartsWith(t, "DATE:") then
      var payload := t[5..];
      if |payload| == 6 && AllDigits(payload) then ValidationResult(Date, [payload])
      else ValidationResult(Unrecognized, [t])
    else if StartsWith(t, "REMARK:") then ValidationResult(Remark, [t[7..]])
    else if IsDigit(t[0]) then ValidationResult(Item, SplitItem(t))
    else if IsLower(t[0]) then
      if forall k :: 0 <= k < |t| ==> IsChildChar(t[k]) then ValidationResult(Child, [t])
      else ValidationResult(Unrecognized, [t])
    else if IsUpper(t[0]) then
      if IsValidParent(rules, t) then ValidationResult(Parent, [t])
      else ValidationResult(InvalidParent, [t])
    else ValidationResult(Unrecognized, [t])
  }

  /** Classifies one line of a bill file (`LineValidator::validate`). */
  function Validate(rules: CategoryRules, line: string): (r: ValidationResult)
    ensures r.kind == Empty <==> AllSpace(line)
    ensures r.kind == Empty ==> r.matches == []
    ensures r.kind != Empty ==> |r.matches| >= 1
    ensures r.kind == Item ==> |r.matches| == 2
  {
    TrimSpec(line);
    Classify(rules, Trim(line))
  }

  /** A `DATE:` line is a date exactly when six digits follow; otherwise it is unrecognized. */
  lemma {:induction false} ValidateDate(rules: CategoryRules, line: string)
    ensures var t := Trim(line); var r := Validate(rules, line);
      && (r.kind == Date <==> IsDateText(t))
      && (r.kind == Date ==> r.matches == [t[5..]])
      && (StartsWith(t, "DATE:") && !IsDateText(t) ==> r == ValidationResult(Unrecognized, [t]))
  {
    var t := Trim(line);
    if StartsWith(t, "REMARK:") { assert t[0] == 'R'; }
    if t != "" && IsDigit(t[0]) && |t| >= 5 { assert !StartsWith(t, "DATE:") by { assert t[..5][0] == t[0]; } }
  }

  lemma {:induction false} ValidateRemark(rules: CategoryRules, line: string)
    ensures var t := Trim(line); var r := Validate(rules, line);
      && (r.kind == Remark <==> StartsWith(t, "REMARK:"))
      && (r.kind == Remark ==> r.matches == [t[7..]])
  {
    var t := Trim(line);
    if StartsWith(t, "REMARK:") {
      assert t[..7][0] == 'R';
      assert !StartsWith(t, "DATE:") by { assert t[..5][0] == t[0]; }
    }
  }

  /** A line whose first non-space character is a digit is an item with two parts. */
  lemma {:induction false} ValidateItem(rules: CategoryRules, line: string)
    ensures var t := Trim(line); var r := Validate(rules, line);
      && (r.kind == Item <==> t != "" && IsDigit(t[0]))
      && (r.kind == Item ==> |r.matches| == 2)
  {
    var t := Trim(line);
    if t != "" && IsDigit(t[0]) {
      assert !StartsWith(t, "DATE:") by { if |t| >= 5 { assert t[..5][0] == t[0]; } }
      assert !StartsWith(t, "REMARK:") by { if |t| >= 7 { assert t[..7][0] == t[0]; } }
    }
  }

  /** A line starting with a lower-case letter is a child category exactly when it is all lower case and `_`, otherwise unrecognized. */
  lemma {:induction false} ValidateChild(rules: CategoryRules, line: string)
    ensures var t := Trim(line); var r := Validate(rules, line);
      && (t != "" && IsLower(t[0]) ==> (r.kind == Child <==> forall k :: 0 <= k < |t| ==> IsChildChar(t[k])))
      && (r.kind == Child ==> r.matches == [t] && forall k :: 0 <= k < |t| ==> IsChildChar(t[k]))
      && (t != "" && IsLower(t[0]) && r.kind != Child ==> r == ValidationResult(Unrecognized, [t]))
  {
    var t := Trim(line);
    if t != "" && IsLower(t[0]) {
      assert !StartsWith(t, "DATE:") by { if |t| >= 5 { assert t[..5][0] == t[0]; } }
      assert !StartsWith(t, "REMARK:") by { if |t| >= 7 { assert t[..7][0] == t[0]; } }
    }
  }

  /** A line starting with an upper-case letter (and not a header) is a parent when configured, else an invalid parent. */
  lemma {:induction false} ValidateParent(rules: CategoryRules, line: string)
    ensures var t := Trim(line); var r := Validate(rules, line);
      && (r.kind == Parent <==>
            t != "" && IsUpper(t[0]) && !StartsWith(t, "DATE:") && !StartsWith(t, "REMARK:") && IsValidParent(rules, t))
      && (r.kind == InvalidParent <==>
            t != "" && IsUpper(t[0]) && !StartsWith(t, "DATE:") && !StartsWith(t, "REMARK:") && !IsValidParent(rules, t))
      && (r.kind == Parent || r.kind == InvalidParent ==> r.matches == [t])
  {
  }

  /**
   * An item line splits into an amount with no space in it, a gap of
   * blanks and tabs that starts with a space, and a description; when the
   * line has a space the description is never empty, because the line
   * does not end in whitespace.
   */
  lemma {:induction false} SplitItemSpec(t: string)
    requires t != [] && !IsSpace(t[|t| - 1])
    ensures var m := SplitItem(t);
      && |m| == 2
      && !Contains(m[0], " ")
      && (!Contains(t, " ") ==> m == [t, ""])
      && (Contains(t, " ") ==>
            exists gap :: t == m[0] + gap + m[1]
              && gap != "" && gap[0] == ' ' && (forall k :: 0 <= k < |gap| ==> IsBlankOrTab(gap[k]))
              && m[1] != "" && !IsBlankOrTab(m[1][0]))
  {
    match Find(t, " ")
    case None =>
    case Some(p) =>
      SplitAtSpace(t, p);
  }

  /** The split at the first space `p`: blanks and tabs between the parts, none of them in the amount. */
  lemma {:induction false} SplitAtSpace(t: string, p: nat)
    requires t != [] && !IsSpace(t[|t| - 1])
    requires OccursAt(t, " ", p) && forall j: nat :: j < p ==> !OccursAt(t, " ", j)
    ensures var d := SkipBlanks(t, p);
      && d < |t|
      && !Contains(t[..p], " ")
      && exists gap :: t == t[..p] + gap + t[d..]
           && gap != "" && gap[0] == ' ' && (forall k :: 0 <= k < |gap| ==> IsBlankOrTab(gap[k]))
           && t[d..] != "" && !IsBlankOrTab(t[d..][0])
  {
    var d := SkipBlanks(t, p);
    assert t[p] == ' ' by { assert t[p..p + 1] == " "; }
    assert d < |t|;
    var gap := t[p..d];
    assert t == t[..p] + gap + t[d..];
    assert gap[0] == ' ';
    assert forall k :: 0 <= k < |gap| ==> IsBlankOrTab(gap[k]) by {
      forall k | 0 <= k < |gap| ensures IsBlankOrTab(gap[k]) { assert gap[k] == t[p + k]; }
    }
    assert t[d..][0] == t[d];
    NoSpaceBefore(t, p);
  }

  lemma {:induction false} NoSpaceBefore(t: string, p: nat)
    requires p <= |t| && forall j: nat :: j < p ==> !OccursAt(t, " ", j)
    ensures !Contains(t[..p], " ")
  {
    forall i: nat | i <= |t[..p]| ensures !OccursAt(t[..p], " ", i) {
      if OccursAt(t[..p], " ", i) {
        assert t[..p][i..i + 1] == t[i..i + 1];
        assert OccursAt(t, " ", i);
      }
    }
  }

  /** `SplitItemSpec` for the parts `Validate` returns. */
  lemma {:induction false} ItemSplit(rules: CategoryRules, line: string)
    requires Validate(rules, line).kind == Item
    ensures Validate(rules, line).matches == SplitItem(Trim(line))
    ensures var t := Trim(line); t != [] && !IsSpace(t[|t| - 1])
  {
    TrimSpec(line);
    ValidateItem(rules, line);
    var t := Trim(line);
    assert !StartsWith(t, "DATE:") && !StartsWith(t, "REMARK:");
  }
}
