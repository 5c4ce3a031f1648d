/**
 * The structure parser of the bill modifier application (`BillParser`):
 * lines with a configured metadata prefix are set aside unchanged, the
 * other lines are trimmed and the blank ones dropped; then every title
 * (first non-space character a letter) opens a parent when it has no `_`
 * and a sub-item otherwise, and every other line is a content line of the
 * current sub-item.
 */
module ModifierParsing {
  import opened Strings
  import opened BillTree

  // ------------------------------------------------------ line predicates

  /** `_is_metadata_line`: the line starts with one of the configured prefixes. */
  predicate IsMetadataLine(prefixes: seq<string>, line: string) {
    exists i :: 0 <= i < |prefixes| && StartsWith(line, prefixes[i])
  }

  /** `_is_title`: the first non-space character exists and is a letter. */
  predicate IsTitle(line: string) {
    var k := SkipSpaces(line, 0);
    k < |line| && IsAlpha(line[k])
  }

  /** `_is_parent_title`: parent identifiers contain no underscore. */
  predicate IsParentTitle(line: string) {
    '_' !in line
  }

  /** A line is a title exactly when some letter is preceded only by spaces; a blank line never is. */
  lemma {:induction false} IsTitleSpec(line: string)
    ensures IsTitle(line) <==>
      exists k :: 0 <= k < |line| && AllSpace(line[..k]) && !IsSpace(line[k]) && IsAlpha(line[k])
    ensures AllSpace(line) ==> !IsTitle(line)
  {
    var i := SkipSpaces(line, 0);
    assert line[0..i] == line[..i];
    if IsTitle(line) {
      assert AllSpace(line[..i]) && !IsSpace(line[i]) && IsAlpha(line[i]);
    }
    forall k | 0 <= k < |line| && AllSpace(line[..k]) && !IsSpace(line[k]) && IsAlpha(line[k])
      ensures IsTitle(line)
    {
      if k < i {
        assert line[..i][k] == line[k];
      } else if i < k {
        assert line[..k][i] == line[i];
      }
    }
  }

  // ------------------------------------------------ the first line loop

  /** The lines set aside as metadata, unchanged and in order. */
  function MetaLines(prefixes: seq<string>, lines: seq<string>): seq<string>
    decreases |lines|
  {
    if lines == [] then []
    else
      var x := lines[|lines| - 1];
      MetaLines(prefixes, lines[..|lines| - 1]) + (if IsMetadataLine(prefixes, x) then [x] else [])
  }

  /** The other lines, trimmed, with the ones that trim to nothing left out. */
  function TempLines(prefixes: seq<string>, lines: seq<string>): seq<string>
    decreases |lines|
  {
    if lines == [] then []
    else
      var x := lines[|lines| - 1];
      TempLines(prefixes, lines[..|lines| - 1]) + KeptLine(prefixes, x)
  }

  function KeptLine(prefixes: seq<string>, x: string): seq<string> {
    if IsMetadataLine(prefixes, x) || Trim(x) == "" then [] else [Trim(x)]
  }

  lemma {:induction false} SplitOff<T>(a: seq<T>, b: seq<T>)
    requires b != []
    ensures (a + b)[..|a + b| - 1] == a + b[..|b| - 1] && (a + b)[|a + b| - 1] == b[|b| - 1]
  {
  }

  /** The metadata of two runs of lines is the metadata of each, in order. */
  lemma {:induction false} MetaLinesConcat(prefixes: seq<string>, a: seq<string>, b: seq<string>)
    ensures MetaLines(prefixes, a + b) == MetaLines(prefixes, a) + MetaLines(prefixes, b)
    decreases |b|
  {
    if b == [] {
      assert a + b == a;
    } else {
      SplitOff(a, b);
      MetaLinesConcat(prefixes, a, b[..|b| - 1]);
    }
  }

  /** The kept lines of two runs of lines are the kept lines of each, in order. */
  lemma {:induction false} TempLinesConcat(prefixes: seq<string>, a: seq<string>, b: seq<string>)
    ensures TempLines(prefixes, a + b) == TempLines(prefixes, a) + TempLines(prefixes, b)
    decreases |b|
  {
    if b == [] {
      assert a + b == a;
    } else {
      SplitOff(a, b);
      TempLinesConcat(prefixes, a, b[..|b| - 1]);
    }
  }

  /**
   * A metadata line goes to the metadata unchanged and to nothing else;
   * any other line adds nothing to the metadata and its trimmed text to
   * the structure's input unless it is blank.
   */
  lemma {:induction false} OneLine(prefixes: seq<string>, a: seq<string>, x: string)
    ensures MetaLines(prefixes, a + [x]) == MetaLines(prefixes, a) + (if IsMetadataLine(prefixes, x) then [x] else [])
    ensures IsMetadataLine(prefixes, x) ==> TempLines(prefixes, a + [x]) == TempLines(prefixes, a)
    ensures !IsMetadataLine(prefixes, x) && !AllSpace(x) ==> TempLines(prefixes, a + [x]) == TempLines(prefixes, a) + [Trim(x)]
    ensures AllSpace(x) ==> TempLines(prefixes, a + [x]) == TempLines(prefixes, a)
  {
    SplitOff(a, [x]);
    TrimSpec(x);
  }

  /** Whitespace-only lines contribute nothing to the structure, wherever they stand. */
  lemma {:induction false} BlankLineDropped(prefixes: seq<string>, a: seq<string>, x: string, b: seq<string>)
    requires AllSpace(x)
    ensures TempLines(prefixes, a + [x] + b) == TempLines(prefixes, a + b)
    ensures MetaLines(prefixes, a + [x] + b) ==
      MetaLines(prefixes, a) + (if IsMetadataLine(prefixes, x) then [x] else []) + MetaLines(prefixes, b)
  {
    OneLine(prefixes, a, x);
    TempLinesConcat(prefixes, a + [x], b);
    TempLinesConcat(prefixes, a, b);
    MetaLinesConcat(prefixes, a + [x], b);
  }

  /** Every line handed to the structure loop is trimmed and not empty. */
  lemma {:induction false} TempLinesTrimmed(prefixes: seq<string>, lines: seq<string>)
    ensures forall k :: 0 <= k < |TempLines(prefixes, lines)| ==>
      TempLines(prefixes, lines)[k] != "" && Trim(TempLines(prefixes, lines)[k]) == TempLines(prefixes, lines)[k]
    decreases |lines|
  {
    if lines != [] {
      var x := lines[|lines| - 1];
      TempLinesTrimmed(prefixes, lines[..|lines| - 1]);
      TrimIdempotent(x);
    }
  }

  // ------------------------------------------------ the second line loop

  /** The tree built so far and whether `current_sub_item` is set (`current_parent` is set once the tree is not empty). */
  datatype Cursor = Cursor(structure: seq<ParentItem>, subOpen: bool)

  predicate Ready(c: Cursor) {
    c.subOpen ==> c.structure != [] && Last(c.structure).subs != []
  }

  /** One iteration of the structure loop. */
  function Step(c: Cursor, line: string): (r: Cursor)
    requires Ready(c)
    ensures Ready(r)
  {
    if IsTitle(line) then
      if IsParentTitle(line) then Cursor(AddParent(c.structure, line), false)
      else Cursor(AddSub(c.structure, line), true)
    else if c.subOpen then Cursor(AddContent(c.structure, line), true)
    else c
  }

  function Run(temp: seq<string>): (r: Cursor)
    ensures Ready(r)
    decreases |temp|
  {
    if temp == [] then Cursor([], false) else Step(Run(temp[..|temp| - 1]), temp[|temp| - 1])
  }

  /** `parse`: the structure built from the lines that are neither metadata nor blank. */
  function Parse(prefixes: seq<string>, lines: seq<string>): seq<ParentItem> {
    Run(TempLines(prefixes, lines)).structure
  }

  // ---------------------------------------- the same, told line by line

  /** The last title among `ls`, if any. */
  function LastTitle(ls: seq<string>): Option<string>
    decreases |ls|
  {
    if ls == [] then None
    else if IsTitle(ls[|ls| - 1]) then Some(ls[|ls| - 1])
    else LastTitle(ls[..|ls| - 1])
  }

  /** After `ls`, content has a sub-item to go to: the last title seen is a sub-title. */
  predicate SubOpenAfter(ls: seq<string>) {
    LastTitle(ls).Some? && !IsParentTitle(LastTitle(ls).value)
  }

  /** What the line `x` after `ls` contributes to the document order of the tree. */
  function Emitted(ls: seq<string>, x: string): seq<string> {
    if IsTitle(x) then
      (if !IsParentTitle(x) && LastTitle(ls).None? then [DefaultParent] else []) + [x]
    else if SubOpenAfter(ls) then [x]
    else []
  }

  /** What the line `x` after `ls` contributes to the parent titles. */
  function NewParent(ls: seq<string>, x: string): seq<string> {
    if !IsTitle(x) then []
    else if IsParentTitle(x) then [x]
    else if LastTitle(ls).None? then [DefaultParent]
    else []
  }

  function Kept(ls: seq<string>): seq<string>
    decreases |ls|
  {
    if ls == [] then [] else Kept(ls[..|ls| - 1]) + Emitted(ls[..|ls| - 1], ls[|ls| - 1])
  }

  function ParentTitles(ls: seq<string>): seq<string>
    decreases |ls|
  {
    if ls == [] then [] else ParentTitles(ls[..|ls| - 1]) + NewParent(ls[..|ls| - 1], ls[|ls| - 1])
  }

  /** The loop invariant of the structure loop, against the line-by-line account. */
  predicate Agrees(ls: seq<string>, c: Cursor) {
    && c.subOpen == SubOpenAfter(ls)
    && (c.structure == [] <==> LastTitle(ls).None?)
    && Flatten(c.structure) == Kept(ls)
    && Titles(c.structure) == ParentTitles(ls)
  }

  lemma {:induction false} StepAgrees(ls: seq<string>, c: Cursor, x: string)
    requires Ready(c) && Agrees(ls, c)
    ensures Agrees(ls + [x], Step(c, x))
  {
    if IsTitle(x) && IsParentTitle(x) {
      StepAgreesParent(ls, c, x);
    } else if IsTitle(x) {
      StepAgreesSub(ls, c, x);
    } else {
      StepAgreesContent(ls, c, x);
    }
  }

  /** The line-by-line account of `ls + [x]`, one line further than that of `ls`. */
  lemma {:induction false} AccountSnoc(ls: seq<string>, x: string)
    ensures Kept(ls + [x]) == Kept(ls) + Emitted(ls, x)
    ensures ParentTitles(ls + [x]) == ParentTitles(ls) + NewParent(ls, x)
    ensures LastTitle(ls + [x]) == if IsTitle(x) then Some(x) else LastTitle(ls)
  {
    assert (ls + [x])[..|ls|] == ls;
  }

  lemma {:induction false} StepAgreesParent(ls: seq<string>, c: Cursor, x: string)
    requires Ready(c) && Agrees(ls, c) && IsTitle(x) && IsParentTitle(x)
    ensures Agrees(ls + [x], Step(c, x))
  {
    AccountSnoc(ls, x);
    FlattenAddParent(c.structure, x);
    TitlesSnoc(c.structure, ParentItem(x, []));
  }

  lemma {:induction false} StepAgreesSub(ls: seq<string>, c: Cursor, x: string)
    requires Ready(c) && Agrees(ls, c) && IsTitle(x) && !IsParentTitle(x)
    ensures Agrees(ls + [x], Step(c, x))
  {
    if c.structure == [] {
      FirstSubAgrees(ls, c, x);
    } else {
      AccountSnoc(ls, x);
      FlattenAddSub(c.structure, x);
      TitlesAddSub(c.structure, x);
    }
  }

  lemma {:induction false} FirstSubAgrees(ls: seq<string>, c: Cursor, x: string)
    requires Ready(c) && Agrees(ls, c) && IsTitle(x) && !IsParentTitle(x) && c.structure == []
    ensures Agrees(ls + [x], Step(c, x))
  {
    AccountSnoc(ls, x);
    FlattenAddSub([], x);
    FirstSubTitles(x);
  }

  /** A sub-title on an empty tree puts the default parent in front of it. */
  lemma {:induction false} FirstSubTitles(x: string)
    ensures Titles(AddSub([], x)) == [DefaultParent]
  {
    var p := AddSub([], x)[0];
    TitlesSnoc([], p);
    assert AddSub([], x) == [] + [p];
  }

  lemma {:induction false} StepAgreesContent(ls: seq<string>, c: Cursor, x: string)
    requires Ready(c) && Agrees(ls, c) && !IsTitle(x)
    ensures Agrees(ls + [x], Step(c, x))
  {
    AccountSnoc(ls, x);
    if c.subOpen {
      FlattenAddContent(c.structure, x);
      TitlesAddContent(c.structure, x);
    }
  }

  lemma {:induction false} RunAgrees(ls: seq<string>)
    ensures Agrees(ls, Run(ls))
    decreases |ls|
  {
    if ls != [] {
      var front := ls[..|ls| - 1];
      RunAgrees(front);
      StepAgrees(front, Run(front), ls[|ls| - 1]);
      assert front + [ls[|ls| - 1]] == ls;
    }
  }

  /**
   * In document order, the tree holds every title and every content line
   * that follows a sub-title with no parent title in between; a sub-title
   * before any title is preceded by the default parent. The parents are
   * the titles without `_`, in order, behind the default parent when one
   * was created.
   */
  lemma {:induction false} ParseSpec(prefixes: seq<string>, lines: seq<string>)
    ensures var temp := TempLines(prefixes, lines);
      && Flatten(Parse(prefixes, lines)) == Kept(temp)
      && Titles(Parse(prefixes, lines)) == ParentTitles(temp)
  {
    RunAgrees(TempLines(prefixes, lines));
  }

  /** A content line with no open sub-item leaves the whole tree as it was. */
  lemma {:induction false} OrphanContentDropped(ls: seq<string>, x: string)
    requires !IsTitle(x) && !SubOpenAfter(ls)
    ensures Run(ls + [x]) == Run(ls)
    ensures Kept(ls + [x]) == Kept(ls)
  {
    RunAgrees(ls);
    var ls' := ls + [x];
    assert ls'[..|ls'| - 1] == ls && ls'[|ls'| - 1] == x;
  }

  /** A sub-title before any title opens the default parent, which becomes the first parent. */
  lemma {:induction false} DefaultParentFirst(ls: seq<string>, x: string)
    requires LastTitle(ls).None? && IsTitle(x) && !IsParentTitle(x)
    ensures var r := Run(ls + [x]).structure;
      |r| == 1 && r[0].title == DefaultParent && r[0].subs == [SubItem(x, [])]
  {
    RunAgrees(ls);
    var ls' := ls + [x];
    assert ls'[..|ls'| - 1] == ls && ls'[|ls'| - 1] == x;
  }

  /** A parent title starts a new, empty parent at the end and closes the current sub-item. */
  lemma {:induction false} ParentTitleResets(ls: seq<string>, x: string)
    requires IsTitle(x) && IsParentTitle(x)
    ensures var before := Run(ls); var after := Run(ls + [x]);
      && after.structure == before.structure + [ParentItem(x, [])]
      && !after.subOpen
      && !SubOpenAfter(ls + [x])
  {
    var ls' := ls + [x];
    assert ls'[..|ls'| - 1] == ls && ls'[|ls'| - 1] == x;
  }

  // ------------------------------------------------------------ the method

  lemma {:induction false} RunPrefix(temp: seq<string>, j: nat)
    requires j < |temp|
    ensures Run(temp[..j + 1]) == Step(Run(temp[..j]), temp[j])
  {
    var p := temp[..j + 1];
    assert p[..|p| - 1] == temp[..j] && p[|p| - 1] == temp[j];
  }

  lemma {:induction false} SplitPrefix(prefixes: seq<string>, lines: seq<string>, i: nat)
    requires i < |lines|
    ensures MetaLines(prefixes, lines[..i + 1]) ==
      MetaLines(prefixes, lines[..i]) + (if IsMetadataLine(prefixes, lines[i]) then [lines[i]] else [])
    ensures TempLines(prefixes, lines[..i + 1]) == TempLines(prefixes, lines[..i]) + KeptLine(prefixes, lines[i])
  {
    var p := lines[..i + 1];
    assert p[..|p| - 1] == lines[..i] && p[|p| - 1] == lines[i];
  }

  /**
   * `BillParser::parse`: the metadata lines are appended to `outMetadata`
   * in order, and the returned structure is `Parse` of the lines.
   */
  method ParseLines(prefixes: seq<string>, lines: seq<string>, outMetadata: seq<string>)
    returns (structure: seq<ParentItem>, metadata: seq<string>)
    ensures metadata == outMetadata + MetaLines(prefixes, lines)
    ensures structure == Parse(prefixes, lines)
  {
    metadata := outMetadata;
    var temp: seq<string> := [];
    var i := 0;
    while i < |lines|
      invariant 0 <= i <= |lines|
      invariant metadata == outMetadata + MetaLines(prefixes, lines[..i])
      invariant temp == TempLines(prefixes, lines[..i])
    {
      SplitPrefix(prefixes, lines, i);
      metadata, temp := SortLine(prefixes, lines[i], metadata, temp);
      i := i + 1;
    }
    TakeAll(lines);
    structure := BuildStructure(temp);
  }

  /** The body of the first loop: a metadata line is set aside, any other is trimmed and kept unless blank. */
  method SortLine(prefixes: seq<string>, line: string, metadata: seq<string>, temp: seq<string>)
    returns (metadata': seq<string>, temp': seq<string>)
    ensures metadata' == metadata + (if IsMetadataLine(prefixes, line) then [line] else [])
    ensures temp' == temp + KeptLine(prefixes, line)
  {
    metadata', temp' := metadata, temp;
    if IsMetadataLine(prefixes, line) {
      metadata' := metadata' + [line];
    } else {
      var t := Trim(line);
      if t != "" {
        temp' := temp' + [t];
      }
    }
  }

  /** The second loop of `parse`, the current parent and sub-item becoming the cursor. */
  method BuildStructure(temp: seq<string>) returns (structure: seq<ParentItem>)
    ensures structure == Run(temp).structure
  {
    structure := [];
    var subOpen := false;
    var j := 0;
    while j < |temp|
      invariant 0 <= j <= |temp|
      invariant Cursor(structure, subOpen) == Run(temp[..j])
    {
      RunPrefix(temp, j);
      var line := temp[j];
      if IsTitle(line) {
        if IsParentTitle(line) {
          structure := structure + [ParentItem(line, [])];
          subOpen := false;
        } else {
          ghost var before := structure;
          if structure == [] {
            structure := [ParentItem(DefaultParent, [])];
          }
          var p := structure[|structure| - 1];
          structure := structure[..|structure| - 1] + [p.(subs := p.subs + [SubItem(line, [])])];
          subOpen := true;
          if before == [] {
            assert p.subs + [SubItem(line, [])] == [SubItem(line, [])];
            assert structure == [ParentItem(DefaultParent, [SubItem(line, [])])];
          } else {
            assert p == Last(before);
          }
          assert structure == AddSub(before, line);
        }
      } else if subOpen {
        structure := AddContent(structure, line);
      }
      j := j + 1;
    }
    TakeAll(temp);
  }
}
