/**
 * The bill modifier of the `cell` tool (`BillModifier`): the bill text is
 * split into lines, optionally summed and auto-renewed, parsed into a
 * parent / sub-item / content tree (metadata lines set aside), optionally
 * sorted and cleaned up, and rendered back to text with configurable
 * blank-line counts.
 */
module BillModification {
  import opened Strings
  import opened BillTree
  import opened RenewalBlocks

  datatype Flags = Flags(summing: bool, autoRenewal: bool, cleanup: bool, sorting: bool, preserveMetadata: bool)

  /** Newline counts of the renderer; a count of zero or less writes nothing. */
  datatype Formatting = Formatting(afterParentSection: int, afterParentTitle: int, betweenSubItems: int)

  /**
   * The count 1 for each key missing from a `formatting_rules` object. When
   * `formatting_rules` itself is absent, the counts are the defaults of the
   * configuration struct, whose header is not part of this model.
   */
  const DefaultFormatting := Formatting(1, 1, 1)

  /** Category title -> its renewal items, in the key order of the configuration's `std::map`. */
  type RenewalRules = seq<(string, seq<RenewalItem>)>

  datatype ModifierConfig = ModifierConfig(flags: Flags, formatting: Formatting, renewals: RenewalRules)

  // ---------------------------------------------------------------- lines

  /** `_split_string_by_lines`: `std::getline` pieces; a final newline does not start another line. */
  function SplitLines(s: string): seq<string>
    decreases |s|
  {
    if s == "" then []
    else
      var p := NewlineFrom(s, 0);
      if p == |s| then [s] else [s[..p]] + SplitLines(s[p + 1..])
  }

  /** The first newline at or after `i`, or the end. */
  function NewlineFrom(s: string, i: nat): (r: nat)
    requires i <= |s|
    decreases |s| - i
    ensures i <= r <= |s|
    ensures forall k :: i <= k < r ==> s[k] != '\n'
    ensures r < |s| ==> s[r] == '\n'
  {
    if i == |s| || s[i] == '\n' then i else NewlineFrom(s, i + 1)
  }

  lemma {:induction false} NewlineUnique(s: string, i: nat, e: nat)
    requires i <= e <= |s|
    requires forall k :: i <= k < e ==> s[k] != '\n'
    requires e < |s| ==> s[e] == '\n'
    ensures NewlineFrom(s, i) == e
    decreases e - i
  {
    if i < e { NewlineUnique(s, i + 1, e); }
  }

  predicate NoNewline(s: string) {
    forall i :: 0 <= i < |s| ==> s[i] != '\n'
  }

  /** Every line followed by a newline (what the metadata loop writes). */
  function JoinLines(ls: seq<string>): string
    decreases |ls|
  {
    if ls == [] then "" else ls[0] + "\n" + JoinLines(ls[1..])
  }

  /** The lines separated, not terminated, by newlines. */
  function Intercalate(ls: seq<string>): string
    decreases |ls|
  {
    if ls == [] then "" else if |ls| == 1 then ls[0] else Intercalate(ls[..|ls| - 1]) + "\n" + Last(ls)
  }

  lemma {:induction false} JoinLinesConcat(a: seq<string>, b: seq<string>)
    ensures JoinLines(a + b) == JoinLines(a) + JoinLines(b)
    decreases |a|
  {
    if a != [] {
      assert (a + b)[0] == a[0];
      assert (a + b)[1..] == a[1..] + b;
      JoinLinesConcat(a[1..], b);
      calc {
        JoinLines(a + b);
        a[0] + "\n" + JoinLines(a[1..] + b);
        a[0] + "\n" + (JoinLines(a[1..]) + JoinLines(b));
        (a[0] + "\n" + JoinLines(a[1..])) + JoinLines(b);
      }
    } else {
      assert a + b == b;
    }
  }

  lemma {:induction false} JoinLinesSnoc(a: seq<string>, x: string)
    ensures JoinLines(a + [x]) == JoinLines(a) + x + "\n"
  {
    JoinLinesConcat(a, [x]);
    assert JoinLines([x]) == x + "\n" + JoinLines([]);
  }

  lemma {:induction false} IntercalateAsJoin(ls: seq<string>)
    requires ls != []
    ensures Intercalate(ls) == JoinLines(ls[..|ls| - 1]) + Last(ls)
    decreases |ls|
  {
    if |ls| > 1 {
      var front := ls[..|ls| - 1];
      IntercalateAsJoin(front);
      assert front[..|front| - 1] + [Last(front)] == front;
      JoinLinesSnoc(front[..|front| - 1], Last(front));
    }
  }

  lemma {:induction false} IntercalateConcat(a: seq<string>, b: seq<string>)
    requires a != [] && b != []
    ensures Intercalate(a + b) == Intercalate(a) + "\n" + Intercalate(b)
    decreases |b|
  {
    if |b| == 1 {
      assert (a + b)[..|a + b| - 1] == a;
    } else {
      var front := b[..|b| - 1];
      assert (a + b)[..|a + b| - 1] == a + front;
      IntercalateConcat(a, front);
    }
  }

  lemma {:induction false} NoNewlineNotFound(s: string)
    requires NoNewline(s)
    ensures s != "" ==> SplitLines(s) == [s]
  {
    NewlineUnique(s, 0, |s|);
  }

  lemma {:induction false} FirstNewline(x: string, rest: string)
    requires NoNewline(x)
    ensures var s := x + "\n" + rest; NewlineFrom(s, 0) == |x| && SplitLines(s) == [x] + SplitLines(rest)
  {
    var s := x + "\n" + rest;
    NewlineUnique(s, 0, |x|);
    assert s[..|x|] == x;
    assert s[|x| + 1..] == rest;
  }

  /** Splitting newline-terminated lines gives them back, whatever follows. */
  lemma {:induction false} SplitJoin(ls: seq<string>, rest: string)
    requires AllNoNewline(ls)
    ensures SplitLines(JoinLines(ls) + rest) == ls + SplitLines(rest)
    decreases |ls|
  {
    if ls != [] {
      var x := ls[0];
      var tail := JoinLines(ls[1..]) + rest;
      assert JoinLines(ls) + rest == x + "\n" + tail by {
        ConcatAssoc(x + "\n", JoinLines(ls[1..]), rest);
      }
      FirstNewline(x, tail);
      assert AllNoNewline(ls[1..]) by {
        forall i | 0 <= i < |ls| - 1 ensures NoNewline(ls[1..][i]) { assert ls[1..][i] == ls[i + 1]; }
      }
      SplitJoin(ls[1..], rest);
      ConcatAssoc([x], ls[1..], SplitLines(rest));
      assert [x] + ls[1..] == ls;
    } else {
      assert JoinLines(ls) + rest == rest;
    }
  }

  predicate AllNoNewline(ls: seq<string>) {
    forall i :: 0 <= i < |ls| ==> NoNewline(ls[i])
  }

  lemma {:induction false} AllNoNewlineConcat(a: seq<string>, b: seq<string>)
    requires AllNoNewline(a) && AllNoNewline(b)
    ensures AllNoNewline(a + b)
  {
    forall i | 0 <= i < |a + b| ensures NoNewline((a + b)[i]) {
      if i >= |a| { assert (a + b)[i] == b[i - |a|]; }
    }
  }

  lemma {:induction false} AllNoNewlineSlice(a: seq<string>, n: nat)
    requires AllNoNewline(a) && n <= |a|
    ensures AllNoNewline(a[..n])
  {
    forall i | 0 <= i < n ensures NoNewline(a[..n][i]) { assert a[..n][i] == a[i]; }
  }

  lemma {:induction false} FrontLast<T>(s: seq<T>)
    requires s != []
    ensures s[..|s| - 1] + [s[|s| - 1]] == s
  {
  }

  /** Splitting separated lines gives them back when the last one is not empty. */
  lemma {:induction false} SplitIntercalate(ls: seq<string>)
    requires ls != [] && Last(ls) != ""
    requires AllNoNewline(ls)
    ensures SplitLines(Intercalate(ls)) == ls
  {
    var front := ls[..|ls| - 1];
    var x := ls[|ls| - 1];
    assert Intercalate(ls) == JoinLines(front) + x by { IntercalateAsJoin(ls); }
    AllNoNewlineSlice(ls, |ls| - 1);
    assert SplitLines(JoinLines(front) + x) == front + SplitLines(x) by { SplitJoin(front, x); }
    assert SplitLines(x) == [x] by { NoNewlineNotFound(x); }
    FrontLast(ls);
  }

  /** `_is_metadata_line`: a `DATE:` or `REMARK:` prefix. */
  predicate IsMetadataLine(line: string) {
    StartsWith(line, "DATE:") || StartsWith(line, "REMARK:")
  }

  /** The lines set aside as metadata by the first loop of `_parse_into_structure`. */
  function MetaOf(lines: seq<string>, preserve: bool): seq<string>
    decreases |lines|
  {
    if lines == [] then []
    else
      var l := Last(lines);
      MetaOf(lines[..|lines| - 1], preserve) + (if preserve && IsMetadataLine(l) then [l] else [])
  }

  /** The trimmed, non-empty remaining lines of that loop. */
  function BodyOf(lines: seq<string>, preserve: bool): seq<string>
    decreases |lines|
  {
    if lines == [] then []
    else
      var l := Last(lines);
      BodyOf(lines[..|lines| - 1], preserve)
        + (if preserve && IsMetadataLine(l) then [] else if Trim(l) == "" then [] else [Trim(l)])
  }

  /**
   * Metadata is kept only when preserved, unchanged and in order; every
   * other line is passed on trimmed, and blank lines are dropped.
   */
  lemma {:induction false} MetaBodySpec(lines: seq<string>, preserve: bool)
    ensures !preserve ==> MetaOf(lines, preserve) == []
    ensures forall i :: 0 <= i < |MetaOf(lines, preserve)| ==> IsMetadataLine(MetaOf(lines, preserve)[i])
    ensures forall i :: 0 <= i < |BodyOf(lines, preserve)| ==>
      var b := BodyOf(lines, preserve)[i]; b != "" && Trim(b) == b
    ensures |MetaOf(lines, preserve)| + |BodyOf(lines, preserve)| <= |lines|
    decreases |lines|
  {
    if lines != [] {
      var l := Last(lines);
      MetaBodySpec(lines[..|lines| - 1], preserve);
      TrimIdempotent(l);
    }
  }

  // ------------------------------------------------------- auto-renewal

  /** The items of one category, applied one after the other below the header at `h`. */
  function RenewItems(lines: seq<string>, h: nat, items: seq<RenewalItem>): (r: seq<string>)
    requires h < |lines|
    decreases |items|
    ensures |lines| <= |r| <= |lines| + |items|
  {
    if items == [] then lines
    else
      var before := RenewItems(lines, h, items[..|items| - 1]);
      RenewOneKeepsPrefix(before, h, Last(items));
      RenewOne(before, h, Last(items))
  }

  function RenewCategory(lines: seq<string>, category: string, items: seq<RenewalItem>): seq<string> {
    match FindLine(lines, category)
    case None => lines
    case Some(h) => RenewItems(lines, h, items)
  }

  /** The auto-renewal pass of `_perform_initial_modifications` over every category. */
  function AutoRenew(lines: seq<string>, rules: RenewalRules): seq<string>
    decreases |rules|
  {
    if rules == [] then lines
    else
      var rule := Last(rules);
      RenewCategory(AutoRenew(lines, rules[..|rules| - 1]), rule.0, rule.1)
  }

  function ItemCount(rules: RenewalRules): nat
    decreases |rules|
  {
    if rules == [] then 0 else ItemCount(rules[..|rules| - 1]) + |Last(rules).1|
  }

  /** Renewals keep the header and the lines above it. */
  lemma {:induction false} RenewItemsKeepsPrefix(lines: seq<string>, h: nat, items: seq<RenewalItem>)
    requires h < |lines|
    ensures RenewItems(lines, h, items)[..h + 1] == lines[..h + 1]
    decreases |items|
  {
    if items != [] {
      var before := RenewItems(lines, h, items[..|items| - 1]);
      RenewItemsKeepsPrefix(lines, h, items[..|items| - 1]);
      RenewOneKeepsPrefix(before, h, Last(items));
    }
  }

  /** Auto-renewal removes nothing and adds at most one line per configured item. */
  lemma {:induction false} AutoRenewLength(lines: seq<string>, rules: RenewalRules)
    ensures |lines| <= |AutoRenew(lines, rules)| <= |lines| + ItemCount(rules)
    decreases |rules|
  {
    if rules != [] {
      AutoRenewLength(lines, rules[..|rules| - 1]);
    }
  }

  /** A category whose title is not a line of the bill is skipped. */
  lemma {:induction false} AbsentCategorySkipped(lines: seq<string>, category: string, items: seq<RenewalItem>)
    requires forall j :: 0 <= j < |lines| ==> lines[j] != category
    ensures RenewCategory(lines, category, items) == lines
  {
  }

  /** The auto-renewal loops, inserting into the lines vector. */
  method PerformAutoRenewal(lines: seq<string>, rules: RenewalRules) returns (out: seq<string>)
    ensures out == AutoRenew(lines, rules)
  {
    out := lines;
    var c := 0;
    while c < |rules|
      invariant 0 <= c <= |rules|
      invariant out == AutoRenew(lines, rules[..c])
    {
      AutoRenewStep(lines, rules, c);
      out := RenewCategoryLines(out, rules[c].0, rules[c].1);
      c := c + 1;
    }
    TakeAll(rules);
  }

  lemma {:induction false} AutoRenewStep(lines: seq<string>, rules: RenewalRules, c: nat)
    requires c < |rules|
    ensures AutoRenew(lines, rules[..c + 1]) == RenewCategory(AutoRenew(lines, rules[..c]), rules[c].0, rules[c].1)
  {
    TakeStep(rules, c);
  }

  lemma {:induction false} RenewItemsStep(lines: seq<string>, h: nat, items: seq<RenewalItem>, k: nat)
    requires h < |lines| && k < |items|
    ensures RenewItems(lines, h, items[..k + 1]) == RenewOne(RenewItems(lines, h, items[..k]), h, items[k])
  {
    TakeStep(items, k);
  }

  /** One category of the auto-renewal loops: find its header, then renew each item under it. */
  method RenewCategoryLines(lines: seq<string>, category: string, items: seq<RenewalItem>) returns (out: seq<string>)
    ensures out == RenewCategory(lines, category, items)
  {
    out := lines;
    var header := FindLine(lines, category);
    if header.Some? {
      var h := header.value;
      var k := 0;
      while k < |items|
        invariant 0 <= k <= |items|
        invariant out == RenewItems(lines, h, items[..k])
      {
        RenewItemsStep(lines, h, items, k);
        out := InsertRenewal(out, h, items[k]);
        k := k + 1;
      }
      TakeAll(items);
    }
  }

  // ------------------------------------------------------------ parsing

  /** The tree built so far and whether `current_sub_item` is set. */
  datatype Builder = Builder(structure: seq<ParentItem>, subOpen: bool)

  predicate Ready(b: Builder) {
    b.subOpen ==> b.structure != [] && Last(b.structure).subs != []
  }

  /** A title that is immediately followed by another title is a parent. */
  predicate IsParentAt(temp: seq<string>, i: nat)
    requires i < |temp|
  {
    IsTitle(temp[i]) && i + 1 < |temp| && IsTitle(temp[i + 1])
  }

  /** One iteration of the second loop of `_parse_into_structure`. */
  function BuildStep(b: Builder, temp: seq<string>, i: nat): (r: Builder)
    requires i < |temp| && Ready(b)
    ensures Ready(r)
  {
    var line := temp[i];
    if IsTitle(line) then
      if IsParentAt(temp, i) then Builder(AddParent(b.structure, line), false)
      else Builder(AddSub(b.structure, line), true)
    else if b.subOpen then Builder(AddContent(b.structure, line), true)
    else b
  }

  function BuildUpTo(temp: seq<string>, n: nat): (r: Builder)
    requires n <= |temp|
    ensures Ready(r)
    decreases n
  {
    if n == 0 then Builder([], false) else BuildStep(BuildUpTo(temp, n - 1), temp, n - 1)
  }

  function Build(temp: seq<string>): seq<ParentItem> {
    BuildUpTo(temp, |temp|).structure
  }

  /** The first title at or after `i`, or the end. */
  function FirstTitle(temp: seq<string>, i: nat): (r: nat)
    requires i <= |temp|
    decreases |temp| - i
    ensures i <= r <= |temp|
    ensures forall k :: i <= k < r ==> !IsTitle(temp[k])
    ensures r < |temp| ==> IsTitle(temp[r])
  {
    if i == |temp| || IsTitle(temp[i]) then i else FirstTitle(temp, i + 1)
  }

  /** The titles of the parents among the first `n` lines. */
  function ParentsIn(temp: seq<string>, n: nat): seq<string>
    requires n <= |temp|
    decreases n
  {
    if n == 0 then [] else ParentsIn(temp, n - 1) + (if IsParentAt(temp, n - 1) then [temp[n - 1]] else [])
  }

  /** Whether parsing must invent the default parent: the first title is a sub-item. */
  predicate NeedsDefault(temp: seq<string>) {
    var f := FirstTitle(temp, 0);
    f < |temp| && !IsParentAt(temp, f)
  }

  function DefaultPrefix(temp: seq<string>): seq<string> {
    if NeedsDefault(temp) then [DefaultParent] else []
  }

  /** What holds once the lines `temp[..n]` after the first title `f` are parsed, `d` being the default prefix. */
  predicate Grown(temp: seq<string>, f: nat, d: seq<string>, n: nat, b: Builder)
    requires f < n <= |temp|
  {
    && b.structure != []
    && Flatten(b.structure) == d + temp[f..n]
    && Titles(b.structure) == d + ParentsIn(temp, n)
    && (!b.subOpen ==> n < |temp| && IsTitle(temp[n]))
  }

  lemma {:induction false} ParentsBefore(temp: seq<string>, n: nat)
    requires n <= |temp|
    requires forall k :: 0 <= k < n ==> !IsTitle(temp[k])
    ensures ParentsIn(temp, n) == []
    decreases n
  {
    if n > 0 { ParentsBefore(temp, n - 1); }
  }

  lemma {:induction false} BuildBefore(temp: seq<string>, n: nat)
    requires n <= |temp|
    requires forall k :: 0 <= k < n ==> !IsTitle(temp[k])
    ensures BuildUpTo(temp, n) == Builder([], false)
    decreases n
  {
    if n > 0 { BuildBefore(temp, n - 1); }
  }

  /** The first title: a parent, or a sub-item under the default parent. */
  lemma {:induction false} FirstTitleStep(temp: seq<string>, f: nat, d: seq<string>, b: Builder)
    requires f < |temp| && IsTitle(temp[f]) && ParentsIn(temp, f) == []
    requires d == if IsParentAt(temp, f) then [] else [DefaultParent]
    requires b == BuildStep(Builder([], false), temp, f)
    ensures Grown(temp, f, d, f + 1, b)
  {
    if IsParentAt(temp, f) {
      FirstParentStep(temp, f, b);
    } else {
      FirstSubStep(temp, f, b);
    }
  }

  lemma {:induction false} FirstParentStep(temp: seq<string>, f: nat, b: Builder)
    requires f < |temp| && IsParentAt(temp, f) && ParentsIn(temp, f) == []
    requires b == BuildStep(Builder([], false), temp, f)
    ensures Grown(temp, f, [], f + 1, b)
  {
    var line := temp[f];
    assert temp[f..f + 1] == [line];
    assert b == Builder([ParentItem(line, [])], false);
    FlattenAddParent([], line);
    TitlesSnoc([], ParentItem(line, []));
    assert ParentsIn(temp, f + 1) == [line];
  }

  lemma {:induction false} FirstSubStep(temp: seq<string>, f: nat, b: Builder)
    requires f < |temp| && IsTitle(temp[f]) && !IsParentAt(temp, f) && ParentsIn(temp, f) == []
    requires b == BuildStep(Builder([], false), temp, f)
    ensures Grown(temp, f, [DefaultParent], f + 1, b)
  {
    var line := temp[f];
    assert temp[f..f + 1] == [line];
    var p := ParentItem(DefaultParent, [SubItem(line, [])]);
    assert b == Builder([p], true);
    FlattenAddSub([], line);
    assert [p] == [] + [p];
    TitlesSnoc([], p);
    assert ParentsIn(temp, f + 1) == [];
  }

  lemma {:induction false} ParentStep(temp: seq<string>, f: nat, d: seq<string>, n: nat, b: Builder)
    requires f < n < |temp| && Ready(b) && Grown(temp, f, d, n, b)
    requires IsParentAt(temp, n)
    ensures Grown(temp, f, d, n + 1, BuildStep(b, temp, n))
  {
    var line := temp[n];
    var ps := AddParent(b.structure, line);
    assert BuildStep(b, temp, n) == Builder(ps, false);
    assert temp[f..n + 1] == temp[f..n] + [line];
    FlattenAddParent(b.structure, line);
    TitlesSnoc(b.structure, ParentItem(line, []));
    assert ParentsIn(temp, n + 1) == ParentsIn(temp, n) + [line];
  }

  lemma {:induction false} SubStep(temp: seq<string>, f: nat, d: seq<string>, n: nat, b: Builder)
    requires f < n < |temp| && Ready(b) && Grown(temp, f, d, n, b)
    requires IsTitle(temp[n]) && !IsParentAt(temp, n)
    ensures Grown(temp, f, d, n + 1, BuildStep(b, temp, n))
  {
    var line := temp[n];
    var ps := AddSub(b.structure, line);
    assert BuildStep(b, temp, n) == Builder(ps, true);
    assert temp[f..n + 1] == temp[f..n] + [line];
    FlattenAddSub(b.structure, line);
    TitlesAddSub(b.structure, line);
    assert ParentsIn(temp, n + 1) == ParentsIn(temp, n) + [];
  }

  lemma {:induction false} ContentStep(temp: seq<string>, f: nat, d: seq<string>, n: nat, b: Builder)
    requires f < n < |temp| && Ready(b) && Grown(temp, f, d, n, b)
    requires !IsTitle(temp[n])
    ensures Grown(temp, f, d, n + 1, BuildStep(b, temp, n))
  {
    var line := temp[n];
    assert b.subOpen;
    var ps := AddContent(b.structure, line);
    assert BuildStep(b, temp, n) == Builder(ps, true);
    assert temp[f..n + 1] == temp[f..n] + [line];
    FlattenAddContent(b.structure, line);
    TitlesAddContent(b.structure, line);
    assert ParentsIn(temp, n + 1) == ParentsIn(temp, n) + [];
  }

  lemma {:induction false} BuildOne(temp: seq<string>, n: nat)
    requires 0 < n <= |temp|
    ensures BuildUpTo(temp, n) == BuildStep(BuildUpTo(temp, n - 1), temp, n - 1)
  {
  }

  lemma {:induction false} BuildAfter(temp: seq<string>, f: nat, d: seq<string>, n: nat)
    requires f < n <= |temp| && IsTitle(temp[f]) && ParentsIn(temp, f) == []
    requires BuildUpTo(temp, f) == Builder([], false)
    requires d == if IsParentAt(temp, f) then [] else [DefaultParent]
    ensures Grown(temp, f, d, n, BuildUpTo(temp, n))
  {
    var k := f + 1;
    BuildFirst(temp, f, d, k);
    while k < n
      invariant f < k <= n
      invariant Grown(temp, f, d, k, BuildUpTo(temp, k))
    {
      k := k + 1;
      BuildNext(temp, f, d, k);
    }
  }

  lemma {:induction false} BuildNext(temp: seq<string>, f: nat, d: seq<string>, n: nat)
    requires f + 1 < n <= |temp| && Grown(temp, f, d, n - 1, BuildUpTo(temp, n - 1))
    ensures Grown(temp, f, d, n, BuildUpTo(temp, n))
  {
    BuildOne(temp, n);
    StepGrown(temp, f, d, n - 1, BuildUpTo(temp, n - 1), BuildUpTo(temp, n));
  }

  lemma {:induction false} BuildFirst(temp: seq<string>, f: nat, d: seq<string>, n: nat)
    requires n == f + 1 && n <= |temp| && IsTitle(temp[f]) && ParentsIn(temp, f) == []
    requires BuildUpTo(temp, f) == Builder([], false)
    requires d == if IsParentAt(temp, f) then [] else [DefaultParent]
    ensures Grown(temp, f, d, n, BuildUpTo(temp, n))
  {
    BuildOne(temp, n);
    FirstTitleStep(temp, f, d, BuildUpTo(temp, n));
  }

  /** Every later line keeps what `Grown` says. */
  lemma {:induction false} StepGrown(temp: seq<string>, f: nat, d: seq<string>, n: nat, b: Builder, b': Builder)
    requires f < n < |temp| && Ready(b) && Grown(temp, f, d, n, b)
    requires b' == BuildStep(b, temp, n)
    ensures Grown(temp, f, d, n + 1, b')
  {
    if !IsTitle(temp[n]) {
      ContentStep(temp, f, d, n, b);
    } else if IsParentAt(temp, n) {
      ParentStep(temp, f, d, n, b);
    } else {
      SubStep(temp, f, d, n, b);
    }
  }

  /**
   * The tree holds every line from the first title on, in order, behind
   * the default parent when the first title is a sub-item; so exactly the
   * content lines in front of the first title are dropped. Its parents
   * are the titles directly followed by another title, in order.
   */
  lemma {:induction false} BuildSpec(temp: seq<string>)
    ensures var f := FirstTitle(temp, 0);
      && Flatten(Build(temp)) == DefaultPrefix(temp) + temp[f..]
      && Titles(Build(temp)) == DefaultPrefix(temp) + ParentsIn(temp, |temp|)
  {
    var f := FirstTitle(temp, 0);
    var d := DefaultPrefix(temp);
    BuildBefore(temp, f);
    ParentsBefore(temp, f);
    if f < |temp| {
      BuildAfter(temp, f, d, |temp|);
      GrownAll(temp, f, d, BuildUpTo(temp, |temp|));
    } else {
      NoTitleBuild(temp);
    }
  }

  lemma {:induction false} GrownAll(temp: seq<string>, f: nat, d: seq<string>, g: Builder)
    requires f < |temp| && Grown(temp, f, d, |temp|, g)
    ensures Flatten(g.structure) == d + temp[f..]
    ensures Titles(g.structure) == d + ParentsIn(temp, |temp|)
  {
    assert temp[f..|temp|] == temp[f..];
  }

  lemma {:induction false} NoTitleBuild(temp: seq<string>)
    requires FirstTitle(temp, 0) == |temp|
    requires BuildUpTo(temp, |temp|) == Builder([], false) && ParentsIn(temp, |temp|) == []
    ensures Flatten(Build(temp)) == [] && DefaultPrefix(temp) == [] && temp[|temp|..] == []
    ensures Titles(Build(temp)) == []
  {
  }

  lemma {:induction false} MetaBodyStep(lines: seq<string>, i: nat, preserve: bool)
    requires i < |lines|
    ensures var l := lines[i];
      && MetaOf(lines[..i + 1], preserve) == MetaOf(lines[..i], preserve) + (if preserve && IsMetadataLine(l) then [l] else [])
      && BodyOf(lines[..i + 1], preserve) == BodyOf(lines[..i], preserve)
           + (if preserve && IsMetadataLine(l) then [] else if Trim(l) == "" then [] else [Trim(l)])
  {
    TakeStep(lines, i);
    assert Last(lines[..i + 1]) == lines[i];
  }

  /** `_parse_into_structure`: the tree of the body lines and the metadata lines set aside. */
  method ParseIntoStructure(lines: seq<string>, preserve: bool) returns (structure: seq<ParentItem>, metadata: seq<string>)
    ensures metadata == MetaOf(lines, preserve)
    ensures structure == Build(BodyOf(lines, preserve))
  {
    metadata := [];
    var temp: seq<string> := [];
    var i := 0;
    while i < |lines|
      invariant 0 <= i <= |lines|
      invariant metadata == MetaOf(lines[..i], preserve)
      invariant temp == BodyOf(lines[..i], preserve)
    {
      var line := lines[i];
      MetaBodyStep(lines, i, preserve);
      if preserve && IsMetadataLine(line) {
        metadata := metadata + [line];
      } else {
        var t := Trim(line);
        if t != "" {
          temp := temp + [t];
        }
      }
      i := i + 1;
    }
    TakeAll(lines);
    structure := BuildStructure(temp);
  }

  /** The second loop of `_parse_into_structure`: titles open parents or sub-items, other lines are content. */
  method BuildStructure(temp: seq<string>) returns (structure: seq<ParentItem>)
    ensures structure == Build(temp)
  {
    structure := [];
    var subOpen := false;
    var i := 0;
    while i < |temp|
      invariant 0 <= i <= |temp|
      invariant Builder(structure, subOpen) == BuildUpTo(temp, i)
    {
      ghost var b := Builder(structure, subOpen);
      var line := temp[i];
      if IsTitle(line) {
        var isParent := false;
        if i + 1 < |temp| {
          if IsTitle(temp[i + 1]) {
            isParent := true;
          }
        }
        if isParent {
          structure := AddParent(structure, line);
          subOpen := false;
        } else {
          structure := AddSub(structure, line);
          subOpen := true;
        }
      } else if subOpen {
        structure := AddContent(structure, line);
      }
      assert Builder(structure, subOpen) == BuildStep(b, temp, i);
      i := i + 1;
    }
  }

  // ------------------------------------------------------------ cleanup

  function CleanSubs(subs: seq<SubItem>): seq<SubItem>
    decreases |subs|
  {
    if subs == [] then []
    else CleanSubs(subs[..|subs| - 1]) + (if Last(subs).contents == [] then [] else [Last(subs)])
  }

  /** `_cleanup_bill_structure`: sub-items without content go, then parents without sub-items. */
  function Cleanup(ps: seq<ParentItem>): seq<ParentItem>
    decreases |ps|
  {
    if ps == [] then []
    else
      var subs := CleanSubs(Last(ps).subs);
      Cleanup(ps[..|ps| - 1]) + (if subs == [] then [] else [Last(ps).(subs := subs)])
  }

  predicate SubsFilled(subs: seq<SubItem>) {
    forall j :: 0 <= j < |subs| ==> subs[j].contents != []
  }

  /** No parent without sub-items and no sub-item without content. */
  predicate Tidy(ps: seq<ParentItem>) {
    forall i :: 0 <= i < |ps| ==> ps[i].subs != [] && SubsFilled(ps[i].subs)
  }

  lemma {:induction false} CleanSubsSpec(subs: seq<SubItem>)
    ensures SubsFilled(CleanSubs(subs))
    ensures SubContents(CleanSubs(subs)) == SubContents(subs)
    ensures SubsFilled(subs) ==> CleanSubs(subs) == subs
  {
    CleanSubsFilled(subs);
    CleanSubsContents(subs);
    if SubsFilled(subs) {
      CleanSubsKeeps(subs);
    }
  }

  lemma {:induction false} CleanSubsFilled(subs: seq<SubItem>)
    ensures SubsFilled(CleanSubs(subs))
    decreases |subs|
  {
    if subs != [] {
      var front := subs[..|subs| - 1];
      CleanSubsFilled(front);
      var c := CleanSubs(front);
      if Last(subs).contents != [] {
        forall j | 0 <= j < |c| + 1 ensures (c + [Last(subs)])[j].contents != [] {
          if j < |c| { assert (c + [Last(subs)])[j] == c[j]; }
        }
      }
    }
  }

  lemma {:induction false} CleanSubsContents(subs: seq<SubItem>)
    ensures SubContents(CleanSubs(subs)) == SubContents(subs)
    decreases |subs|
  {
    if subs != [] {
      var front := subs[..|subs| - 1];
      CleanSubsContents(front);
      var s := Last(subs);
      var c := CleanSubs(front);
      if s.contents == [] {
        assert c + [] == c;
      } else {
        SubContentsSnoc(c, s);
      }
    }
  }

  lemma {:induction false} SubContentsSnoc(c: seq<SubItem>, s: SubItem)
    ensures SubContents(c + [s]) == SubContents(c) + s.contents
  {
    assert (c + [s])[..|c|] == c;
  }

  lemma {:induction false} CleanSubsKeeps(subs: seq<SubItem>)
    requires SubsFilled(subs)
    ensures CleanSubs(subs) == subs
    decreases |subs|
  {
    if subs != [] {
      var front := subs[..|subs| - 1];
      assert SubsFilled(front) by {
        forall j | 0 <= j < |front| ensures front[j].contents != [] { assert front[j] == subs[j]; }
      }
      CleanSubsKeeps(front);
      SnocSelf(subs);
    }
  }

  /** After cleanup the tree is tidy. */
  lemma {:induction false} CleanupTidy(ps: seq<ParentItem>)
    ensures Tidy(Cleanup(ps))
    decreases |ps|
  {
    if ps != [] {
      CleanupTidy(ps[..|ps| - 1]);
      CleanSubsSpec(Last(ps).subs);
    }
  }

  /** Cleanup keeps every content line, in order. */
  lemma {:induction false} CleanupKeepsContents(ps: seq<ParentItem>)
    ensures AllContents(Cleanup(ps)) == AllContents(ps)
    decreases |ps|
  {
    if ps != [] {
      var front := ps[..|ps| - 1];
      var p := Last(ps);
      var subs := CleanSubs(p.subs);
      CleanupKeepsContents(front);
      CleanSubsSpec(p.subs);
      var c := Cleanup(front);
      assert AllContents(ps) == AllContents(front) + SubContents(p.subs);
      if subs == [] {
        assert Cleanup(ps) == c + [];
        assert c + [] == c;
        assert SubContents(p.subs) == [];
        assert AllContents(front) + [] == AllContents(front);
      } else {
        var q := p.(subs := subs);
        assert Cleanup(ps) == c + [q];
        AllContentsSnoc(c, q);
      }
    }
  }

  lemma {:induction false} AllContentsSnoc(ps: seq<ParentItem>, p: ParentItem)
    ensures AllContents(ps + [p]) == AllContents(ps) + SubContents(p.subs)
  {
    assert (ps + [p])[..|ps|] == ps;
  }

  /** Cleanup treats the parents one at a time, so the survivors keep their order. */
  lemma {:induction false} CleanupConcat(a: seq<ParentItem>, b: seq<ParentItem>)
    ensures Cleanup(a + b) == Cleanup(a) + Cleanup(b)
    decreases |b|
  {
    if b != [] {
      var front := b[..|b| - 1];
      assert (a + b)[..|a + b| - 1] == a + front;
      assert Last(a + b) == Last(b);
      CleanupConcat(a, front);
    } else {
      assert a + b == a;
    }
  }

  /** A tidy tree is left as it is; so cleanup is idempotent. */
  lemma {:induction false} CleanupOfTidy(ps: seq<ParentItem>)
    requires Tidy(ps)
    ensures Cleanup(ps) == ps
    decreases |ps|
  {
    if ps != [] {
      var front := ps[..|ps| - 1];
      assert Tidy(front) by {
        forall i | 0 <= i < |front| ensures front[i].subs != [] && SubsFilled(front[i].subs) {
          assert front[i] == ps[i];
        }
      }
      CleanupOfTidy(front);
      var p := ps[|ps| - 1];
      assert p.subs != [] && SubsFilled(p.subs);
      CleanSubsSpec(p.subs);
      FrontLast(ps);
      CleanupSnoc(front, p);
    }
  }

  lemma {:induction false} CleanupSnoc(front: seq<ParentItem>, p: ParentItem)
    ensures var subs := CleanSubs(p.subs);
      Cleanup(front + [p]) == Cleanup(front) + (if subs == [] then [] else [p.(subs := subs)])
  {
    assert (front + [p])[..|front|] == front;
  }

  lemma {:induction false} CleanupIdempotent(ps: seq<ParentItem>)
    ensures Cleanup(Cleanup(ps)) == Cleanup(ps)
  {
    CleanupTidy(ps);
    CleanupOfTidy(Cleanup(ps));
  }

  /** The sort pass, with the comparison on amounts given as the function that reorders one sub-item. */
  function SortAll(ps: seq<ParentItem>, sortContents: seq<string> -> seq<string>): seq<ParentItem>
    decreases |ps|
  {
    if ps == [] then []
    else SortAll(ps[..|ps| - 1], sortContents) + [Last(ps).(subs := SortSubs(Last(ps).subs, sortContents))]
  }

  function SortSubs(subs: seq<SubItem>, sortContents: seq<string> -> seq<string>): seq<SubItem>
    decreases |subs|
  {
    if subs == [] then []
    else SortSubs(subs[..|subs| - 1], sortContents) + [Last(subs).(contents := sortContents(Last(subs).contents))]
  }

  // ---------------------------------------------------------- rendering

  /** `n` newlines; nothing when `n` is zero or negative, as the `for` loops write. */
  function Newlines(n: int): (r: string)
    decreases n
    ensures |r| == if n <= 0 then 0 else n
  {
    if n <= 0 then "" else Newlines(n - 1) + "\n"
  }

  function ContentsText(cs: seq<string>): string
    decreases |cs|
  {
    if cs == [] then "" else ContentsText(cs[..|cs| - 1]) + "\n" + Last(cs)
  }

  function SubText(s: SubItem): string {
    s.title + ContentsText(s.contents)
  }

  function SubsText(subs: seq<SubItem>, between: int): string
    decreases |subs|
  {
    if subs == [] then ""
    else SubsText(subs[..|subs| - 1], between) + (if |subs| > 1 then Newlines(between) else "") + SubText(Last(subs))
  }

  function ParentText(p: ParentItem, fmt: Formatting): string {
    p.title + Newlines(fmt.afterParentTitle) + SubsText(p.subs, fmt.betweenSubItems)
  }

  function BodyText(ps: seq<ParentItem>, fmt: Formatting): string
    decreases |ps|
  {
    if ps == [] then ""
    else BodyText(ps[..|ps| - 1], fmt) + (if |ps| > 1 then Newlines(fmt.afterParentSection) else "") + ParentText(Last(ps), fmt)
  }

  /** `_reconstruct_content_with_formatting`. */
  function Render(ps: seq<ParentItem>, meta: seq<string>, fmt: Formatting): string {
    JoinLines(meta) + (if meta != [] && ps != [] then "\n" else "") + BodyText(ps, fmt)
  }

  lemma {:induction false} ContentsAsLines(title: string, cs: seq<string>)
    ensures title + ContentsText(cs) == Intercalate([title] + cs)
    decreases |cs|
  {
    if cs != [] {
      var front := cs[..|cs| - 1];
      ContentsAsLines(title, front);
      assert ([title] + cs)[..|[title] + cs| - 1] == [title] + front;
    }
  }

  lemma {:induction false} FlattenSubsNonEmpty(subs: seq<SubItem>)
    requires subs != []
    ensures FlattenSubs(subs) != []
  {
    assert |FlattenSubs(subs)| >= 1;
  }

  lemma {:induction false} SubsAsLines(subs: seq<SubItem>)
    requires subs != []
    ensures SubsText(subs, 1) == Intercalate(FlattenSubs(subs))
    decreases |subs|
  {
    var front := subs[..|subs| - 1];
    var s := Last(subs);
    ContentsAsLines(s.title, s.contents);
    if front == [] {
      assert FlattenSubs(subs) == [] + [s.title] + s.contents;
      assert [] + [s.title] + s.contents == [s.title] + s.contents;
    } else {
      SubsAsLines(front);
      FlattenSubsNonEmpty(front);
      assert FlattenSubs(subs) == FlattenSubs(front) + ([s.title] + s.contents);
      IntercalateConcat(FlattenSubs(front), [s.title] + s.contents);
      assert Newlines(1) == "\n";
    }
  }

  lemma {:induction false} ParentAsLines(p: ParentItem)
    requires p.subs != []
    ensures ParentText(p, DefaultFormatting) == Intercalate([p.title] + FlattenSubs(p.subs))
  {
    SubsAsLines(p.subs);
    FlattenSubsNonEmpty(p.subs);
    IntercalateConcat([p.title], FlattenSubs(p.subs));
    assert Newlines(1) == "\n";
  }

  /** With the default counts, a tree whose parents all have sub-items renders as its lines, one per line. */
  lemma {:induction false} BodyAsLines(ps: seq<ParentItem>)
    requires forall i :: 0 <= i < |ps| ==> ps[i].subs != []
    ensures BodyText(ps, DefaultFormatting) == Intercalate(Flatten(ps))
    decreases |ps|
  {
    if ps != [] {
      var front := ps[..|ps| - 1];
      var p := Last(ps);
      var tail := [p.title] + FlattenSubs(p.subs);
      assert p == ps[|ps| - 1];
      ParentAsLines(p);
      assert Flatten(ps) == Flatten(front) + tail by {
        ConcatAssoc(Flatten(front), [p.title], FlattenSubs(p.subs));
      }
      if front == [] {
        assert Flatten(ps) == tail;
      } else {
        assert forall i :: 0 <= i < |front| ==> front[i].subs != [] by {
          forall i | 0 <= i < |front| ensures front[i].subs != [] { assert front[i] == ps[i]; }
        }
        BodyAsLines(front);
        assert BodyText(ps, DefaultFormatting) == BodyText(front, DefaultFormatting) + "\n" + ParentText(p, DefaultFormatting) by {
          assert Newlines(1) == "\n";
        }
        IntercalateConcat(Flatten(front), tail);
      }
    }
  }

  lemma {:induction false} FlattenEmpty(ps: seq<ParentItem>)
    ensures Flatten(ps) == [] <==> ps == []
  {
  }

  /** The blank line written between the metadata and the body when there is metadata. */
  function Separator(meta: seq<string>): seq<string> {
    if meta != [] then [""] else []
  }

  /** With the default counts and parents that all have sub-items, the output is newline-joined lines. */
  lemma {:induction false} RenderAsLines(ps: seq<ParentItem>, meta: seq<string>)
    requires ps != []
    requires forall i :: 0 <= i < |ps| ==> ps[i].subs != []
    ensures var f := Flatten(ps); var sep := Separator(meta);
      f != [] && Render(ps, meta, DefaultFormatting) == JoinLines(meta + sep + f[..|f| - 1]) + f[|f| - 1]
  {
    var f := Flatten(ps);
    var sep := Separator(meta);
    var gap := if meta != [] then "\n" else "";
    FlattenEmpty(ps);
    var front := f[..|f| - 1];
    var x := f[|f| - 1];
    assert BodyText(ps, DefaultFormatting) == JoinLines(front) + x by {
      BodyAsLines(ps);
      IntercalateAsJoin(f);
    }
    assert JoinLines(meta + sep) == JoinLines(meta) + gap by {
      JoinLinesConcat(meta, sep);
      assert JoinLines([""]) == "\n";
    }
    assert JoinLines(meta + sep + front) == JoinLines(meta) + gap + JoinLines(front) by {
      JoinLinesConcat(meta + sep, front);
    }
    assert Render(ps, meta, DefaultFormatting) == JoinLines(meta) + gap + (JoinLines(front) + x);
    ConcatAssoc(JoinLines(meta) + gap, JoinLines(front), x);
  }

  /**
   * With the default counts, splitting the rendered bill gives back the
   * metadata lines, one blank separator line when there are both
   * metadata and parents, and the tree's lines in document order.
   */
  lemma {:induction false} RenderRoundTrip(ps: seq<ParentItem>, meta: seq<string>)
    requires forall i :: 0 <= i < |ps| ==> ps[i].subs != []
    requires AllNoNewline(meta)
    requires AllNoNewline(Flatten(ps)) && NoEmptyLine(Flatten(ps))
    ensures SplitLines(Render(ps, meta, DefaultFormatting)) ==
      meta + (if meta != [] && ps != [] then [""] else []) + Flatten(ps)
  {
    FlattenEmpty(ps);
    if ps == [] {
      RenderNoParents(meta);
    } else {
      RenderSomeParents(ps, meta);
      assert Separator(meta) == if meta != [] && ps != [] then [""] else [];
    }
  }

  predicate NoEmptyLine(ls: seq<string>) {
    forall i :: 0 <= i < |ls| ==> ls[i] != ""
  }

  lemma {:induction false} RenderNoParents(meta: seq<string>)
    requires AllNoNewline(meta)
    ensures SplitLines(Render([], meta, DefaultFormatting)) == meta
  {
    SplitJoin(meta, "");
    assert Render([], meta, DefaultFormatting) == JoinLines(meta) + "";
    assert meta + [] == meta;
  }

  lemma {:induction false} RenderSomeParents(ps: seq<ParentItem>, meta: seq<string>)
    requires ps != []
    requires forall i :: 0 <= i < |ps| ==> ps[i].subs != []
    requires AllNoNewline(meta)
    requires AllNoNewline(Flatten(ps)) && NoEmptyLine(Flatten(ps))
    ensures SplitLines(Render(ps, meta, DefaultFormatting)) ==
      meta + Separator(meta) + Flatten(ps)
  {
    FlattenEmpty(ps);
    RenderAsLines(ps, meta);
    SplitHeadAndBody(meta, Flatten(ps));
  }

  /** The metadata, its separator and a non-empty body, joined and split again. */
  lemma {:induction false} SplitHeadAndBody(meta: seq<string>, f: seq<string>)
    requires AllNoNewline(meta) && AllNoNewline(f) && NoEmptyLine(f) && f != []
    ensures SplitLines(JoinLines(meta + Separator(meta) + f[..|f| - 1]) + f[|f| - 1]) == meta + Separator(meta) + f
  {
    HeadNoNewline(meta);
    assert f[|f| - 1] != "";
    SplitLastLine(meta + Separator(meta), f);
  }

  /** The metadata and its separator contain no line terminator. */
  lemma {:induction false} HeadNoNewline(meta: seq<string>)
    requires AllNoNewline(meta)
    ensures AllNoNewline(meta + Separator(meta))
  {
    var sep := Separator(meta);
    assert AllNoNewline(sep) by {
      if meta != [] { assert sep == [""]; assert NoNewline(sep[0]); }
    }
    AllNoNewlineConcat(meta, sep);
  }

  /**
   * Newline-joined lines followed by a last line that is not empty and has
   * no terminator split back into the same lines.
   */
  lemma {:induction false} SplitLastLine(head: seq<string>, f: seq<string>)
    requires AllNoNewline(head) && AllNoNewline(f)
    requires f != [] && f[|f| - 1] != ""
    ensures SplitLines(JoinLines(head + f[..|f| - 1]) + f[|f| - 1]) == head + f
  {
    var lines := head + f[..|f| - 1];
    var x := f[|f| - 1];
    AllNoNewlineSlice(f, |f| - 1);
    AllNoNewlineConcat(head, f[..|f| - 1]);
    SplitJoin(lines, x);
    NoNewlineNotFound(x);
    FrontLast(f);
    ConcatAssoc(head, f[..|f| - 1], [x]);
  }

  lemma {:induction false} BodyStartsWithTitle(ps: seq<ParentItem>, fmt: Formatting)
    requires ps != []
    ensures StartsWith(BodyText(ps, fmt), ps[0].title)
    decreases |ps|
  {
    var front := ps[..|ps| - 1];
    if front != [] {
      BodyStartsWithTitle(front, fmt);
      assert front[0] == ps[0];
      var b := BodyText(front, fmt);
      assert BodyText(ps, fmt)[..|ps[0].title|] == b[..|ps[0].title|];
    }
  }

  /**
   * Whatever the counts, the preserved metadata comes first; a blank
   * separator line follows it only when there is a body; with no parents
   * the output is the metadata alone.
   */
  lemma {:induction false} RenderMetadataFirst(ps: seq<ParentItem>, meta: seq<string>, fmt: Formatting)
    ensures ps == [] ==> Render(ps, meta, fmt) == JoinLines(meta)
    ensures meta != [] && ps != [] ==> StartsWith(Render(ps, meta, fmt), JoinLines(meta) + "\n" + ps[0].title)
    ensures meta == [] ==> Render(ps, meta, fmt) == BodyText(ps, fmt)
  {
    if meta != [] && ps != [] {
      BodyStartsWithTitle(ps, fmt);
      var j := JoinLines(meta) + "\n";
      var b := BodyText(ps, fmt);
      assert (j + b)[..|j| + |ps[0].title|] == j + b[..|ps[0].title|];
    }
  }

  method AppendNewlines(s: string, n: int) returns (r: string)
    ensures r == s + Newlines(n)
  {
    r := s;
    var i := 0;
    while i < n
      invariant 0 <= i
      invariant n > 0 ==> i <= n
      invariant n <= 0 ==> i == 0
      invariant r == s + Newlines(i)
    {
      r := r + "\n";
      i := i + 1;
    }
  }

  method AppendSubItems(s: string, subs: seq<SubItem>, between: int) returns (r: string)
    ensures r == s + SubsText(subs, between)
  {
    r := s;
    var first := true;
    var j := 0;
    while j < |subs|
      invariant 0 <= j <= |subs|
      invariant first <==> j == 0
      invariant r == s + SubsText(subs[..j], between)
    {
      SubsTextStep(subs, j, between);
      ghost var prev := r;
      ghost var gap := if j > 0 then Newlines(between) else "";
      if !first {
        r := AppendNewlines(r, between);
      }
      r := AppendContents(r + subs[j].title, subs[j].contents);
      first := false;
      ConcatAssoc(prev + gap, subs[j].title, ContentsText(subs[j].contents));
      ConcatAssoc(prev, gap, SubText(subs[j]));
      ConcatAssoc(s, SubsText(subs[..j], between), gap + SubText(subs[j]));
      ConcatAssoc(SubsText(subs[..j], between), gap, SubText(subs[j]));
      j := j + 1;
    }
    TakeAll(subs);
  }

  lemma {:induction false} SubsTextStep(subs: seq<SubItem>, j: nat, between: int)
    requires j < |subs|
    ensures SubsText(subs[..j + 1], between) ==
      SubsText(subs[..j], between) + (if j > 0 then Newlines(between) else "") + SubText(subs[j])
  {
    TakeStep(subs, j);
  }

  /** The content loop of one sub-item: each content line on a line of its own. */
  method AppendContents(s: string, cs: seq<string>) returns (r: string)
    ensures r == s + ContentsText(cs)
  {
    r := s;
    var k := 0;
    while k < |cs|
      invariant 0 <= k <= |cs|
      invariant r == s + ContentsText(cs[..k])
    {
      TakeStep(cs, k);
      ConcatAssoc(s, ContentsText(cs[..k]), "\n" + cs[k]);
      r := r + "\n" + cs[k];
      k := k + 1;
    }
    TakeAll(cs);
  }

  /** The stream-building loops of `_reconstruct_content_with_formatting`. */
  method Reconstruct(ps: seq<ParentItem>, meta: seq<string>, fmt: Formatting) returns (out: string)
    ensures out == Render(ps, meta, fmt)
  {
    out := "";
    var i := 0;
    while i < |meta|
      invariant 0 <= i <= |meta|
      invariant out == JoinLines(meta[..i])
    {
      assert meta[..i + 1] == meta[..i] + [meta[i]];
      JoinLinesSnoc(meta[..i], meta[i]);
      out := out + meta[i] + "\n";
      i := i + 1;
    }
    TakeAll(meta);
    if meta != [] && ps != [] {
      out := out + "\n";
    }
    var head := out;
    var first := true;
    var j := 0;
    assert ps[..0] == [];
    while j < |ps|
      invariant 0 <= j <= |ps|
      invariant first <==> j == 0
      invariant out == head + BodyText(ps[..j], fmt)
    {
      BodyTextStep(ps, j, fmt);
      ghost var body := BodyText(ps[..j], fmt);
      ghost var gap := if j > 0 then Newlines(fmt.afterParentSection) else "";
      ghost var prev := out;
      out := AppendParent(out, ps[j], fmt, first);
      ConcatAssoc(head, body, gap + ParentText(ps[j], fmt));
      ConcatAssoc(prev, gap, ParentText(ps[j], fmt));
      ConcatAssoc(body, gap, ParentText(ps[j], fmt));
      first := false;
      j := j + 1;
    }
    TakeAll(ps);
  }

  /** One parent of the reconstruct loop: the section gap unless it is the first, its title, the title gap, its sub-items. */
  method AppendParent(s: string, p: ParentItem, fmt: Formatting, first: bool) returns (r: string)
    ensures r == s + (if first then "" else Newlines(fmt.afterParentSection)) + ParentText(p, fmt)
  {
    r := s;
    if !first {
      r := AppendNewlines(r, fmt.afterParentSection);
    }
    ghost var gap := r;
    ghost var nl := Newlines(fmt.afterParentTitle);
    r := r + p.title;
    r := AppendNewlines(r, fmt.afterParentTitle);
    ConcatAssoc(gap, p.title, nl);
    r := AppendSubItems(r, p.subs, fmt.betweenSubItems);
    ConcatAssoc(gap, p.title + nl, SubsText(p.subs, fmt.betweenSubItems));
  }

  lemma {:induction false} BodyTextStep(ps: seq<ParentItem>, j: nat, fmt: Formatting)
    requires j < |ps|
    ensures BodyText(ps[..j + 1], fmt) ==
      BodyText(ps[..j], fmt) + (if j > 0 then Newlines(fmt.afterParentSection) else "") + ParentText(ps[j], fmt)
  {
    TakeStep(ps, j);
  }

  // ----------------------------------------------------------- pipeline

  /**
   * `modify`: split, then the initial modifications, then parse, sort,
   * clean up and render. The summing of one line and the reordering of
   * one sub-item's contents (both on floating-point amounts) are given.
   */
  method Modify(config: ModifierConfig, content: string,
                sumLine: string -> string, sortContents: seq<string> -> seq<string>) returns (out: string)
    ensures var lines := SplitLines(content);
      var summed := if config.flags.summing then SumLines(lines, sumLine) else lines;
      var renewed := if config.flags.autoRenewal then AutoRenew(summed, config.renewals) else summed;
      var tree := Build(BodyOf(renewed, config.flags.preserveMetadata));
      var sorted := if config.flags.sorting then SortAll(tree, sortContents) else tree;
      var cleaned := if config.flags.cleanup then Cleanup(sorted) else sorted;
      out == Render(cleaned, MetaOf(renewed, config.flags.preserveMetadata), config.formatting)
  {
    var lines := SplitLines(content);
    if config.flags.summing {
      lines := SumLines(lines, sumLine);
    }
    if config.flags.autoRenewal {
      lines := PerformAutoRenewal(lines, config.renewals);
    }
    var structure, metadata := ParseIntoStructure(lines, config.flags.preserveMetadata);
    if config.flags.sorting {
      structure := SortAll(structure, sortContents);
    }
    if config.flags.cleanup {
      structure := Cleanup(structure);
    }
    out := Reconstruct(structure, metadata, config.formatting);
  }
}
