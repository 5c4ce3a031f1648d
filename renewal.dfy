/**
 * The line passes shared by the bill modifier and the bill processor: every
 * line is summed, then the auto-renewal step runs:
 * a category header is located by exact line match, its block runs up to
 * the next title or empty line, and a renewal line is inserted at the end
 * of the block unless some line of the block already mentions the item's
 * description. Both sources use the same title rule (`_is_title`: the
 * first non-space character is not a digit).
 */
module RenewalBlocks {
  import opened Strings

  /** The loop of `_is_title` from position `i`: the first non-space character decides. */
  function TitleFrom(line: string, i: nat): bool
    requires i <= |line|
    decreases |line| - i
  {
    if i == |line| then false
    else if !IsSpace(line[i]) then !IsDigit(line[i])
    else TitleFrom(line, i + 1)
  }

  /** `_is_title` of the modifier and the processor. */
  predicate IsTitle(line: string) {
    line != "" && TitleFrom(line, 0)
  }

  lemma {:induction false} TitleFromSpec(line: string, i: nat)
    requires i <= |line|
    ensures TitleFrom(line, i) <==>
      exists k :: i <= k < |line| && AllSpace(line[i..k]) && !IsSpace(line[k]) && !IsDigit(line[k])
    decreases |line| - i
  {
    if i == |line| {
    } else if !IsSpace(line[i]) {
      if TitleFrom(line, i) {
        assert AllSpace(line[i..i]);
      } else {
        forall k | i <= k < |line| && AllSpace(line[i..k]) && !IsSpace(line[k])
          ensures IsDigit(line[k])
        {
        }
      }
    } else {
      TitleFromSpec(line, i + 1);
      if TitleFrom(line, i) {
        var k :| i + 1 <= k < |line| && AllSpace(line[i + 1..k]) && !IsSpace(line[k]) && !IsDigit(line[k]);
        assert forall j :: 0 <= j < |line[i..k]| ==> line[i..k][j] == line[i + j];
        assert AllSpace(line[i..k]);
      } else {
        forall k | i <= k < |line| && AllSpace(line[i..k]) && !IsSpace(line[k])
          ensures IsDigit(line[k])
        {
          assert k != i;
          assert line[i..k] == [line[i]] + line[i + 1..k];
        }
      }
    }
  }

  /**
   * A line is a title exactly when it has a non-space character and the
   * first one is not a digit; so an empty or all-space line is not a title.
   */
  lemma {:induction false} IsTitleSpec(line: string)
    ensures IsTitle(line) <==>
      exists k :: 0 <= k < |line| && AllSpace(line[..k]) && !IsSpace(line[k]) && !IsDigit(line[k])
    ensures AllSpace(line) ==> !IsTitle(line)
  {
    TitleFromSpec(line, 0);
    assert line[0..] == line;
  }

  lemma {:induction false} DigitLineIsNoTitle(line: string)
    requires line != "" && IsDigit(line[0])
    ensures !IsTitle(line)
  {
  }

  /**
   * The summing pass that both tools run over every line before renewal:
   * each line is replaced by its summed form, in place. `sumLine` stands for
   * `_sum_up_line`, which works on floating-point amounts.
   */
  function SumLines(lines: seq<string>, sumLine: string -> string): (r: seq<string>)
    ensures |r| == |lines|
    ensures forall i :: 0 <= i < |lines| ==> r[i] == sumLine(lines[i])
  {
    seq(|lines|, i requires 0 <= i < |lines| => sumLine(lines[i]))
  }

  /** One configured renewal: the amount already formatted with two decimals, and the description. */
  datatype RenewalItem = RenewalItem(amountText: string, description: string)

  /** The inserted line: amount, a space, the description and the `(auto-renewal)` marker. */
  function RenewalLine(item: RenewalItem): string {
    item.amountText + " " + item.description + "(auto-renewal)"
  }

  function FindLineFrom(lines: seq<string>, x: string, i: nat): (r: Option<nat>)
    requires i <= |lines|
    decreases |lines| - i
    ensures r.Some? ==> i <= r.value < |lines| && lines[r.value] == x
    ensures r.Some? ==> forall j :: i <= j < r.value ==> lines[j] != x
    ensures r.None? ==> forall j :: i <= j < |lines| ==> lines[j] != x
  {
    if i == |lines| then None
    else if lines[i] == x then Some(i)
    else FindLineFrom(lines, x, i + 1)
  }

  /** `std::find` over the lines: the first line equal to `x`. */
  function FindLine(lines: seq<string>, x: string): (r: Option<nat>)
    ensures r.Some? ==> r.value < |lines| && lines[r.value] == x
    ensures r.Some? ==> forall j :: 0 <= j < r.value ==> lines[j] != x
    ensures r.None? <==> forall j :: 0 <= j < |lines| ==> lines[j] != x
  {
    FindLineFrom(lines, x, 0)
  }

  /** A title or an empty line closes a category block. */
  predicate ClosesBlock(line: string) {
    IsTitle(line) || line == ""
  }

  /** The first position at or after `start` that closes the block, or the end. */
  function BlockEnd(lines: seq<string>, start: nat): (r: nat)
    requires start <= |lines|
    decreases |lines| - start
    ensures start <= r <= |lines|
    ensures forall k :: start <= k < r ==> !ClosesBlock(lines[k])
    ensures r < |lines| ==> ClosesBlock(lines[r])
  {
    if start == |lines| || ClosesBlock(lines[start]) then start else BlockEnd(lines, start + 1)
  }

  lemma {:induction false} BlockEndUnique(lines: seq<string>, start: nat, e: nat)
    requires start <= e <= |lines|
    requires forall k :: start <= k < e ==> !ClosesBlock(lines[k])
    requires e < |lines| ==> ClosesBlock(lines[e])
    ensures BlockEnd(lines, start) == e
    decreases e - start
  {
    if start < e {
      BlockEndUnique(lines, start + 1, e);
    }
  }

  /** Some line in `lines[from..to]` contains `desc`. */
  predicate FoundIn(lines: seq<string>, from: nat, to: nat, desc: string)
    requires from <= to <= |lines|
  {
    exists k :: from <= k < to && Contains(lines[k], desc)
  }

  /** One renewal item applied to the block under the header at index `h`. */
  function RenewOne(lines: seq<string>, h: nat, item: RenewalItem): seq<string>
    requires h < |lines|
  {
    var e := BlockEnd(lines, h + 1);
    if FoundIn(lines, h + 1, e, item.description) then lines
    else lines[..e] + [RenewalLine(item)] + lines[e..]
  }

  /**
   * Nothing is inserted when the block already mentions the description;
   * otherwise exactly the renewal line is inserted at the end of the
   * block, after the header, and every other line keeps its place
   * relative to it.
   */
  lemma {:induction false} RenewOneSpec(lines: seq<string>, h: nat, item: RenewalItem)
    requires h < |lines|
    ensures var e := BlockEnd(lines, h + 1); var r := RenewOne(lines, h, item);
      && h < e
      && (FoundIn(lines, h + 1, e, item.description) ==> r == lines)
      && (!FoundIn(lines, h + 1, e, item.description) ==>
            && |r| == |lines| + 1
            && r[..e] == lines[..e]
            && r[e] == RenewalLine(item)
            && r[e + 1..] == lines[e..])
  {
    var e := BlockEnd(lines, h + 1);
    var r := RenewOne(lines, h, item);
    if !FoundIn(lines, h + 1, e, item.description) {
      assert r == lines[..e] + [RenewalLine(item)] + lines[e..];
      assert r[..e] == lines[..e];
      assert r[e + 1..] == lines[e..];
    }
  }

  /** A renewal never touches the header or anything before it, and adds at most one line. */
  lemma {:induction false} RenewOneKeepsPrefix(lines: seq<string>, h: nat, item: RenewalItem)
    requires h < |lines|
    ensures var r := RenewOne(lines, h, item);
      && r[..h + 1] == lines[..h + 1]
      && |lines| <= |r| <= |lines| + 1
  {
    RenewOneSpec(lines, h, item);
    var e := BlockEnd(lines, h + 1);
    var r := RenewOne(lines, h, item);
    if r != lines {
      assert r[..h + 1] == r[..e][..h + 1];
    }
  }

  /**
   * Renewing the same item again adds nothing: the inserted line is
   * content (its amount starts with a digit), so it stays inside the
   * block and mentions the description.
   */
  lemma {:induction false} RenewOneIdempotent(lines: seq<string>, h: nat, item: RenewalItem)
    requires h < |lines|
    requires item.amountText != "" && IsDigit(item.amountText[0])
    ensures RenewOne(RenewOne(lines, h, item), h, item) == RenewOne(lines, h, item)
  {
    var e := BlockEnd(lines, h + 1);
    var d := item.description;
    if !FoundIn(lines, h + 1, e, d) {
      RenewOneSpec(lines, h, item);
      var r := RenewOne(lines, h, item);
      var x := RenewalLine(item);
      assert x[0] == item.amountText[0];
      DigitLineIsNoTitle(x);
      assert !ClosesBlock(r[e]);
      forall k | h + 1 <= k < e + 1 ensures !ClosesBlock(r[k]) {
        if k < e { assert r[k] == r[..e][k] == lines[k]; }
      }
      if e + 1 < |r| {
        assert r[e + 1] == r[e + 1..][0] == lines[e];
      }
      BlockEndUnique(r, h + 1, e + 1);
      var at := |item.amountText| + 1;
      assert x[at..at + |d|] == d;
      assert OccursAt(x, d, at);
      assert Contains(r[e], d);
      assert FoundIn(r, h + 1, e + 1, d);
    }
  }

  /** `_apply_auto_renewal`'s inner scan and insertion, on the lines vector, for the header at `h`. */
  method InsertRenewal(lines: seq<string>, h: nat, item: RenewalItem) returns (out: seq<string>)
    requires h < |lines|
    ensures out == RenewOne(lines, h, item)
  {
    var e := h + 1;
    while e < |lines| && !IsTitle(lines[e]) && lines[e] != ""
      invariant h + 1 <= e <= |lines|
      invariant forall k :: h + 1 <= k < e ==> !ClosesBlock(lines[k])
    {
      e := e + 1;
    }
    BlockEndUnique(lines, h + 1, e);
    var found := false;
    var k := h + 1;
    while k < e
      invariant h + 1 <= k <= e
      invariant forall j :: h + 1 <= j < k ==> !Contains(lines[j], item.description)
    {
      if Find(lines[k], item.description).Some? {
        found := true;
        break;
      }
      k := k + 1;
    }
    if found {
      out := lines;
    } else {
      out := lines[..e] + [RenewalLine(item)] + lines[e..];
    }
  }
}
