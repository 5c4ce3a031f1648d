/**
 * The auto-renewal pass of the bill processor (`BillProcessor`). Each
 * configured rule names a header line, an amount and a description. The
 * first line equal to the header opens a block that runs to the next title
 * or empty line; unless a line of the block already mentions the
 * description, the renewal line is inserted at the end of the block.
 * Rules are applied one after the other to the same lines.
 */
module BillProcessing {
  import opened Strings
  import opened RenewalBlocks

  /** One rule of the auto-renewal configuration: where to insert, and what. */
  datatype Rule = Rule(headerLocation: string, item: RenewalItem)

  /** The `auto_renewal` part of the processor's configuration. */
  datatype AutoRenewalConfig = AutoRenewalConfig(enabled: bool, rules: seq<Rule>)

  /** One iteration of the rule loop. */
  function ApplyRule(lines: seq<string>, rule: Rule): seq<string> {
    match FindLine(lines, rule.headerLocation)
    case None => lines
    case Some(h) => RenewOne(lines, h, rule.item)
  }

  /** The rules applied in configuration order. */
  function ApplyRules(lines: seq<string>, rules: seq<Rule>): seq<string>
    decreases |rules|
  {
    if rules == [] then lines
    else ApplyRule(ApplyRules(lines, rules[..|rules| - 1]), rules[|rules| - 1])
  }

  /** `_apply_auto_renewal`: nothing happens when auto-renewal is disabled. */
  function AutoRenewal(config: AutoRenewalConfig, lines: seq<string>): seq<string> {
    if !config.enabled then lines else ApplyRules(lines, config.rules)
  }

  /**
   * A rule whose header is not a line of the bill changes nothing. Under
   * the first header line, the block is left alone when it mentions the
   * description; otherwise exactly the renewal line is inserted at the end
   * of the block, and the lines before and after it keep their order.
   */
  lemma {:induction false} ApplyRuleSpec(lines: seq<string>, rule: Rule)
    ensures (forall j :: 0 <= j < |lines| ==> lines[j] != rule.headerLocation) ==> ApplyRule(lines, rule) == lines
    ensures FindLine(lines, rule.headerLocation).Some? ==>
      var h := FindLine(lines, rule.headerLocation).value;
      var e := BlockEnd(lines, h + 1);
      var r := ApplyRule(lines, rule);
      && h < e
      && (FoundIn(lines, h + 1, e, rule.item.description) ==> r == lines)
      && (!FoundIn(lines, h + 1, e, rule.item.description) ==>
            r == lines[..e] + [RenewalLine(rule.item)] + lines[e..])
  {
    match FindLine(lines, rule.headerLocation)
    case None =>
    case Some(h) =>
      RenewOneSpec(lines, h, rule.item);
  }

  /** A rule never changes the lines up to and including its header, and adds at most one line. */
  lemma {:induction false} ApplyRuleBounds(lines: seq<string>, rule: Rule)
    ensures |lines| <= |ApplyRule(lines, rule)| <= |lines| + 1
    ensures FindLine(lines, rule.headerLocation).Some? ==>
      var h := FindLine(lines, rule.headerLocation).value;
      ApplyRule(lines, rule)[..h + 1] == lines[..h + 1]
  {
    match FindLine(lines, rule.headerLocation)
    case None =>
    case Some(h) =>
      RenewOneKeepsPrefix(lines, h, rule.item);
  }

  /** Each rule inserts at most one line, so the bill grows by at most the number of rules. */
  lemma {:induction false} ApplyRulesLength(lines: seq<string>, rules: seq<Rule>)
    ensures |lines| <= |ApplyRules(lines, rules)| <= |lines| + |rules|
    decreases |rules|
  {
    if rules != [] {
      ApplyRulesLength(lines, rules[..|rules| - 1]);
      ApplyRuleBounds(ApplyRules(lines, rules[..|rules| - 1]), rules[|rules| - 1]);
    }
  }

  /** Disabled auto-renewal leaves the lines alone; enabled, it adds at most one line per rule. */
  lemma {:induction false} AutoRenewalBounds(config: AutoRenewalConfig, lines: seq<string>)
    ensures !config.enabled ==> AutoRenewal(config, lines) == lines
    ensures |lines| <= |AutoRenewal(config, lines)| <= |lines| + (if config.enabled then |config.rules| else 0)
  {
    if config.enabled {
      ApplyRulesLength(lines, config.rules);
    }
  }

  /**
   * Applying a rule a second time inserts nothing more: the header is
   * still the first line equal to the header location, and the inserted
   * line, which starts with a digit of its amount, mentions the description
   * inside the same block.
   */
  lemma {:induction false} ApplyRuleIdempotent(lines: seq<string>, rule: Rule)
    requires rule.item.amountText != "" && IsDigit(rule.item.amountText[0])
    ensures ApplyRule(ApplyRule(lines, rule), rule) == ApplyRule(lines, rule)
  {
    var x := rule.headerLocation;
    match FindLine(lines, x)
    case None =>
    case Some(h) =>
      var r := RenewOne(lines, h, rule.item);
      RenewOneKeepsPrefix(lines, h, rule.item);
      assert r[h] == r[..h + 1][h] == lines[h];
      forall j | 0 <= j < h ensures r[j] != x {
        assert r[j] == r[..h + 1][j] == lines[j];
      }
      FindLineAt(r, x, h);
      RenewOneIdempotent(lines, h, rule.item);
  }

  /** A line equal to `x` with no earlier such line is what `FindLine` finds. */
  lemma {:induction false} FindLineAt(lines: seq<string>, x: string, h: nat)
    requires h < |lines| && lines[h] == x
    requires forall j :: 0 <= j < h ==> lines[j] != x
    ensures FindLine(lines, x) == Some(h)
  {
  }

  /** The loop of `_apply_auto_renewal` over the configured rules, inserting into the lines. */
  method ApplyAutoRenewal(config: AutoRenewalConfig, lines: seq<string>) returns (out: seq<string>)
    ensures out == AutoRenewal(config, lines)
  {
    out := lines;
    if !config.enabled {
      return;
    }
    var rules := config.rules;
    var i := 0;
    while i < |rules|
      invariant 0 <= i <= |rules|
      invariant out == ApplyRules(lines, rules[..i])
    {
      TakeStep(rules, i);
      var header := FindLine(out, rules[i].headerLocation);
      if header.Some? {
        out := InsertRenewal(out, header.value, rules[i].item);
      }
      i := i + 1;
    }
    TakeAll(rules);
  }

  /**
   * `process`: the lines are summed one by one in place and auto-renewal
   * then runs on the summed lines.
   */
  method Process(config: AutoRenewalConfig, lines: seq<string>, sumLine: string -> string) returns (out: seq<string>)
    ensures out == AutoRenewal(config, SumLines(lines, sumLine))
  {
    var summed := lines;
    var i := 0;
    while i < |summed|
      invariant |summed| == |lines| && 0 <= i <= |lines|
      invariant forall j :: 0 <= j < i ==> summed[j] == sumLine(lines[j])
      invariant summed[i..] == lines[i..]
    {
      summed := summed[i := sumLine(summed[i])];
      i := i + 1;
    }
    assert summed == SumLines(lines, sumLine);
    out := ApplyAutoRenewal(config, summed);
  }
}
