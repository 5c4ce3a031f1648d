/**
 * The JSON formatter of the bill modifier application
 * (`BillJsonFormatter`). Each content line is read as an amount, a
 * description and an optional `//` comment; each transaction is an income
 * when its amount is not negative and an expense otherwise; each parent
 * gets the sum of its amounts, and the bill gets total income, total
 * expense and their balance. Amounts are exact decimals here (see README).
 */
module JsonFormatting {
  import opened Strings

  import opened BillTree

  // ------------------------------------------------- the amount pattern

  /** Where the pattern `-?\d+(?:\.\d+)?` ends when it matches a prefix of `s` as far as it can. */
  function AmountEnd(s: string): (r: Option<nat>)
    ensures r.Some? ==> 0 < r.value <= |s|
  {
    var start := if s != [] && s[0] == '-' then 1 else 0;
    var whole := DigitsEnd(s, start);
    if whole == start then None
    else if whole < |s| && s[whole] == '.' && DigitsEnd(s, whole + 1) > whole + 1 then Some(DigitsEnd(s, whole + 1))
    else Some(whole)
  }

  function Pow10(n: nat): (r: nat)
    ensures r > 0
  {
    if n == 0 then 1 else 10 * Pow10(n - 1)
  }

  /** The exact value of the amount text `s[..e]`, which `AmountEnd` found. */
  function AmountValue(s: string, e: nat): real
    requires AmountEnd(s) == Some(e)
  {
    var negative := s[0] == '-';
    var start := if negative then 1 else 0;
    var whole := DigitsEnd(s, start);
    var magnitude :=
      if e == whole then DigitsValue(s[start..whole]) as real
      else DigitsValue(s[start..whole]) as real + DigitsValue(s[whole + 1..e]) as real / Pow10(e - whole - 1) as real;
    if negative then -magnitude else magnitude
  }

  datatype AmountMatch = AmountMatch(amount: real, rest: string)

  /**
   * `regex_match` of `^(-?\d+(?:\.\d+)?)\s*(.*)`: the amount, then the
   * spaces after it, then the rest, which `.` must match to the end.
   */
  function MatchAmount(line: string): Option<AmountMatch> {
    match AmountEnd(line)
    case None => None
    case Some(e) =>
      var k := SkipSpaces(line, e);
      if NoLineTerminator(line[k..]) then Some(AmountMatch(AmountValue(line, e), line[k..])) else None
  }

  /** An amount without a minus sign is never negative, and a negative amount had one. */
  lemma {:induction false} AmountSign(line: string)
    requires MatchAmount(line).Some?
    ensures line[0] != '-' ==> MatchAmount(line).value.amount >= 0.0
    ensures MatchAmount(line).value.amount < 0.0 ==> line[0] == '-'
  {
  }

  // ------------------------------------------- the comment and the trims

  /** The characters `find_last_not_of(" \t\n\r")` skips. */
  predicate IsBlank(c: char) {
    c == ' ' || c == '\t' || c == '\n' || c == '\r'
  }

  /** The first position at or after `i` that holds no blank, or the end. */
  function SkipBlanks(s: string, i: nat): (r: nat)
    requires i <= |s|
    decreases |s| - i
    ensures i <= r <= |s|
    ensures forall k :: i <= k < r ==> IsBlank(s[k])
    ensures r < |s| ==> !IsBlank(s[r])
  {
    if i == |s| || !IsBlank(s[i]) then i else SkipBlanks(s, i + 1)
  }

  /** One past the last position before `j` that holds no blank, or 0. */
  function BackBlanks(s: string, j: nat): (r: nat)
    requires j <= |s|
    ensures r <= j
    ensures forall k :: r <= k < j ==> IsBlank(s[k])
    ensures r > 0 ==> !IsBlank(s[r - 1])
  {
    if j == 0 || !IsBlank(s[j - 1]) then j else BackBlanks(s, j - 1)
  }

  /** `erase(find_last_not_of(" \t\n\r") + 1)`, which empties an all-blank string. */
  function StripTrailing(s: string): string {
    s[..BackBlanks(s, |s|)]
  }

  /** `erase(0, find_first_not_of(" \t\n\r"))`, which empties an all-blank string. */
  function StripLeading(s: string): string {
    s[SkipBlanks(s, 0)..]
  }

  /** Only trailing blanks go: the result is a prefix, ends in a non-blank, and the rest is blank. */
  lemma {:induction false} StripTrailingSpec(s: string)
    ensures var r := StripTrailing(s);
      && StartsWith(s, r)
      && (r != "" ==> !IsBlank(r[|r| - 1]))
      && (forall k :: |r| <= k < |s| ==> IsBlank(s[k]))
  {
  }

  /** Only leading blanks go: the result is a suffix, starts with a non-blank, and what went is blank. */
  lemma {:induction false} StripLeadingSpec(s: string)
    ensures var r := StripLeading(s);
      && EndsWith(s, r)
      && (r != "" ==> !IsBlank(r[0]))
      && (forall k :: 0 <= k < |s| - |r| ==> IsBlank(s[k]))
  {
  }

  /** What `_parse_content_line` writes to its three out-parameters. */
  datatype ContentLine = ContentLine(amount: real, description: string, comment: string)

  /** The part after the amount, or the whole line when the pattern does not match. */
  function DescriptionPart(line: string): string {
    match MatchAmount(line)
    case None => line
    case Some(m) => m.rest
  }

  /** The description and the comment of the text after the amount: the first `//` separates them. */
  function SplitComment(full: string): (string, string) {
    match Find(full, "//")
    case None => (StripTrailing(full), "")
    case Some(p) => (StripTrailing(full[..p]), StripLeading(full[p + 2..]))
  }

  function ParseContentLine(line: string): ContentLine {
    var amount := match MatchAmount(line) case None => 0.0 case Some(m) => m.amount;
    var (description, comment) := SplitComment(DescriptionPart(line));
    ContentLine(amount, description, comment)
  }

  /** A prefix of a string with no `t` before position `p` contains no `t` when it ends by `p`. */
  lemma {:induction false} PrefixNoOccurrence(s: string, t: string, p: nat, n: nat)
    requires n <= p <= |s| && |t| > 0
    requires forall j: nat :: j < p ==> !OccursAt(s, t, j)
    ensures !Contains(s[..n], t)
  {
    if Contains(s[..n], t) {
      var j: nat :| j <= n && OccursAt(s[..n], t, j);
      assert s[..n][j..j + |t|] == s[j..j + |t|];
      assert OccursAt(s, t, j);
    }
  }

  /**
   * The description never contains `//` and has no trailing blank; the
   * comment has no leading blank and is empty when there is no `//`; the
   * description is a prefix and the comment a suffix of the text.
   */
  lemma {:induction false} SplitCommentSpec(full: string)
    ensures var (d, c) := SplitComment(full);
      && !Contains(d, "//")
      && StartsWith(full, d)
      && (!Contains(full, "//") ==> c == "" && d == StripTrailing(full))
      && EndsWith(full, c)
      && (d != "" ==> !IsBlank(d[|d| - 1]))
      && (c != "" ==> !IsBlank(c[0]))
  {
    match Find(full, "//")
    case None => NoCommentSpec(full);
    case Some(p) => CommentSpec(full, p);
  }

  lemma {:induction false} NoCommentSpec(full: string)
    requires !Contains(full, "//")
    ensures var d := StripTrailing(full);
      && !Contains(d, "//") && StartsWith(full, d) && (d != "" ==> !IsBlank(d[|d| - 1]))
  {
    var d := StripTrailing(full);
    StripTrailingSpec(full);
    assert forall j: nat :: j < |full| ==> !OccursAt(full, "//", j);
    PrefixNoOccurrence(full, "//", |full|, |d|);
    assert full[..|d|] == d;
  }

  lemma {:induction false} CommentSpec(full: string, p: nat)
    requires Find(full, "//") == Some(p)
    ensures var d := StripTrailing(full[..p]); var c := StripLeading(full[p + 2..]);
      && !Contains(d, "//") && StartsWith(full, d) && (d != "" ==> !IsBlank(d[|d| - 1]))
      && EndsWith(full, c) && (c != "" ==> !IsBlank(c[0]))
  {
    var d := StripTrailing(full[..p]);
    StripTrailingSpec(full[..p]);
    assert full[..p][..|d|] == full[..|d|];
    PrefixNoOccurrence(full, "//", p, |d|);
    var rest := full[p + 2..];
    var c := StripLeading(rest);
    StripLeadingSpec(rest);
    assert rest[|rest| - |c|..] == full[|full| - |c|..];
  }

  /**
   * A line that does not match the amount pattern has amount 0 and its
   * description and comment come from the whole line; a matching line
   * has the pattern's amount. Either way the description holds no `//`
   * and no trailing blank, the comment no leading blank, and without
   * `//` the comment is empty.
   */
  lemma {:induction false} ParseContentLineSpec(line: string)
    ensures var r := ParseContentLine(line); var full := DescriptionPart(line);
      && (MatchAmount(line).None? ==> r.amount == 0.0 && full == line)
      && (MatchAmount(line).Some? ==> r.amount == MatchAmount(line).value.amount && full == MatchAmount(line).value.rest)
      && !Contains(r.description, "//")
      && StartsWith(full, r.description)
      && (!Contains(full, "//") ==> r.comment == "" && r.description == StripTrailing(full))
      && EndsWith(full, r.comment)
      && (r.description != "" ==> !IsBlank(r.description[|r.description| - 1]))
      && (r.comment != "" ==> !IsBlank(r.comment[0]))
  {
    SplitCommentSpec(DescriptionPart(line));
  }

  // ------------------------------------------------------ the bill as JSON

  datatype TransactionType = Income | Expense

  /** One element of a parent's `transactions` array; a `null` comment is `None`. */
  datatype Transaction = Transaction(
    subCategory: string, description: string, amount: real, source: string,
    kind: TransactionType, comment: Option<string>)

  /** The node written for a parent: its display name, sub-total and transactions. */
  datatype ParentNode = ParentNode(displayName: string, subTotal: real, transactions: seq<Transaction>)

  /** The JSON document before it is dumped; `categories` keeps the insertion order of the keys. */
  datatype Report = Report(
    date: Option<string>, remark: Option<string>,
    totalIncome: real, totalExpense: real, balance: real,
    categories: seq<(string, ParentNode)>)

  function TypeOf(amount: real): TransactionType {
    if amount >= 0.0 then Income else Expense
  }

  /** The transaction of one parsed content line under a sub-item. */
  function ToTransaction(subTitle: string, c: ContentLine): Transaction {
    Transaction(subTitle, c.description, c.amount, "manually_add", TypeOf(c.amount),
      if c.comment == "" then None else Some(c.comment))
  }

  /** Every content line of a sub-item, parsed. */
  function ParseLines(cs: seq<string>): (r: seq<ContentLine>)
    ensures |r| == |cs|
  {
    seq(|cs|, i requires 0 <= i < |cs| => ParseContentLine(cs[i]))
  }

  function LineTransactions(subTitle: string, parsed: seq<ContentLine>): seq<Transaction>
    decreases |parsed|
  {
    if parsed == [] then []
    else LineTransactions(subTitle, parsed[..|parsed| - 1]) + [ToTransaction(subTitle, parsed[|parsed| - 1])]
  }

  /** The transactions of one sub-item, one per content line. */
  function SubTransactions(s: SubItem): seq<Transaction> {
    LineTransactions(s.title, ParseLines(s.contents))
  }

  function SubsTransactions(subs: seq<SubItem>): seq<Transaction>
    decreases |subs|
  {
    if subs == [] then [] else SubsTransactions(subs[..|subs| - 1]) + SubTransactions(subs[|subs| - 1])
  }

  /** Every transaction of the bill, parent by parent. */
  function AllTransactions(ps: seq<ParentItem>): seq<Transaction>
    decreases |ps|
  {
    if ps == [] then [] else AllTransactions(ps[..|ps| - 1]) + SubsTransactions(ps[|ps| - 1].subs)
  }

  function Sum(ts: seq<Transaction>): real
    decreases |ts|
  {
    if ts == [] then 0.0 else Sum(ts[..|ts| - 1]) + ts[|ts| - 1].amount
  }

  /** What the transactions add to `total_income`. */
  function IncomeOf(ts: seq<Transaction>): real
    decreases |ts|
  {
    if ts == [] then 0.0
    else IncomeOf(ts[..|ts| - 1]) + (if ts[|ts| - 1].amount >= 0.0 then ts[|ts| - 1].amount else 0.0)
  }

  /** What the transactions add to `total_expense`. */
  function ExpenseOf(ts: seq<Transaction>): real
    decreases |ts|
  {
    if ts == [] then 0.0
    else ExpenseOf(ts[..|ts| - 1]) + (if ts[|ts| - 1].amount >= 0.0 then 0.0 else ts[|ts| - 1].amount)
  }

  function NodeOf(p: ParentItem): ParentNode {
    var ts := SubsTransactions(p.subs);
    ParentNode(p.title, Sum(ts), ts)
  }

  /** `obj[key] = value` on an ordered JSON object: a new key goes last, an existing one keeps its place. */
  function Assign<V>(obj: seq<(string, V)>, key: string, value: V): (r: seq<(string, V)>)
    decreases |obj|
  {
    if obj == [] then [(key, value)]
    else if obj[0].0 == key then [(key, value)] + obj[1..]
    else [obj[0]] + Assign(obj[1..], key, value)
  }

  function Keys<V>(obj: seq<(string, V)>): seq<string>
    decreases |obj|
  {
    if obj == [] then [] else [obj[0].0] + Keys(obj[1..])
  }

  predicate Distinct(ks: seq<string>) {
    forall i, j :: 0 <= i < j < |ks| ==> ks[i] != ks[j]
  }

  function Categories(ps: seq<ParentItem>): seq<(string, ParentNode)>
    decreases |ps|
  {
    if ps == [] then [] else Assign(Categories(ps[..|ps| - 1]), ps[|ps| - 1].title, NodeOf(ps[|ps| - 1]))
  }

  /** The `date` and `remark` fields: each metadata line overwrites the field its prefix names. */
  function MetaFields(meta: seq<string>): (Option<string>, Option<string>)
    decreases |meta|
  {
    if meta == [] then (None, None) else MetaUpdate(MetaFields(meta[..|meta| - 1]), meta[|meta| - 1])
  }

  /** One metadata line applied to the two fields. */
  function MetaUpdate(fields: (Option<string>, Option<string>), line: string): (Option<string>, Option<string>) {
    if StartsWith(line, "date:") then (Some(line[5..]), fields.1)
    else if StartsWith(line, "remark:") then (fields.0, Some(line[7..]))
    else fields
  }

  /** `format`, before the document is dumped as text. */
  function Format(ps: seq<ParentItem>, meta: seq<string>): Report {
    var ts := AllTransactions(ps);
    var (d, r) := MetaFields(meta);
    Report(d, r, IncomeOf(ts), ExpenseOf(ts), IncomeOf(ts) + ExpenseOf(ts), Categories(ps))
  }

  // ------------------------------------------------------------- lemmas

  lemma {:induction false} TotalsConcat(a: seq<Transaction>, b: seq<Transaction>)
    ensures Sum(a + b) == Sum(a) + Sum(b)
    ensures IncomeOf(a + b) == IncomeOf(a) + IncomeOf(b)
    ensures ExpenseOf(a + b) == ExpenseOf(a) + ExpenseOf(b)
    decreases |b|
  {
    if b == [] {
      assert a + b == a;
    } else {
      var b' := b[..|b| - 1];
      assert (a + b)[..|a + b| - 1] == a + b';
      TotalsConcat(a, b');
    }
  }

  lemma {:induction false} TotalsSnoc(ts: seq<Transaction>, t: Transaction)
    ensures Sum(ts + [t]) == Sum(ts) + t.amount
    ensures IncomeOf(ts + [t]) == IncomeOf(ts) + (if t.amount >= 0.0 then t.amount else 0.0)
    ensures ExpenseOf(ts + [t]) == ExpenseOf(ts) + (if t.amount >= 0.0 then 0.0 else t.amount)
  {
    assert (ts + [t])[..|ts|] == ts;
  }

  lemma {:induction false} LinesStep(subTitle: string, parsed: seq<ContentLine>, k: nat)
    requires k < |parsed|
    ensures LineTransactions(subTitle, parsed[..k + 1]) == LineTransactions(subTitle, parsed[..k]) + [ToTransaction(subTitle, parsed[k])]
  {
    TakeStep(parsed, k);
  }

  lemma {:induction false} SubsStep(subs: seq<SubItem>, j: nat)
    requires j < |subs|
    ensures SubsTransactions(subs[..j + 1]) == SubsTransactions(subs[..j]) + SubTransactions(subs[j])
  {
    TakeStep(subs, j);
  }

  lemma {:induction false} PartsStep(ps: seq<ParentItem>, i: nat)
    requires i < |ps|
    ensures AllTransactions(ps[..i + 1]) == AllTransactions(ps[..i]) + SubsTransactions(ps[i].subs)
    ensures Categories(ps[..i + 1]) == Assign(Categories(ps[..i]), ps[i].title, NodeOf(ps[i]))
  {
    TakeStep(ps, i);
  }

  lemma {:induction false} MetaStep(meta: seq<string>, m: nat)
    requires m < |meta|
    ensures MetaFields(meta[..m + 1]) == MetaUpdate(MetaFields(meta[..m]), meta[m])
  {
    TakeStep(meta, m);
  }

  /** Income is never negative, expense never positive, and together they are the sum of every amount. */
  lemma {:induction false} IncomeExpenseSplit(ts: seq<Transaction>)
    ensures IncomeOf(ts) >= 0.0 && ExpenseOf(ts) <= 0.0
    ensures IncomeOf(ts) + ExpenseOf(ts) == Sum(ts)
    decreases |ts|
  {
    if ts != [] {
      IncomeExpenseSplit(ts[..|ts| - 1]);
    }
  }

  /** Every transaction of a sub-item is an income exactly when its amount is not negative. */
  predicate Classified(ts: seq<Transaction>) {
    forall k :: 0 <= k < |ts| ==> (ts[k].kind == Income <==> ts[k].amount >= 0.0)
  }

  lemma {:induction false} ClassifiedConcat(a: seq<Transaction>, b: seq<Transaction>)
    requires Classified(a) && Classified(b)
    ensures Classified(a + b)
  {
    forall k | 0 <= k < |a + b| ensures ((a + b)[k].kind == Income <==> (a + b)[k].amount >= 0.0) {
      if k < |a| { assert (a + b)[k] == a[k]; } else { assert (a + b)[k] == b[k - |a|]; }
    }
  }

  lemma {:induction false} LinesClassified(subTitle: string, parsed: seq<ContentLine>)
    ensures Classified(LineTransactions(subTitle, parsed))
    decreases |parsed|
  {
    if parsed != [] {
      var front := parsed[..|parsed| - 1];
      LinesClassified(subTitle, front);
      ClassifiedConcat(LineTransactions(subTitle, front), [ToTransaction(subTitle, parsed[|parsed| - 1])]);
    }
  }

  lemma {:induction false} SubsClassified(subs: seq<SubItem>)
    ensures Classified(SubsTransactions(subs))
    decreases |subs|
  {
    if subs != [] {
      SubsClassified(subs[..|subs| - 1]);
      LinesClassified(subs[|subs| - 1].title, ParseLines(subs[|subs| - 1].contents));
      ClassifiedConcat(SubsTransactions(subs[..|subs| - 1]), SubTransactions(subs[|subs| - 1]));
    }
  }

  lemma {:induction false} AllClassified(ps: seq<ParentItem>)
    ensures Classified(AllTransactions(ps))
    decreases |ps|
  {
    if ps != [] {
      AllClassified(ps[..|ps| - 1]);
      SubsClassified(ps[|ps| - 1].subs);
      ClassifiedConcat(AllTransactions(ps[..|ps| - 1]), SubsTransactions(ps[|ps| - 1].subs));
    }
  }

  lemma {:induction false} KeysAssign<V>(obj: seq<(string, V)>, key: string, value: V)
    ensures key in Keys(obj) ==> Keys(Assign(obj, key, value)) == Keys(obj)
    ensures key !in Keys(obj) ==> Keys(Assign(obj, key, value)) == Keys(obj) + [key]
    decreases |obj|
  {
    if obj != [] && obj[0].0 != key {
      KeysAssign(obj[1..], key, value);
      assert Keys(Assign(obj, key, value)) == [obj[0].0] + Keys(Assign(obj[1..], key, value));
    }
  }

  /** An assigned key holds the assigned value and no other key's value changes. */
  lemma {:induction false} AssignLookup<V>(obj: seq<(string, V)>, key: string, value: V, k: nat)
    requires Distinct(Keys(obj)) && k < |Assign(obj, key, value)|
    ensures var r := Assign(obj, key, value);
      (r[k].0 == key ==> r[k].1 == value) && (r[k].0 != key ==> k < |obj| && r[k] == obj[k])
    decreases |obj|
  {
    KeysLength(obj);
    if obj != [] && k > 0 {
      if obj[0].0 != key {
        assert Keys(obj) == [obj[0].0] + Keys(obj[1..]);
        assert Distinct(Keys(obj[1..])) by {
          forall i, j | 0 <= i < j < |Keys(obj[1..])| ensures Keys(obj[1..])[i] != Keys(obj[1..])[j] {
            assert Keys(obj[1..])[i] == Keys(obj)[i + 1] && Keys(obj[1..])[j] == Keys(obj)[j + 1];
          }
        }
        AssignLookup(obj[1..], key, value, k - 1);
      } else {
        assert Keys(obj)[0] != Keys(obj)[k];
      }
    }
  }

  lemma {:induction false} DistinctSnoc(ks: seq<string>, key: string)
    requires Distinct(ks) && key !in ks
    ensures Distinct(ks + [key])
  {
  }

  lemma {:induction false} KeysLength<V>(obj: seq<(string, V)>)
    ensures |Keys(obj)| == |obj|
    ensures forall k :: 0 <= k < |obj| ==> Keys(obj)[k] == obj[k].0
    decreases |obj|
  {
    if obj != [] {
      KeysLength(obj[1..]);
    }
  }

  /**
   * The categories object has one key per distinct parent title, in the
   * order the titles first appear; a title seen again replaces the
   * earlier node in place.
   */
  lemma {:induction false} CategoriesKeys(ps: seq<ParentItem>)
    ensures Distinct(Keys(Categories(ps)))
    ensures forall i :: 0 <= i < |ps| ==> ps[i].title in Keys(Categories(ps))
    ensures forall t :: t in Keys(Categories(ps)) ==> exists i :: 0 <= i < |ps| && ps[i].title == t
    decreases |ps|
  {
    if ps != [] {
      var front := ps[..|ps| - 1];
      var p := ps[|ps| - 1];
      CategoriesKeys(front);
      KeysAssign(Categories(front), p.title, NodeOf(p));
      if p.title !in Keys(Categories(front)) {
        DistinctSnoc(Keys(Categories(front)), p.title);
      }
      forall i | 0 <= i < |ps| ensures ps[i].title in Keys(Categories(ps)) {
        if i < |front| { assert ps[i] == front[i]; }
      }
      forall t | t in Keys(Categories(ps)) ensures exists i :: 0 <= i < |ps| && ps[i].title == t {
        if t != p.title {
          var i :| 0 <= i < |front| && front[i].title == t;
          assert ps[i] == front[i];
        }
      }
    }
  }

  /** The node of the last parent with a given title is the one the object keeps. */
  lemma {:induction false} CategoriesLastWins(ps: seq<ParentItem>, k: nat)
    requires ps != [] && k < |Categories(ps)| && Categories(ps)[k].0 == ps[|ps| - 1].title
    ensures Categories(ps)[k].1 == NodeOf(ps[|ps| - 1])
  {
    CategoriesKeys(ps[..|ps| - 1]);
    AssignLookup(Categories(ps[..|ps| - 1]), ps[|ps| - 1].title, NodeOf(ps[|ps| - 1]), k);
  }

  /**
   * The balance is the sum of every amount of the bill; total income is
   * never negative and total expense never positive; every transaction
   * is an income exactly when its amount is not negative.
   */
  lemma {:induction false} FormatTotals(ps: seq<ParentItem>, meta: seq<string>)
    ensures var r := Format(ps, meta);
      && r.balance == Sum(AllTransactions(ps))
      && r.totalIncome >= 0.0 && r.totalExpense <= 0.0
      && Classified(AllTransactions(ps))
  {
    IncomeExpenseSplit(AllTransactions(ps));
    AllClassified(ps);
  }

  /** The date field is the text after `date:` of the last line that starts with it. */
  lemma {:induction false} MetaDateLast(meta: seq<string>, i: nat)
    requires i < |meta| && StartsWith(meta[i], "date:")
    requires forall j :: i < j < |meta| ==> !StartsWith(meta[j], "date:")
    ensures MetaFields(meta).0 == Some(meta[i][5..])
    decreases |meta|
  {
    if i < |meta| - 1 {
      var front := meta[..|meta| - 1];
      assert front[i] == meta[i];
      MetaDateLast(front, i);
    }
  }

  // ------------------------------------------------------------ the method

  /** The running totals of `format` after the first `k` transactions of `parsed`, on top of `base`. */
  ghost predicate RunningTotals(base: (seq<Transaction>, real, real, real), title: string, parsed: seq<ContentLine>, k: nat,
                                ts: seq<Transaction>, subTotal: real, income: real, expense: real)
    requires k <= |parsed|
  {
    var done := LineTransactions(title, parsed[..k]);
    && ts == base.0 + done
    && subTotal == base.1 + Sum(done)
    && income == base.2 + IncomeOf(done)
    && expense == base.3 + ExpenseOf(done)
  }

  /** One content line of `format`: its transaction, and what it adds to the three running totals. */
  method AddLine(ghost base: (seq<Transaction>, real, real, real), title: string, cs: seq<string>, k: nat,
                 ts: seq<Transaction>, subTotal: real, income: real, expense: real)
    returns (ts': seq<Transaction>, subTotal': real, income': real, expense': real)
    requires k < |cs| && RunningTotals(base, title, ParseLines(cs), k, ts, subTotal, income, expense)
    ensures RunningTotals(base, title, ParseLines(cs), k + 1, ts', subTotal', income', expense')
  {
    var c := ParseContentLine(cs[k]);
    ghost var parsed := ParseLines(cs);
    assert c == parsed[k];
    LinesStep(title, parsed, k);
    var t := ToTransaction(title, c);
    TotalsSnoc(LineTransactions(title, parsed[..k]), t);
    ts' := ts + [t];
    subTotal' := subTotal + t.amount;
    income', expense' := income, expense;
    if t.amount >= 0.0 {
      income' := income + t.amount;
    } else {
      expense' := expense + t.amount;
    }
  }

  /** The innermost loop of `format`: one sub-item's content lines. */
  method AddSubTransactions(s: SubItem, ts: seq<Transaction>, subTotal: real, income: real, expense: real)
    returns (ts': seq<Transaction>, subTotal': real, income': real, expense': real)
    ensures ts' == ts + SubTransactions(s)
    ensures subTotal' == subTotal + Sum(SubTransactions(s))
    ensures income' == income + IncomeOf(SubTransactions(s))
    ensures expense' == expense + ExpenseOf(SubTransactions(s))
  {
    ts', subTotal', income', expense' := ts, subTotal, income, expense;
    var cs := s.contents;
    ghost var parsed := ParseLines(cs);
    ghost var base := (ts, subTotal, income, expense);
    var k := 0;
    while k < |cs|
      invariant 0 <= k <= |cs|
      invariant RunningTotals(base, s.title, parsed, k, ts', subTotal', income', expense')
    {
      ts', subTotal', income', expense' := AddLine(base, s.title, cs, k, ts', subTotal', income', expense');
      k := k + 1;
    }
    TakeAll(parsed);
  }

  /** The middle loop of `format`: one parent's node, adding to the bill's totals. */
  method BuildNode(p: ParentItem, income: real, expense: real)
    returns (node: ParentNode, income': real, expense': real)
    ensures node == NodeOf(p)
    ensures income' == income + IncomeOf(node.transactions)
    ensures expense' == expense + ExpenseOf(node.transactions)
  {
    var ts: seq<Transaction> := [];
    var subTotal := 0.0;
    income', expense' := income, expense;
    var j := 0;
    while j < |p.subs|
      invariant 0 <= j <= |p.subs|
      invariant ts == SubsTransactions(p.subs[..j])
      invariant subTotal == Sum(ts)
      invariant income' == income + IncomeOf(ts) && expense' == expense + ExpenseOf(ts)
    {
      SubsStep(p.subs, j);
      ghost var before := ts;
      ts, subTotal, income', expense' := AddSubTransactions(p.subs[j], ts, subTotal, income', expense');
      TotalsConcat(before, SubTransactions(p.subs[j]));
      j := j + 1;
    }
    TakeAll(p.subs);
    node := ParentNode(p.title, subTotal, ts);
  }

  /** `format`: the metadata loop, then the parent loop with its running totals. */
  method FormatBill(ps: seq<ParentItem>, meta: seq<string>) returns (r: Report)
    ensures r == Format(ps, meta)
  {
    var date: Option<string> := None;
    var remark: Option<string> := None;
    var m := 0;
    while m < |meta|
      invariant 0 <= m <= |meta|
      invariant (date, remark) == MetaFields(meta[..m])
    {
      MetaStep(meta, m);
      var line := meta[m];
      if StartsWith(line, "date:") {
        date := Some(line[5..]);
      } else if StartsWith(line, "remark:") {
        remark := Some(line[7..]);
      }
      m := m + 1;
    }
    TakeAll(meta);
    var categories: seq<(string, ParentNode)> := [];
    var income := 0.0;
    var expense := 0.0;
    var i := 0;
    while i < |ps|
      invariant 0 <= i <= |ps|
      invariant categories == Categories(ps[..i])
      invariant income == IncomeOf(AllTransactions(ps[..i]))
      invariant expense == ExpenseOf(AllTransactions(ps[..i]))
    {
      PartsStep(ps, i);
      ghost var before := AllTransactions(ps[..i]);
      var node;
      node, income, expense := BuildNode(ps[i], income, expense);
      TotalsConcat(before, node.transactions);
      categories := Assign(categories, ps[i].title, node);
      i := i + 1;
    }
    TakeAll(ps);
    r := Report(date, remark, income, expense, income + expense, categories);
  }
}
