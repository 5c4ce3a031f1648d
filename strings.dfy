/**
 * Character classes and string helpers shared by the line classifiers,
 * parsers and formatters. Characters are those of the C locale: the
 * `<cctype>` predicates are true only for ASCII characters, and every
 * other character (the bytes of a UTF-8 encoded Chinese title, say)
 * belongs to none of the classes.
 */
module Strings {

  datatype Option<+T> = None | Some(value: T)

  /** `std::isspace` in the C locale: space, \t, \n, \v, \f and \r. */
  predicate IsSpace(c: char) {
    c == ' ' || c == '\t' || c == '\n' || c == '\r' || c as int == 11 || c as int == 12
  }

  /** `std::isdigit`, and the regex class `\d`. */
  predicate IsDigit(c: char) {
    '0' <= c <= '9'
  }

  /** `std::islower`. */
  predicate IsLower(c: char) {
    'a' <= c <= 'z'
  }

  /** `std::isupper`. */
  predicate IsUpper(c: char) {
    'A' <= c <= 'Z'
  }

  /** `std::isalpha`. */
  predicate IsAlpha(c: char) {
    IsLower(c) || IsUpper(c)
  }

  /** The characters the regex `.` does not match (ECMAScript grammar of `std::regex`). */
  predicate IsLineTerminator(c: char) {
    c == '\n' || c == '\r'
  }

  /** True when the regex `.*` matches all of `s`. */
  predicate NoLineTerminator(s: string) {
    forall i :: 0 <= i < |s| ==> !IsLineTerminator(s[i])
  }

  predicate AllSpace(s: string) {
    forall i :: 0 <= i < |s| ==> IsSpace(s[i])
  }

  predicate AllDigits(s: string) {
    forall i :: 0 <= i < |s| ==> IsDigit(s[i])
  }

  /** `s.starts_with(p)`, and `s.rfind(p, 0) == 0`. */
  predicate StartsWith(s: string, p: string) {
    |p| <= |s| && s[..|p|] == p
  }

  predicate EndsWith(s: string, p: string) {
    |p| <= |s| && s[|s| - |p|..] == p
  }

  predicate OccursAt(s: string, t: string, i: nat) {
    i + |t| <= |s| && s[i..i + |t|] == t
  }

  /** `s.find(t) != npos`, and Python's `t in s`. */
  predicate Contains(s: string, t: string) {
    exists i: nat | i <= |s| :: OccursAt(s, t, i)
  }

  /** `s.find(t, from)`: the first occurrence of `t` at or after `from`. */
  function FindFrom(s: string, t: string, from: nat): (r: Option<nat>)
    decreases |s| - from
    ensures r.Some? ==> from <= r.value && OccursAt(s, t, r.value)
    ensures r.Some? ==> forall j: nat :: from <= j < r.value ==> !OccursAt(s, t, j)
    ensures r.None? ==> forall j: nat :: from <= j ==> !OccursAt(s, t, j)
  {
    if from + |t| > |s| then None
    else if s[from..from + |t|] == t then Some(from)
    else FindFrom(s, t, from + 1)
  }

  /** `s.find(t)`. */
  function Find(s: string, t: string): (r: Option<nat>)
    ensures r.Some? <==> Contains(s, t)
    ensures r.Some? ==> OccursAt(s, t, r.value) && forall j: nat :: j < r.value ==> !OccursAt(s, t, j)
  {
    FindFrom(s, t, 0)
  }

  /** `s.rfind(t, upto)`: the last occurrence of `t` that starts at or before `upto`. */
  function RFindUpTo(s: string, t: string, upto: nat): (r: Option<nat>)
    decreases upto
    ensures r.Some? ==> r.value <= upto && OccursAt(s, t, r.value)
    ensures r.Some? ==> forall j: nat :: r.value < j <= upto ==> !OccursAt(s, t, j)
    ensures r.None? ==> forall j: nat :: j <= upto ==> !OccursAt(s, t, j)
  {
    if OccursAt(s, t, upto) then Some(upto)
    else if upto == 0 then None
    else RFindUpTo(s, t, upto - 1)
  }

  /** `s.rfind(t)`: the last occurrence of `t`. */
  function RFind(s: string, t: string): (r: Option<nat>)
    ensures r.Some? <==> Contains(s, t)
    ensures r.Some? ==> OccursAt(s, t, r.value) && forall j: nat :: r.value < j ==> !OccursAt(s, t, j)
  {
    RFindUpTo(s, t, |s|)
  }

  /** The first index at or after `from` whose character is not in the class. */
  function SkipSpaces(s: string, from: nat): (r: nat)
    requires from <= |s|
    decreases |s| - from
    ensures from <= r <= |s|
    ensures AllSpace(s[from..r])
    ensures r < |s| ==> !IsSpace(s[r])
  {
    if from == |s| || !IsSpace(s[from]) then from else SkipSpaces(s, from + 1)
  }

  /** The index just after the last non-space character of `s[..upto]`. */
  function BackSpaces(s: string, upto: nat): (r: nat)
    requires upto <= |s|
    ensures r <= upto
    ensures AllSpace(s[r..upto])
    ensures r > 0 ==> !IsSpace(s[r - 1])
  {
    if upto == 0 || !IsSpace(s[upto - 1]) then upto
    else
      var r := BackSpaces(s, upto - 1);
      assert forall k :: r <= k < upto - 1 ==> s[r..upto - 1][k - r] == s[k];
      r
  }

  /** Whitespace (`std::isspace`) stripped from both ends. */
  function Trim(s: string): (r: string)
  {
    var i := SkipSpaces(s, 0);
    var j := BackSpaces(s, |s|);
    if j <= i then "" else s[i..j]
  }

  /** Scanning back from `upto` stops after any non-space character below it. */
  lemma {:induction false} BackSpacesAbove(s: string, upto: nat, i: nat)
    requires i < upto <= |s| && !IsSpace(s[i])
    ensures BackSpaces(s, upto) > i
    decreases upto
  {
    if IsSpace(s[upto - 1]) {
      BackSpacesAbove(s, upto - 1, i);
    }
  }

  /** `Trim` keeps the middle of `s` and removes exactly the surrounding whitespace. */
  lemma {:induction false} TrimSpec(s: string)
    ensures var r := Trim(s);
      (r == "" <==> AllSpace(s)) &&
      (r != "" ==> !IsSpace(r[0]) && !IsSpace(r[|r| - 1])) &&
      exists i: nat, j: nat :: i <= j <= |s| && r == s[i..j] && AllSpace(s[..i]) && AllSpace(s[j..])
  {
    var r := Trim(s);
    var i := SkipSpaces(s, 0);
    var j := BackSpaces(s, |s|);
    assert s[0..i] == s[..i];
    if i < |s| { BackSpacesAbove(s, |s|, i); }
    if j <= i {
      assert r == "";
      assert s[..i] == s && s[i..] == "";
      assert r == s[i..i] && AllSpace(s[..i]) && AllSpace(s[i..]);
    } else {
      assert r == s[i..j];
      assert s[j..|s|] == s[j..];
      assert !IsSpace(s[i]) && !IsSpace(s[j - 1]);
      assert r[0] == s[i] && r[|r| - 1] == s[j - 1];
      assert !AllSpace(s);
      assert r == s[i..j] && AllSpace(s[..i]) && AllSpace(s[j..]);
    }
  }

  lemma {:induction false} TrimIdempotent(s: string)
    ensures Trim(Trim(s)) == Trim(s)
  {
    TrimSpec(s);
    var r := Trim(s);
    TrimSpec(r);
    if r != "" {
      assert SkipSpaces(r, 0) == 0;
      assert BackSpaces(r, |r|) == |r|;
      assert r[0..|r|] == r;
    }
  }

  /** Lower-case ASCII letters (`str.lower()` on the ASCII range). */
  function ToLowerChar(c: char): (r: char)
    ensures IsUpper(c) ==> IsLower(r)
    ensures !IsUpper(c) ==> r == c
  {
    if IsUpper(c) then (c as int + 32) as char else c
  }

  function ToLower(s: string): (r: string)
    ensures |r| == |s|
    ensures forall i :: 0 <= i < |s| ==> r[i] == ToLowerChar(s[i])
  {
    if s == [] then [] else [ToLowerChar(s[0])] + ToLower(s[1..])
  }

  /** The byte-wise ordering of `std::string::compare` and of Python string comparison. */
  predicate LexLess(a: string, b: string)
    decreases |a|
  {
    if a == [] then b != []
    else if b == [] then false
    else if a[0] != b[0] then a[0] < b[0]
    else LexLess(a[1..], b[1..])
  }

  predicate LexLessEq(a: string, b: string) {
    a == b || LexLess(a, b)
  }

  lemma {:induction false} LexLessIrreflexive(a: string)
    ensures !LexLess(a, a)
  {
    if a != [] { LexLessIrreflexive(a[1..]); }
  }

  lemma {:induction false} LexLessTransitive(a: string, b: string, c: string)
    requires LexLess(a, b) && LexLess(b, c)
    ensures LexLess(a, c)
  {
    if a != [] && b != [] && c != [] && a[0] == b[0] && b[0] == c[0] {
      LexLessTransitive(a[1..], b[1..], c[1..]);
    }
  }

  lemma {:induction false} LexLessTotal(a: string, b: string)
    ensures a == b || LexLess(a, b) || LexLess(b, a)
  {
    if a != [] && b != [] && a[0] == b[0] {
      LexLessTotal(a[1..], b[1..]);
      if a[1..] == b[1..] {
        assert a == [a[0]] + a[1..] && b == [b[0]] + b[1..];
      }
    }
  }

  /** Decimal text of a natural number, as `std::to_string` and `operator<<` print it. */
  function NatToString(n: nat): (r: string)
    decreases n
    ensures |r| >= 1 && AllDigits(r)
  {
    if n < 10 then [('0' as int + n) as char]
    else NatToString(n / 10) + [('0' as int + n % 10) as char]
  }

  function IntToString(n: int): (r: string)
    ensures r != []
    ensures n < 0 <==> r[0] == '-'
  {
    if n < 0 then "-" + NatToString(-n) else NatToString(n)
  }

  /** The end of the run of digits starting at `from`. */
  function DigitsEnd(s: string, from: nat): (r: nat)
    requires from <= |s|
    decreases |s| - from
    ensures from <= r <= |s|
    ensures forall k :: from <= k < r ==> IsDigit(s[k])
    ensures AllDigits(s[from..r])
    ensures r < |s| ==> !IsDigit(s[r])
  {
    if from == |s| || !IsDigit(s[from]) then from
    else
      var r := DigitsEnd(s, from + 1);
      assert forall k :: 0 <= k < r - from ==> s[from..r][k] == s[from + k];
      r
  }

  /**
   * `std::stoi`: blanks, an optional sign and at least one digit, read as
   * far as the digits go; no digits, or a value outside 32 bits, throws.
   */
  function Stoi(s: string): Option<int> {
    var k := SkipSpaces(s, 0);
    var signed := k < |s| && (s[k] == '+' || s[k] == '-');
    var d := if signed then k + 1 else k;
    var e := DigitsEnd(s, d);
    if e == d then None
    else
      var magnitude: int := DigitsValue(s[d..e]);
      var v: int := if signed && s[k] == '-' then -magnitude else magnitude;
      if -0x8000_0000 <= v < 0x8000_0000 then Some(v) else None
  }

  /** The value of a string of decimal digits. */
  function DigitsValue(s: string): (r: nat)
    requires AllDigits(s)
  {
    if s == [] then 0 else DigitsValue(s[..|s| - 1]) * 10 + (s[|s| - 1] as int - '0' as int)
  }

  lemma {:induction false} NatToStringValue(n: nat)
    ensures DigitsValue(NatToString(n)) == n
  {
    var r := NatToString(n);
    if n >= 10 {
      NatToStringValue(n / 10);
      assert r[..|r| - 1] == NatToString(n / 10);
    }
  }

  /** Taking every element of a sequence gives the sequence. */
  lemma {:induction false} TakeAll<T>(s: seq<T>)
    ensures s[..|s|] == s
  {
  }

  /** One element more of a prefix. */
  lemma {:induction false} TakeStep<T>(s: seq<T>, i: nat)
    requires i < |s|
    ensures s[..i + 1][..i] == s[..i]
    ensures s[..i + 1] == s[..i] + [s[i]]
  {
  }

  /** A non-empty sequence is its front followed by its last element. */
  lemma {:induction false} SnocSelf<T>(s: seq<T>)
    requires s != []
    ensures s == s[..|s| - 1] + [s[|s| - 1]]
  {
  }

  /** Concatenation regrouped, for proofs that would otherwise re-derive it element by element. */
  lemma {:induction false} ConcatAssoc<T>(a: seq<T>, b: seq<T>, c: seq<T>)
    ensures a + b + c == a + (b + c)
  {
  }
}
