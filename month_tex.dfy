/**
 * The LaTeX monthly report (`MonthTexFormat`): the escaping applied to
 * every piece of user text, and the report written when the month has no
 * data. Escaping replaces each of ten special characters by a fixed
 * LaTeX sequence and copies every other character.
 */
module MonthTexFormatting {
  import opened Strings

  /** The ten characters `escape_latex` rewrites. */
  predicate IsSpecial(c: char) {
    c == '&' || c == '%' || c == '$' || c == '#' || c == '_' || c == '{' || c == '}'
    || c == '~' || c == '^' || c == '\\'
  }

  /** The `switch` of `escape_latex`. */
  function EscapeChar(c: char): string {
    match c
    case '&' => "\\&"
    case '%' => "\\%"
    case '$' => "\\$"
    case '#' => "\\#"
    case '_' => "\\_"
    case '{' => "\\{"
    case '}' => "\\}"
    case '~' => "\\textasciitilde{}"
    case '^' => "\\textasciicircum{}"
    case '\\' => "\\textbackslash{}"
    case _ => [c]
  }

  /** `escape_latex`: the escapes of the characters, in order. */
  function EscapeLatex(s: string): string
    decreases |s|
  {
    if s == [] then "" else EscapeLatex(s[..|s| - 1]) + EscapeChar(s[|s| - 1])
  }

  predicate NoSpecial(s: string) {
    forall i :: 0 <= i < |s| ==> !IsSpecial(s[i])
  }

  /** A special character becomes a backslash sequence longer than itself; any other stays as it is. */
  lemma {:induction false} EscapeCharShape(c: char)
    ensures IsSpecial(c) ==> |EscapeChar(c)| >= 2 && EscapeChar(c)[0] == '\\'
    ensures !IsSpecial(c) ==> EscapeChar(c) == [c]
  {
  }

  /** Escaping distributes over concatenation. */
  lemma {:induction false} EscapeConcat(a: string, b: string)
    ensures EscapeLatex(a + b) == EscapeLatex(a) + EscapeLatex(b)
    decreases |b|
  {
    if b == [] {
      assert a + b == a;
    } else {
      var b' := b[..|b| - 1];
      var last := b[|b| - 1];
      assert (a + b)[..|a + b| - 1] == a + b' && (a + b)[|a + b| - 1] == last;
      EscapeConcat(a, b');
      calc {
        EscapeLatex(a + b);
        EscapeLatex(a + b') + EscapeChar(last);
        (EscapeLatex(a) + EscapeLatex(b')) + EscapeChar(last);
        { ConcatAssoc(EscapeLatex(a), EscapeLatex(b'), EscapeChar(last)); }
        EscapeLatex(a) + EscapeLatex(b);
      }
    }
  }

  /** The first character's escape comes first. */
  lemma {:induction false} EscapeCons(s: string)
    requires s != []
    ensures EscapeLatex(s) == EscapeChar(s[0]) + EscapeLatex(s[1..])
  {
    assert s == [s[0]] + s[1..];
    EscapeConcat([s[0]], s[1..]);
    assert [s[0]][..0] == [];
  }

  /**
   * The output is never shorter than the input, and it is the input
   * itself exactly when the input has none of the special characters.
   */
  lemma {:induction false} EscapeLength(s: string)
    ensures |EscapeLatex(s)| >= |s|
    ensures NoSpecial(s) <==> EscapeLatex(s) == s
    ensures !NoSpecial(s) ==> |EscapeLatex(s)| > |s|
  {
    EscapeLonger(s);
    if NoSpecial(s) {
      EscapeIdentity(s);
    }
  }

  lemma {:induction false} FrontNoSpecial(s: string)
    requires s != [] && NoSpecial(s)
    ensures NoSpecial(s[..|s| - 1]) && !IsSpecial(s[|s| - 1])
  {
    var front := s[..|s| - 1];
    forall i | 0 <= i < |front| ensures !IsSpecial(front[i]) {
      assert front[i] == s[i];
    }
  }

  /** Escaping never shortens, and lengthens as soon as a special character occurs. */
  lemma {:induction false} EscapeLonger(s: string)
    ensures |EscapeLatex(s)| >= |s|
    ensures !NoSpecial(s) ==> |EscapeLatex(s)| > |s|
    decreases |s|
  {
    if s != [] {
      var front := s[..|s| - 1];
      var c := s[|s| - 1];
      EscapeLonger(front);
      EscapeCharShape(c);
      if !NoSpecial(s) && NoSpecial(front) {
        var i :| 0 <= i < |s| && IsSpecial(s[i]);
        if i < |front| {
          assert front[i] == s[i];
        }
      }
    }
  }

  /** Text without special characters escapes to itself. */
  lemma {:induction false} EscapeIdentity(s: string)
    requires NoSpecial(s)
    ensures EscapeLatex(s) == s
    decreases |s|
  {
    if s != [] {
      var front := s[..|s| - 1];
      FrontNoSpecial(s);
      EscapeIdentity(front);
      EscapeCharShape(s[|s| - 1]);
      SnocSelf(s);
    }
  }

  /** The text of the escape that starts `s`, if any, in the order the special characters are tried. */
  function LeadingEscape(s: string): Option<char> {
    if StartsWith(s, "\\&") then Some('&')
    else if StartsWith(s, "\\%") then Some('%')
    else if StartsWith(s, "\\$") then Some('$')
    else if StartsWith(s, "\\#") then Some('#')
    else if StartsWith(s, "\\_") then Some('_')
    else if StartsWith(s, "\\{") then Some('{')
    else if StartsWith(s, "\\}") then Some('}')
    else if StartsWith(s, "\\textasciitilde{}") then Some('~')
    else if StartsWith(s, "\\textasciicircum{}") then Some('^')
    else if StartsWith(s, "\\textbackslash{}") then Some('\\')
    else None
  }

  /** Reads escaped text back: each escape sequence becomes its character. */
  function Unescape(s: string): string
    decreases |s|
  {
    if s == [] then ""
    else match LeadingEscape(s)
      case Some(c) => [c] + Unescape(s[|EscapeChar(c)|..])
      case None => [s[0]] + Unescape(s[1..])
  }

  /** The escape of a character is recognised as exactly that character's escape. */
  lemma {:induction false} LeadingEscapeOf(c: char, rest: string)
    ensures IsSpecial(c) ==> LeadingEscape(EscapeChar(c) + rest) == Some(c)
    ensures !IsSpecial(c) ==> LeadingEscape(EscapeChar(c) + rest) == None
  {
    var t := EscapeChar(c) + rest;
    if !IsSpecial(c) {
      assert t[0] == c && c != '\\';
    } else if c == '~' || c == '^' || c == '\\' {
      LongEscapeOf(c, rest);
    } else {
      assert t[..2] == EscapeChar(c);
      assert t[0] == '\\' && t[1] == c;
    }
  }

  lemma {:induction false} LongEscapeOf(c: char, rest: string)
    requires c == '~' || c == '^' || c == '\\'
    ensures LeadingEscape(EscapeChar(c) + rest) == Some(c)
  {
    var t := EscapeChar(c) + rest;
    assert t[..|EscapeChar(c)|] == EscapeChar(c);
    if c == '~' {
      TildeFirst(t);
    } else if c == '^' {
      CaretFirst(t);
    } else {
      BackslashFirst(t);
    }
  }

  lemma {:induction false} TildeFirst(t: string)
    requires StartsWith(t, "\\textasciitilde{}")
    ensures LeadingEscape(t) == Some('~')
  {
    assert t[1] == 't';
  }

  lemma {:induction false} CaretFirst(t: string)
    requires StartsWith(t, "\\textasciicircum{}")
    ensures LeadingEscape(t) == Some('^')
  {
    assert t[1] == 't' && t[10] == 'c';
  }

  lemma {:induction false} BackslashFirst(t: string)
    requires StartsWith(t, "\\textbackslash{}")
    ensures LeadingEscape(t) == Some('\\')
  {
    assert t[1] == 't' && t[5] == 'b';
  }

  /** Unescaping undoes escaping, so no two texts escape to the same output. */
  lemma {:induction false} UnescapeEscape(s: string)
    ensures Unescape(EscapeLatex(s)) == s
    decreases |s|
  {
    if s != [] {
      var c := s[0];
      var rest := EscapeLatex(s[1..]);
      EscapeCons(s);
      LeadingEscapeOf(c, rest);
      EscapeCharShape(c);
      var t := EscapeChar(c) + rest;
      assert t[|EscapeChar(c)|..] == rest;
      UnescapeEscape(s[1..]);
      if !IsSpecial(c) {
        assert t[1..] == rest;
      }
      assert s == [c] + s[1..];
    }
  }

  lemma {:induction false} EscapeInjective(a: string, b: string)
    requires EscapeLatex(a) == EscapeLatex(b)
    ensures a == b
  {
    UnescapeEscape(a);
    UnescapeEscape(b);
  }

  /** The members of `MonthTexReport` the preamble and the no-data report use. */
  datatype TexConfig = TexConfig(
    documentClass: string, paperSize: string, margin: string,
    mainFont: string, cjkFont: string, baseFontSize: int)

  /** The document class, geometry and font lines written before anything else. */
  function Preamble(cfg: TexConfig): string {
    "\\documentclass[" + IntToString(cfg.baseFontSize) + "pt]{" + cfg.documentClass + "}\n"
    + "\\usepackage[" + cfg.paperSize + ", margin=" + cfg.margin + "]{geometry}\n"
    + "\\usepackage{fontspec}\n"
    + "\\usepackage[nofonts]{ctex}\n\n"
    + "% --- Font Settings from Config ---\n"
    + "\\setmainfont{" + cfg.mainFont + "}\n"
    + "\\setCJKmainfont{" + cfg.cjkFont + "}\n\n"
  }

  /** The sentence that says no data was found for the month. */
  function NoDataSentence(year: int, month: int): string {
    "未找到 " + IntToString(year) + "年" + IntToString(month) + "月的任何数据。\n"
  }

  /** `format_report` when `data_found` is false. */
  function NoDataReport(cfg: TexConfig, year: int, month: int): string {
    Preamble(cfg) + "\\begin{document}\n" + NoDataSentence(year, month) + "\\end{document}\n"
  }

  /**
   * The no-data report is the preamble, then a document whose only body
   * is the no-data sentence; it ends with `\end{document}` and a newline.
   */
  lemma {:induction false} NoDataReportShape(cfg: TexConfig, year: int, month: int)
    ensures var r := NoDataReport(cfg, year, month);
      && StartsWith(r, Preamble(cfg) + "\\begin{document}\n")
      && EndsWith(r, NoDataSentence(year, month) + "\\end{document}\n")
      && EndsWith(r, "\\end{document}\n")
  {
    var p := Preamble(cfg) + "\\begin{document}\n";
    var e := "\\end{document}\n";
    var n := NoDataSentence(year, month);
    ConcatAssoc(p, n, e);
    Affixes(p, n + e);
    Affixes(p + n, e);
  }

  lemma {:induction false} Affixes(p: string, q: string)
    ensures StartsWith(p + q, p) && EndsWith(p + q, q)
  {
    assert (p + q)[..|p|] == p;
    assert (p + q)[|p + q| - |q|..] == q;
  }
}
