/**
 * Where the JSON form of a bill is written (`PathBuilder::build_output_path`).
 * The input's extension becomes `.json`; when the name's stem has at least
 * four characters, its first four (the year) name a sub-directory of the
 * output root, otherwise the file goes into the root itself. The directory
 * is created before the path is returned.
 *
 * Paths are POSIX generic-format strings with `/` as the only separator,
 * and the `std::filesystem` operations used are written out: `filename`,
 * `stem`, `extension`, `replace_extension` and `operator/`.
 */
module PathBuilding {
  import opened Strings

  /** The index of the last `c` in `s`. */
  function LastIndexOf(s: string, c: char): (r: Option<nat>)
    decreases |s|
    ensures r.Some? ==> r.value < |s| && s[r.value] == c
    ensures r.Some? ==> forall j :: r.value < j < |s| ==> s[j] != c
    ensures r.None? ==> forall j :: 0 <= j < |s| ==> s[j] != c
  {
    if s == [] then None
    else if s[|s| - 1] == c then Some(|s| - 1)
    else LastIndexOf(s[..|s| - 1], c)
  }

  predicate NoSeparator(s: string) {
    forall i :: 0 <= i < |s| ==> s[i] != '/'
  }

  /** `path::filename`: what follows the last separator; empty when the path ends with one. */
  function FileName(p: string): (r: string)
    ensures NoSeparator(r)
    ensures EndsWith(p, r)
    ensures |r| < |p| ==> p[|p| - |r| - 1] == '/'
  {
    match LastIndexOf(p, '/')
    case None => p
    case Some(k) => p[k + 1..]
  }

  /**
   * Where the extension of a file name starts: its last dot, unless that
   * dot is the name's first character or the name is `.` or `..`.
   */
  function ExtensionStart(f: string): (r: Option<nat>)
    ensures r.Some? ==> 0 < r.value < |f| && f[r.value] == '.'
    ensures r.Some? ==> forall j :: r.value < j < |f| ==> f[j] != '.'
  {
    if f == "." || f == ".." then None
    else match LastIndexOf(f, '.')
      case None => None
      case Some(d) => if d > 0 then Some(d) else None
  }

  /** `path::extension` of a file name, dot included. */
  function Extension(f: string): string {
    match ExtensionStart(f)
    case None => ""
    case Some(d) => f[d..]
  }

  /** `path::stem` of a file name. */
  function Stem(f: string): (r: string)
    ensures r + Extension(f) == f
  {
    match ExtensionStart(f)
    case None => f
    case Some(d) => f[..d]
  }

  /**
   * `path::replace_extension`: the file name's extension is removed and the
   * replacement appended, with a dot put in front when it has none.
   */
  function ReplaceExtension(p: string, replacement: string): string {
    var kept := p[..|p| - |Extension(FileName(p))|];
    if replacement == [] then kept
    else if replacement[0] == '.' then kept + replacement
    else kept + "." + replacement
  }

  /**
   * `operator/` with a relative right operand: a separator is put between
   * the two only when the left path has a file name, and an absolute right
   * operand replaces the left one.
   */
  function Join(dir: string, name: string): string {
    if name != [] && name[0] == '/' then name
    else if FileName(dir) != [] then dir + "/" + name
    else dir + name
  }

  /** The file name of the output: the input with its extension replaced. */
  function OutputName(input: string): string {
    FileName(ReplaceExtension(input, ".json"))
  }

  /** The stem the year is taken from. */
  function OutputStem(input: string): string {
    Stem(OutputName(input))
  }

  /** The directory `build_output_path` creates. */
  function TargetDir(base: string, input: string): string {
    var stem := OutputStem(input);
    if |stem| >= 4 then Join(base, stem[..4]) else base
  }

  /** What `build_output_path` returns. */
  function OutputPath(base: string, input: string): string {
    Join(TargetDir(base, input), OutputName(input))
  }

  // ------------------------------------------------------------- lemmas

  /** The last separator of a path followed by text without one is the path's last separator. */
  lemma {:induction false} LastSlashAppend(a: string, b: string)
    requires NoSeparator(b)
    ensures LastIndexOf(a + b, '/') == LastIndexOf(a, '/')
    decreases |b|
  {
    if b == [] {
      assert a + b == a;
    } else {
      var b' := b[..|b| - 1];
      assert (a + b)[..|a + b| - 1] == a + b';
      assert (a + b)[|a + b| - 1] == b[|b| - 1];
      LastSlashAppend(a, b');
    }
  }

  /** Appending text without a separator extends the file name by that text. */
  lemma {:induction false} FileNameAppend(a: string, b: string)
    requires NoSeparator(b)
    ensures FileName(a + b) == FileName(a) + b
  {
    LastSlashAppend(a, b);
    var o := LastIndexOf(a, '/');
    if o.None? {
      assert FileName(a + b) == a + b && FileName(a) == a;
    } else {
      var k := o.value;
      assert FileName(a + b) == (a + b)[k + 1..] && FileName(a) == a[k + 1..];
      assert (a + b)[k + 1..] == a[k + 1..] + b;
    }
  }

  /** A path is the text before its file name followed by the file name. */
  lemma {:induction false} FileNameSplit(p: string)
    ensures p == p[..|p| - |FileName(p)|] + FileName(p)
    ensures FileName(p[..|p| - |FileName(p)|]) == []
  {
    var f := FileName(p);
    var d := p[..|p| - |f|];
    assert p[|p| - |f|..] == f;
    if |f| < |p| {
      assert d[|d| - 1] == '/';
    } else {
      assert d == [];
    }
  }

  /** A path ending with a separator has an empty file name. */
  lemma {:induction false} FileNameAfterSlash(dir: string)
    ensures FileName(dir + "/") == []
  {
    var s := dir + "/";
    assert s[|s| - 1] == '/';
    assert LastIndexOf(s, '/') == Some(|dir|);
  }

  /** The file name of a joined path is the right operand when that is a plain name. */
  lemma {:induction false} JoinFileName(dir: string, name: string)
    requires NoSeparator(name)
    ensures FileName(Join(dir, name)) == name
    ensures StartsWith(Join(dir, name), dir)
  {
    JoinAsConcat(dir, name);
    SeparatedFileName(dir);
    FileNameAppend(Separated(dir), name);
    SeparatedStartsWith(dir, name);
  }

  /** `dir` with a separator appended unless its file name is already empty. */
  function Separated(dir: string): string {
    if FileName(dir) != [] then dir + "/" else dir
  }

  lemma {:induction false} JoinAsConcat(dir: string, name: string)
    requires NoSeparator(name)
    ensures Join(dir, name) == Separated(dir) + name
  {
    if name != [] {
      assert name[0] != '/';
    }
  }

  lemma {:induction false} SeparatedFileName(dir: string)
    ensures FileName(Separated(dir)) == []
  {
    if FileName(dir) != [] {
      FileNameAfterSlash(dir);
    }
  }

  lemma {:induction false} SeparatedStartsWith(dir: string, name: string)
    ensures StartsWith(Separated(dir) + name, dir)
  {
    if FileName(dir) != [] {
      ConcatAssoc(dir, "/", name);
      StartsWithConcat(dir, "/" + name);
    } else {
      StartsWithConcat(dir, name);
    }
  }

  lemma {:induction false} StartsWithConcat(a: string, b: string)
    ensures StartsWith(a + b, a)
  {
    assert (a + b)[..|a|] == a;
  }

  /** A name ending in `.json` after a non-empty stem has that stem and the extension `.json`. */
  lemma {:induction false} StemOfJson(s: string)
    requires s != []
    ensures Stem(s + ".json") == s
  {
    var t := s + ".json";
    assert t[|s|] == '.' && t[|s| + 1] == 'j' && t[|s| + 2] == 's' && t[|s| + 3] == 'o' && t[|s| + 4] == 'n';
    assert t != "." && t != "..";
    var d := LastIndexOf(t, '.');
    assert d == Some(|s|);
    assert t[..|s|] == s;
  }

  /** The output file name is the input's stem followed by `.json`. */
  lemma {:induction false} OutputNameSpec(input: string)
    ensures OutputName(input) == Stem(FileName(input)) + ".json"
  {
    var f := FileName(input);
    var dir := input[..|input| - |f|];
    var st := Stem(f);
    var m := ReplaceExtension(input, ".json");
    var kept := input[..|input| - |Extension(f)|];
    assert kept == dir + st by {
      FileNameSplit(input);
      assert input == dir + f;
      KeptPart(dir, f);
    }
    assert m == kept + ".json" by { JsonReplacement(input); }
    ConcatAssoc(dir, st, ".json");
    var name := st + ".json";
    assert FileName(m) == name by {
      StemJsonPlain(f);
      FileNameSplit(input);
      FileNameAppend(dir, name);
      assert FileName(dir) + name == name;
    }
    assert OutputName(input) == FileName(m);
  }

  /** Dropping a file name's extension from a path keeps the directory part and the stem. */
  lemma {:induction false} KeptPart(dir: string, f: string)
    ensures (dir + f)[..|dir + f| - |Extension(f)|] == dir + Stem(f)
  {
    var st := Stem(f);
    var x := Extension(f);
    assert dir + f == (dir + st) + x by { ConcatAssoc(dir, st, x); }
  }

  /** A stem followed by `.json` has no separator when the name had none. */
  lemma {:induction false} StemJsonPlain(f: string)
    requires NoSeparator(f)
    ensures NoSeparator(Stem(f)) && NoSeparator(Stem(f) + ".json")
  {
    var st := Stem(f);
    assert forall i :: 0 <= i < |st| ==> st[i] == f[i];
  }

  lemma {:induction false} JsonReplacement(p: string)
    ensures ReplaceExtension(p, ".json") == p[..|p| - |Extension(FileName(p))|] + ".json"
  {
    var j := ".json";
    assert j != [] && j[0] == '.';
  }

  /** A name made of a leading dot and no other dot has no extension. */
  lemma {:induction false} DotJsonStem()
    ensures Stem(".json") == ".json"
  {
    var t := ".json";
    assert t[0] == '.' && t[1] == 'j' && t[2] == 's' && t[3] == 'o' && t[4] == 'n';
    assert LastIndexOf(t, '.') == Some(0);
  }

  /**
   * The year stem is the input's stem; an input with an empty stem (its
   * path ends with a separator or is empty) yields the name `.json`, whose
   * stem is `.json` itself, since a leading dot does not start an extension.
   */
  lemma {:induction false} OutputStemSpec(input: string)
    ensures Stem(FileName(input)) != [] ==> OutputStem(input) == Stem(FileName(input))
    ensures Stem(FileName(input)) == [] ==> OutputStem(input) == ".json"
  {
    OutputNameSpec(input);
    var s := Stem(FileName(input));
    if s != [] {
      StemOfJson(s);
    } else {
      assert s + ".json" == ".json";
      DotJsonStem();
    }
  }

  /**
   * With a stem of at least four characters the output lies in
   * `base/<first four>`, otherwise directly in `base`.
   */
  lemma {:induction false} TargetDirSpec(base: string, input: string)
    requires Stem(FileName(input)) != []
    ensures var s := Stem(FileName(input));
      && (|s| >= 4 ==> TargetDir(base, input) == Join(base, s[..4]))
      && (|s| < 4 ==> TargetDir(base, input) == base)
  {
    OutputStemSpec(input);
  }

  /**
   * The output's file name is the stem followed by `.json`, and the output
   * lies in the directory that is created, under the output root.
   */
  lemma {:induction false} OutputPathSpec(base: string, input: string)
    ensures FileName(OutputPath(base, input)) == Stem(FileName(input)) + ".json"
    ensures StartsWith(OutputPath(base, input), TargetDir(base, input))
    ensures StartsWith(OutputPath(base, input), base)
  {
    var t := TargetDir(base, input);
    var name := OutputName(input);
    OutputNameSpec(input);
    StemJsonPlain(FileName(input));
    JoinFileName(t, name);
    StemJsonPlain(name);
    TargetUnderBase(base, OutputStem(input));
    PrefixTransitive(OutputPath(base, input), t, base);
  }

  /** The created directory starts with the output root. */
  lemma {:induction false} TargetUnderBase(base: string, stem: string)
    requires NoSeparator(stem)
    ensures StartsWith(if |stem| >= 4 then Join(base, stem[..4]) else base, base)
  {
    if |stem| >= 4 {
      var y := stem[..4];
      assert y[0] == stem[0];
      var sep := if FileName(base) != [] then base + "/" else base;
      assert Join(base, y) == sep + y;
      assert (sep + y)[..|base|] == base;
    } else {
      assert base[..|base|] == base;
    }
  }

  lemma {:induction false} PrefixTransitive(a: string, b: string, c: string)
    requires StartsWith(a, b) && StartsWith(b, c)
    ensures StartsWith(a, c)
  {
    assert a[..|c|] == b[..|c|];
  }

  // ------------------------------------------------------------ the classes

  /** The directories the file handler has been asked to create, in order. */
  class FileHandler {
    var createdDirectories: seq<string>

    constructor()
      ensures createdDirectories == []
    {
      createdDirectories := [];
    }

    /** `create_directories`: the file system is outside the model; the request is recorded. */
    method CreateDirectories(dir: string)
      modifies this
      ensures createdDirectories == old(createdDirectories) + [dir]
    {
      createdDirectories := createdDirectories + [dir];
    }
  }

  class PathBuilder {
    const baseOutputDir: string
    const fileHandler: FileHandler

    constructor(baseOutputDir: string, fileHandler: FileHandler)
      ensures this.baseOutputDir == baseOutputDir && this.fileHandler == fileHandler
    {
      this.baseOutputDir := baseOutputDir;
      this.fileHandler := fileHandler;
    }

    /** `build_output_path`: one directory is created, the output's own, and the path into it is returned. */
    method BuildOutputPath(input: string) returns (r: string)
      modifies fileHandler
      ensures r == OutputPath(baseOutputDir, input)
      ensures fileHandler.createdDirectories == old(fileHandler.createdDirectories) + [TargetDir(baseOutputDir, input)]
    {
      var modifiedPath := ReplaceExtension(input, ".json");
      var filenameStem := Stem(FileName(modifiedPath));
      if |filenameStem| >= 4 {
        var year := filenameStem[..4];
        var targetDir := Join(baseOutputDir, year);
        fileHandler.CreateDirectories(targetDir);
        r := Join(targetDir, FileName(modifiedPath));
      } else {
        fileHandler.CreateDirectories(baseOutputDir);
        r := Join(baseOutputDir, FileName(modifiedPath));
      }
    }
  }
}
