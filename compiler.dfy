/**
 * The document compile driver (`compiler.py`): every file of one kind
 * under a source directory is compiled to PDF in an output tree that
 * mirrors the source tree, by one of four external tools, and the `auto`
 * mode hands each sub-directory of a parent directory to the tool its
 * name mentions.
 *
 * The file system, the clock and the external tools are outside the
 * model: an `Environment` says what `os.path.abspath`, `os.walk`,
 * `os.makedirs` and `subprocess.run` answer, and how long each handler
 * took. Paths follow `posixpath`.
 */
module CompileDriver {
  import opened Strings

  // ------------------------------------------------------------ the paths

  /** `os.path.join(a, b)`: an absolute `b` replaces `a`; otherwise one separator is put between them. */
  function PyJoin(a: string, b: string): (r: string)
    ensures EndsWith(r, b)
  {
    if b != [] && b[0] == '/' then b
    else if a == [] || a[|a| - 1] == '/' then a + b
    else a + "/" + b
  }

  /** `os.path.basename`: what follows the last separator. */
  function Basename(p: string): (r: string)
    decreases |p|
    ensures forall i :: 0 <= i < |r| ==> r[i] != '/'
    ensures EndsWith(p, r)
  {
    if p == [] || p[|p| - 1] == '/' then []
    else Basename(p[..|p| - 1]) + [p[|p| - 1]]
  }

  /** Where the extension of a file name starts: its last dot, when some character before it is not a dot. */
  function ExtensionDot(f: string): (r: Option<nat>)
    decreases |f|
    ensures r.Some? ==> r.value < |f| && f[r.value] == '.'
    ensures r.Some? ==> forall j :: r.value < j < |f| ==> f[j] != '.'
    ensures r.Some? ==> exists k :: 0 <= k < r.value && f[k] != '.'
  {
    if f == [] then None
    else if f[|f| - 1] != '.' then
      var d := ExtensionDot(f[..|f| - 1]);
      if d.Some? then Some(d.value) else None
    else if exists k :: 0 <= k < |f| - 1 && f[k] != '.' then Some(|f| - 1)
    else None
  }

  /** `os.path.splitext(f)[0]` for a file name. */
  function SplitRoot(f: string): string {
    match ExtensionDot(f)
    case None => f
    case Some(d) => f[..d]
  }

  // --------------------------------------------------------- the builders

  datatype Backend = Tex | Markdown | Rst | Typst

  /** The file extension each handler compiles. */
  function ExtensionOf(b: Backend): string {
    match b
    case Tex => ".tex"
    case Markdown => ".md"
    case Rst => ".rst"
    case Typst => ".typ"
  }

  /** The name each handler logs under, and its key in the timing summary. */
  function LogName(b: Backend): string {
    match b
    case Tex => "TeX"
    case Markdown => "Markdown"
    case Rst => "RST"
    case Typst => "Typst"
  }

  /** `handle_tex`'s builder: `xelatex` writes into the target directory. */
  function TexCommand(inputPath: string, outputPath: string, targetDir: string): seq<string> {
    ["xelatex", "-interaction=nonstopmode", "-output-directory=" + targetDir, inputPath]
  }

  /** `handle_md`'s builder: `pandoc` from GitHub-flavoured Markdown. */
  function MdCommand(font: string, inputPath: string, outputPath: string, targetDir: string): seq<string> {
    ["pandoc", "--from=gfm", inputPath, "-o", outputPath, "--pdf-engine=xelatex",
     "-V", "mainfont=" + font, "-V", "lang=zh-CN", "-V", "geometry:margin=1in"]
  }

  /** `handle_rst`'s builder: `pandoc` from reStructuredText. */
  function RstCommand(font: string, inputPath: string, outputPath: string, targetDir: string): seq<string> {
    ["pandoc", "--from=rst", inputPath, "-o", outputPath, "--pdf-engine=xelatex",
     "-V", "mainfont=" + font, "-V", "lang=zh-CN", "-V", "geometry:margin=1in"]
  }

  /** `handle_typ`'s builder. */
  function TypCommand(inputPath: string, outputPath: string, targetDir: string): seq<string> {
    ["typst", "compile", inputPath, outputPath]
  }

  function Command(b: Backend, font: string, inputPath: string, outputPath: string, targetDir: string): seq<string> {
    match b
    case Tex => TexCommand(inputPath, outputPath, targetDir)
    case Markdown => MdCommand(font, inputPath, outputPath, targetDir)
    case Rst => RstCommand(font, inputPath, outputPath, targetDir)
    case Typst => TypCommand(inputPath, outputPath, targetDir)
  }

  /**
   * The TeX command names the target directory and never the output
   * path; it ends with the input.
   */
  lemma {:induction false} TexIgnoresOutputPath(inputPath: string, out1: string, out2: string, targetDir: string)
    ensures TexCommand(inputPath, out1, targetDir) == TexCommand(inputPath, out2, targetDir)
    ensures "-output-directory=" + targetDir in TexCommand(inputPath, out1, targetDir)
    ensures TexCommand(inputPath, out1, targetDir)[3] == inputPath
  {
  }

  /** The Markdown and reStructuredText commands differ in the `--from` argument alone. */
  lemma {:induction false} PandocCommandsDifferInFrom(font: string, inputPath: string, outputPath: string, targetDir: string)
    ensures var md := MdCommand(font, inputPath, outputPath, targetDir);
      var rst := RstCommand(font, inputPath, outputPath, targetDir);
      && |md| == |rst|
      && (forall i :: 0 <= i < |md| && i != 1 ==> md[i] == rst[i])
      && md[1] == "--from=gfm" && rst[1] == "--from=rst"
  {
  }

  /** Every builder but TeX's ignores the target directory; the pandoc and typst commands name the output path. */
  lemma {:induction false} OtherBuildersIgnoreTarget(b: Backend, font: string, inputPath: string, outputPath: string, t1: string, t2: string)
    requires b != Tex
    ensures Command(b, font, inputPath, outputPath, t1) == Command(b, font, inputPath, outputPath, t2)
    ensures outputPath in Command(b, font, inputPath, outputPath, t1)
  {
  }

  // -------------------------------------------------- process_directory

  /** One directory of `os.walk`: its path relative to the source directory (`.` for the source itself) and its files. */
  datatype WalkEntry = WalkEntry(relative: string, files: seq<string>)

  datatype RunOutcome = Exited(code: int) | ExecutableMissing | OtherError

  datatype Environment = Environment(
    abspath: string -> string,
    walk: string -> seq<WalkEntry>,
    makedirsOk: string -> bool,
    run: seq<string> -> RunOutcome,
    elapsed: string -> real)

  /** One file to compile: where it is, where its PDF goes, and the directory made for it. */
  datatype Job = Job(inputPath: string, pdfPath: string, targetDir: string)

  /** `type_specific_output_root`: the output root followed by the source folder's name. */
  function TypeRoot(src: string, base: string): string {
    PyJoin(base, Basename(src))
  }

  /** The walk's `root` for an entry whose relative path is `relative`. */
  function WalkRoot(src: string, relative: string): string {
    if relative == "." then src else PyJoin(src, relative)
  }

  function JobFor(src: string, base: string, relative: string, file: string): Job {
    var target := PyJoin(TypeRoot(src, base), relative);
    Job(PyJoin(WalkRoot(src, relative), file), PyJoin(target, SplitRoot(file) + ".pdf"), target)
  }

  /** The files of a directory that end with the extension, in the walk's order. */
  function Matching(files: seq<string>, ext: string): seq<string>
    decreases |files|
  {
    if files == [] then []
    else
      var f := files[|files| - 1];
      Matching(files[..|files| - 1], ext) + (if EndsWith(f, ext) then [f] else [])
  }

  /** The jobs of one directory. */
  function EntryJobs(src: string, base: string, ext: string, relative: string, files: seq<string>): seq<Job> {
    FilterMap(files, ext, JobMaker(src, base, relative))
  }

  /** The job of each file of the directory `relative`. */
  function JobMaker(src: string, base: string, relative: string): string -> Job {
    f => JobFor(src, base, relative, f)
  }

  /** The loop over one directory's files: each file that ends with the extension, turned into its job by `job`. */
  function FilterMap<B>(files: seq<string>, ext: string, job: string -> B): seq<B>
    decreases |files|
  {
    if files == [] then []
    else
      var f := files[|files| - 1];
      FilterMap(files[..|files| - 1], ext, job) + (if EndsWith(f, ext) then [job(f)] else [])
  }

  /** The jobs of the whole walk, in its order. */
  function Jobs(src: string, base: string, ext: string, walk: seq<WalkEntry>): seq<Job>
    decreases |walk|
  {
    if walk == [] then []
    else
      var e := walk[|walk| - 1];
      Jobs(src, base, ext, walk[..|walk| - 1]) + EntryJobs(src, base, ext, e.relative, e.files)
  }

  /** The commands started so far, and whether a missing executable ended the run. */
  datatype RunState = RunState(issued: seq<seq<string>>, aborted: bool)

  /** One job: no command when its directory cannot be made, and the end of the run when the tool is missing. */
  function Step(st: RunState, job: Job, b: Backend, font: string, env: Environment): RunState {
    if st.aborted || !env.makedirsOk(job.targetDir) then st
    else
      var cmd := Command(b, font, job.inputPath, job.pdfPath, job.targetDir);
      RunState(st.issued + [cmd], env.run(cmd) == ExecutableMissing)
  }

  /** The job's directory is made and its tool is missing. */
  predicate Aborts(job: Job, b: Backend, font: string, env: Environment) {
    env.makedirsOk(job.targetDir) && env.run(Command(b, font, job.inputPath, job.pdfPath, job.targetDir)) == ExecutableMissing
  }

  function RunJobs(jobs: seq<Job>, b: Backend, font: string, env: Environment): RunState
    decreases |jobs|
  {
    if jobs == [] then RunState([], false)
    else Step(RunJobs(jobs[..|jobs| - 1], b, font, env), jobs[|jobs| - 1], b, font, env)
  }

  /** What `process_directory` returns, and the commands it starts. */
  function Process(sourceDir: string, base: string, b: Backend, font: string, env: Environment): (int, seq<seq<string>>) {
    var src := env.abspath(sourceDir);
    var jobs := Jobs(src, base, ExtensionOf(b), env.walk(src));
    var st := RunJobs(jobs, b, font, env);
    (if st.aborted then 0 else |jobs|, st.issued)
  }

  // ------------------------------------------------------------- lemmas

  /** The files kept are exactly those ending with the extension, in their order. */
  lemma {:induction false} MatchingSpec(files: seq<string>, ext: string)
    ensures forall f :: f in Matching(files, ext) <==> f in files && EndsWith(f, ext)
    ensures |Matching(files, ext)| <= |files|
    decreases |files|
  {
    if files != [] {
      var front := files[..|files| - 1];
      MatchingSpec(front, ext);
      assert files == front + [files[|files| - 1]];
    }
  }

  /** A directory yields one job per matching file, in order. */
  lemma {:induction false} EntryJobsSpec(src: string, base: string, ext: string, relative: string, files: seq<string>)
    ensures var js := EntryJobs(src, base, ext, relative, files);
      var ms := Matching(files, ext);
      && |js| == |ms|
      && forall i :: 0 <= i < |js| ==> js[i] == JobFor(src, base, relative, ms[i])
  {
    FilterMapSpec(files, ext, JobMaker(src, base, relative));
    MatchingSpec(files, ext);
  }

  lemma {:induction false} FilterMapSpec<B>(files: seq<string>, ext: string, job: string -> B)
    ensures |FilterMap(files, ext, job)| == |Matching(files, ext)|
    ensures forall i :: 0 <= i < |FilterMap(files, ext, job)| ==>
      FilterMap(files, ext, job)[i] == job(Matching(files, ext)[i])
    decreases |files|
  {
    if files != [] {
      var front := files[..|files| - 1];
      var f := files[|files| - 1];
      FilterMapSpec(front, ext, job);
      var r := FilterMap(front, ext, job);
      var ms := Matching(front, ext);
      if EndsWith(f, ext) {
        forall i | 0 <= i < |r| ensures (r + [job(f)])[i] == job((ms + [f])[i]) {
          assert (r + [job(f)])[i] == r[i] && (ms + [f])[i] == ms[i];
        }
      }
    }
  }

  /** A job's input path ends with its file's name, so it ends with the extension. */
  lemma {:induction false} JobInputExtension(src: string, base: string, ext: string, walk: seq<WalkEntry>)
    ensures forall j :: j in Jobs(src, base, ext, walk) ==> EndsWith(j.inputPath, ext)
    decreases |walk|
  {
    if walk != [] {
      var e := walk[|walk| - 1];
      JobInputExtension(src, base, ext, walk[..|walk| - 1]);
      EntryJobsSpec(src, base, ext, e.relative, e.files);
      MatchingSpec(e.files, ext);
      forall j | j in EntryJobs(src, base, ext, e.relative, e.files) ensures EndsWith(j.inputPath, ext) {
        var js := EntryJobs(src, base, ext, e.relative, e.files);
        var i :| 0 <= i < |js| && js[i] == j;
        var f := Matching(e.files, ext)[i];
        assert f in Matching(e.files, ext);
        SuffixTransitive(j.inputPath, f, ext);
      }
    }
  }

  lemma {:induction false} SuffixTransitive(a: string, b: string, c: string)
    requires EndsWith(a, b) && EndsWith(b, c)
    ensures EndsWith(a, c)
  {
    assert a[|a| - |c|..] == b[|b| - |c|..];
  }

  /**
   * The mirrored path: with an output root that does not end in a
   * separator, the PDF of file `f` found in directory `relative` of the
   * source is `base/<source folder>/<relative>/<f without extension>.pdf`.
   */
  lemma {:induction false} MirroredPath(src: string, base: string, relative: string, file: string)
    requires base != [] && base[|base| - 1] != '/'
    requires Basename(src) != []
    requires relative != [] && relative[0] != '/' && relative[|relative| - 1] != '/'
    requires forall i :: 0 <= i < |file| ==> file[i] != '/'
    ensures JobFor(src, base, relative, file).pdfPath
      == base + "/" + Basename(src) + "/" + relative + "/" + SplitRoot(file) + ".pdf"
    ensures JobFor(src, base, relative, file).targetDir == base + "/" + Basename(src) + "/" + relative
  {
    var n := Basename(src);
    JoinBetween(base, n);
    JoinBetween(base + "/" + n, relative);
    var name := SplitRoot(file) + ".pdf";
    PdfNameShape(file);
    JoinBetween(base + "/" + n + "/" + relative, name);
  }

  /** Joining two paths neither of which has a separator at the seam puts one there. */
  lemma {:induction false} JoinBetween(a: string, b: string)
    requires a != [] && a[|a| - 1] != '/'
    requires b != [] && b[0] != '/' && b[|b| - 1] != '/'
    ensures PyJoin(a, b) == a + "/" + b
    ensures (a + "/" + b)[|a + "/" + b| - 1] != '/'
  {
    assert (a + "/" + b)[|a + "/" + b| - 1] == b[|b| - 1];
  }

  /** The PDF name of a file without separators neither starts nor ends with one. */
  lemma {:induction false} PdfNameShape(file: string)
    requires forall i :: 0 <= i < |file| ==> file[i] != '/'
    ensures var name := SplitRoot(file) + ".pdf";
      name != [] && name[0] != '/' && name[|name| - 1] != '/'
  {
    var r := SplitRoot(file);
    var name := r + ".pdf";
    assert name[|name| - 1] == 'f';
    if r != [] {
      assert name[0] == r[0];
      assert r[0] == file[0];
    } else {
      assert name[0] == '.';
    }
  }

  /** Once a missing executable ends the run, later jobs change nothing. */
  lemma {:induction false} AbortedStays(a: seq<Job>, rest: seq<Job>, b: Backend, font: string, env: Environment)
    requires RunJobs(a, b, font, env).aborted
    ensures RunJobs(a + rest, b, font, env) == RunJobs(a, b, font, env)
    decreases |rest|
  {
    if rest == [] {
      assert a + rest == a;
    } else {
      var rest' := rest[..|rest| - 1];
      assert (a + rest)[..|a + rest| - 1] == a + rest';
      AbortedStays(a, rest', b, font, env);
    }
  }

  /** The run ends early exactly when some job's directory is made and its tool is missing. */
  lemma {:induction false} AbortSpec(jobs: seq<Job>, b: Backend, font: string, env: Environment)
    ensures RunJobs(jobs, b, font, env).aborted <==> exists i :: 0 <= i < |jobs| && Aborts(jobs[i], b, font, env)
    decreases |jobs|
  {
    if jobs != [] {
      var front := jobs[..|jobs| - 1];
      AbortSpec(front, b, font, env);
      assert forall i :: 0 <= i < |front| ==> jobs[i] == front[i];
    }
  }

  /**
   * `process_directory` returns 0 when a tool is missing; otherwise it
   * returns the number of matching files, whether or not they compiled or
   * their directory could be made.
   */
  lemma {:induction false} ProcessCount(sourceDir: string, base: string, b: Backend, font: string, env: Environment)
    ensures var src := env.abspath(sourceDir);
      var jobs := Jobs(src, base, ExtensionOf(b), env.walk(src));
      && (RunJobs(jobs, b, font, env).aborted ==> Process(sourceDir, base, b, font, env).0 == 0)
      && (!RunJobs(jobs, b, font, env).aborted ==> Process(sourceDir, base, b, font, env).0 == |jobs|)
      && (forall j :: j in jobs ==> EndsWith(j.inputPath, ExtensionOf(b)))
      && |RunJobs(jobs, b, font, env).issued| <= |jobs|
  {
    var src := env.abspath(sourceDir);
    var jobs := Jobs(src, base, ExtensionOf(b), env.walk(src));
    JobInputExtension(src, base, ExtensionOf(b), env.walk(src));
    IssuedBound(jobs, b, font, env);
  }

  lemma {:induction false} IssuedBound(jobs: seq<Job>, b: Backend, font: string, env: Environment)
    ensures |RunJobs(jobs, b, font, env).issued| <= |jobs|
    decreases |jobs|
  {
    if jobs != [] {
      IssuedBound(jobs[..|jobs| - 1], b, font, env);
    }
  }

  // ------------------------------------------------------------ the methods

  /** The state of the file loop of one walk entry after its first `k` files. */
  ghost predicate EntryProgress(src: string, base: string, b: Backend, font: string, env: Environment,
                                e: WalkEntry, done: seq<Job>, k: nat, count: nat, commands: seq<seq<string>>)
  {
    && k <= |e.files|
    && var js := done + EntryJobs(src, base, ExtensionOf(b), e.relative, e.files[..k]);
    && RunJobs(js, b, font, env) == RunState(commands, false)
    && count == |js|
  }

  /** The body of the file loop: count a matching file, make its directory and run its command. */
  method FileStep(src: string, base: string, b: Backend, font: string, env: Environment,
                  e: WalkEntry, ghost done: seq<Job>, k: nat, count: nat, commands: seq<seq<string>>)
    returns (count': nat, commands': seq<seq<string>>, aborted: bool)
    requires k < |e.files| && EntryProgress(src, base, b, font, env, e, done, k, count, commands)
    ensures aborted ==>
      RunJobs(done + EntryJobs(src, base, ExtensionOf(b), e.relative, e.files), b, font, env) == RunState(commands', true)
    ensures !aborted ==> EntryProgress(src, base, b, font, env, e, done, k + 1, count', commands')
  {
    var ext := ExtensionOf(b);
    ghost var before := done + EntryJobs(src, base, ext, e.relative, e.files[..k]);
    var file := e.files[k];
    if EndsWith(file, ext) {
      var job := JobFor(src, base, e.relative, file);
      assert done + EntryJobs(src, base, ext, e.relative, e.files[..k + 1]) == before + [job] by {
        EntryJobsStep(src, base, ext, e.relative, e.files, k);
        ConcatAssoc(done, EntryJobs(src, base, ext, e.relative, e.files[..k]), [job]);
      }
      RunJobsSnoc(before, job, b, font, env);
      count', commands', aborted := RunJob(b, font, env, job, count, commands);
      if aborted {
        AbortAt(src, base, b, font, env, e, done, k);
      }
    } else {
      assert done + EntryJobs(src, base, ext, e.relative, e.files[..k + 1]) == before by {
        EntryJobsStep(src, base, ext, e.relative, e.files, k);
        assert EntryJobs(src, base, ext, e.relative, e.files[..k]) + [] == EntryJobs(src, base, ext, e.relative, e.files[..k]);
      }
      count', commands', aborted := count, commands, false;
    }
  }

  /** The compile of one matching file. */
  method RunJob(b: Backend, font: string, env: Environment, job: Job, count: nat, commands: seq<seq<string>>)
    returns (count': nat, commands': seq<seq<string>>, aborted: bool)
    ensures count' == count + 1
    ensures Step(RunState(commands, false), job, b, font, env) == RunState(commands', aborted)
  {
    count', commands', aborted := count + 1, commands, false;
    if env.makedirsOk(job.targetDir) {
      var command := Command(b, font, job.inputPath, job.pdfPath, job.targetDir);
      commands' := commands' + [command];
      if env.run(command) == ExecutableMissing {
        aborted := true;
      }
    }
  }

  /** One more file of a directory adds its job when it matches. */
  lemma {:induction false} EntryJobsStep(src: string, base: string, ext: string, relative: string, files: seq<string>, k: nat)
    requires k < |files|
    ensures EntryJobs(src, base, ext, relative, files[..k + 1])
      == EntryJobs(src, base, ext, relative, files[..k])
        + (if EndsWith(files[k], ext) then [JobFor(src, base, relative, files[k])] else [])
  {
    TakeStep(files, k);
  }

  /** The `for file in files` loop of one walk entry. */
  method ProcessEntry(src: string, base: string, b: Backend, font: string, env: Environment,
                      e: WalkEntry, ghost done: seq<Job>, count: nat, commands: seq<seq<string>>)
    returns (count': nat, commands': seq<seq<string>>, aborted: bool)
    requires RunJobs(done, b, font, env) == RunState(commands, false) && count == |done|
    ensures var all := done + EntryJobs(src, base, ExtensionOf(b), e.relative, e.files);
      && (aborted ==> RunJobs(all, b, font, env) == RunState(commands', true))
      && (!aborted ==> RunJobs(all, b, font, env) == RunState(commands', false) && count' == |all|)
  {
    count', commands' := count, commands;
    assert e.files[..0] == [] && done + [] == done;
    var k := 0;
    while k < |e.files|
      invariant EntryProgress(src, base, b, font, env, e, done, k, count', commands')
    {
      count', commands', aborted := FileStep(src, base, b, font, env, e, done, k, count', commands');
      if aborted {
        return;
      }
      k := k + 1;
    }
    TakeAll(e.files);
    aborted := false;
  }

  lemma {:induction false} RunJobsSnoc(js: seq<Job>, job: Job, b: Backend, font: string, env: Environment)
    ensures RunJobs(js + [job], b, font, env) == Step(RunJobs(js, b, font, env), job, b, font, env)
  {
    assert (js + [job])[..|js|] == js;
  }

  /** The jobs of a directory split where its file list is split. */
  lemma {:induction false} EntryJobsConcat(src: string, base: string, ext: string, relative: string, f1: seq<string>, f2: seq<string>)
    ensures EntryJobs(src, base, ext, relative, f1 + f2)
      == EntryJobs(src, base, ext, relative, f1) + EntryJobs(src, base, ext, relative, f2)
    decreases |f2|
  {
    if f2 == [] {
      assert f1 + f2 == f1;
    } else {
      var f2' := f2[..|f2| - 1];
      assert (f1 + f2)[..|f1 + f2| - 1] == f1 + f2';
      assert (f1 + f2)[|f1 + f2| - 1] == f2[|f2| - 1];
      EntryJobsConcat(src, base, ext, relative, f1, f2');
      var last := f2[|f2| - 1];
      var tail := if EndsWith(last, ext) then [JobFor(src, base, relative, last)] else [];
      ConcatAssoc(EntryJobs(src, base, ext, relative, f1), EntryJobs(src, base, ext, relative, f2'), tail);
    }
  }

  /** A run that ends at the `k`-th file of a directory has ended for the whole walk entry. */
  lemma {:induction false} AbortAt(src: string, base: string, b: Backend, font: string, env: Environment,
                                   e: WalkEntry, done: seq<Job>, k: nat)
    requires k < |e.files|
    requires RunJobs(done + EntryJobs(src, base, ExtensionOf(b), e.relative, e.files[..k + 1]), b, font, env).aborted
    ensures RunJobs(done + EntryJobs(src, base, ExtensionOf(b), e.relative, e.files), b, font, env)
      == RunJobs(done + EntryJobs(src, base, ExtensionOf(b), e.relative, e.files[..k + 1]), b, font, env)
  {
    var ext := ExtensionOf(b);
    var head := EntryJobs(src, base, ext, e.relative, e.files[..k + 1]);
    var tail := EntryJobs(src, base, ext, e.relative, e.files[k + 1..]);
    assert e.files == e.files[..k + 1] + e.files[k + 1..];
    EntryJobsConcat(src, base, ext, e.relative, e.files[..k + 1], e.files[k + 1..]);
    ConcatAssoc(done, head, tail);
    AbortedStays(done + head, tail, b, font, env);
  }

  /** The jobs of a walk split where the walk is split. */
  lemma {:induction false} JobsConcat(src: string, base: string, ext: string, w1: seq<WalkEntry>, w2: seq<WalkEntry>)
    ensures Jobs(src, base, ext, w1 + w2) == Jobs(src, base, ext, w1) + Jobs(src, base, ext, w2)
    decreases |w2|
  {
    if w2 == [] {
      assert w1 + w2 == w1;
    } else {
      var w2' := w2[..|w2| - 1];
      var last := w2[|w2| - 1];
      assert (w1 + w2)[..|w1 + w2| - 1] == w1 + w2';
      assert (w1 + w2)[|w1 + w2| - 1] == last;
      JobsConcat(src, base, ext, w1, w2');
      ConcatAssoc(Jobs(src, base, ext, w1), Jobs(src, base, ext, w2'), EntryJobs(src, base, ext, last.relative, last.files));
    }
  }

  /** A run that ends inside the `i`-th walk entry has ended for the whole walk. */
  lemma {:induction false} WalkAbortAt(src: string, base: string, b: Backend, font: string, env: Environment,
                                       walk: seq<WalkEntry>, i: nat)
    requires i < |walk|
    requires RunJobs(Jobs(src, base, ExtensionOf(b), walk[..i + 1]), b, font, env).aborted
    ensures RunJobs(Jobs(src, base, ExtensionOf(b), walk), b, font, env)
      == RunJobs(Jobs(src, base, ExtensionOf(b), walk[..i + 1]), b, font, env)
  {
    var ext := ExtensionOf(b);
    assert walk == walk[..i + 1] + walk[i + 1..];
    JobsConcat(src, base, ext, walk[..i + 1], walk[i + 1..]);
    AbortedStays(Jobs(src, base, ext, walk[..i + 1]), Jobs(src, base, ext, walk[i + 1..]), b, font, env);
  }

  /** `process_directory`: the walk loop, returning 0 as soon as a tool is missing. */
  method ProcessDirectory(sourceDir: string, base: string, b: Backend, font: string, env: Environment)
    returns (count: int, commands: seq<seq<string>>)
    ensures (count, commands) == Process(sourceDir, base, b, font, env)
  {
    var src := env.abspath(sourceDir);
    var walk := env.walk(src);
    var ext := ExtensionOf(b);
    var found: nat := 0;
    commands := [];
    var i := 0;
    while i < |walk|
      invariant 0 <= i <= |walk|
      invariant RunJobs(Jobs(src, base, ext, walk[..i]), b, font, env) == RunState(commands, false)
      invariant found == |Jobs(src, base, ext, walk[..i])|
    {
      ghost var done := Jobs(src, base, ext, walk[..i]);
      assert Jobs(src, base, ext, walk[..i + 1]) == done + EntryJobs(src, base, ext, walk[i].relative, walk[i].files) by {
        TakeStep(walk, i);
      }
      var aborted;
      found, commands, aborted := ProcessEntry(src, base, b, font, env, walk[i], done, found, commands);
      if aborted {
        WalkAbortAt(src, base, b, font, env, walk, i);
        return 0, commands;
      }
      i := i + 1;
    }
    TakeAll(walk);
    count := found;
  }

  // ---------------------------------------------------------- handle_auto

  /** An entry of the parent directory and whether `os.path.isdir` holds for it. */
  datatype DirEntry = DirEntry(name: string, isDir: bool)

  /** The keys of `compiler_map`, in its order. */
  const CompilerMap: seq<Backend> := [Tex, Markdown, Rst, Typst]

  function Keywords(b: Backend): seq<string> {
    match b
    case Tex => ["latex", "tex"]
    case Markdown => ["markdown", "md"]
    case Rst => ["rst", "rest"]
    case Typst => ["typst", "typ"]
  }

  /** The position of a backend in `compiler_map`. */
  function Rank(b: Backend): (r: nat)
    ensures r < |CompilerMap| && CompilerMap[r] == b
  {
    match b
    case Tex => 0
    case Markdown => 1
    case Rst => 2
    case Typst => 3
  }

  /** Some keyword of the set is a substring of the lower-cased name. */
  predicate Mentions(lower: string, keywords: seq<string>) {
    exists i :: 0 <= i < |keywords| && Contains(lower, keywords[i])
  }

  function MatchFrom(lower: string, k: nat): Option<Backend>
    requires k <= |CompilerMap|
    decreases |CompilerMap| - k
  {
    if k == |CompilerMap| then None
    else if Mentions(lower, Keywords(CompilerMap[k])) then Some(CompilerMap[k])
    else MatchFrom(lower, k + 1)
  }

  /** The handler `handle_auto` picks for a sub-directory name, if any. */
  function Match(name: string): Option<Backend> {
    MatchFrom(ToLower(name), 0)
  }

  /**
   * A name is handed to the first backend, in map order, one of whose
   * keywords occurs in the lower-cased name; no backend is chosen when no
   * keyword occurs.
   */
  lemma {:induction false} MatchSpec(name: string)
    ensures Match(name).Some? ==> Mentions(ToLower(name), Keywords(Match(name).value))
    ensures Match(name).Some? ==> forall c :: Rank(c) < Rank(Match(name).value) ==> !Mentions(ToLower(name), Keywords(c))
    ensures Match(name).None? <==> forall c :: !Mentions(ToLower(name), Keywords(c))
  {
    MatchFromSpec(ToLower(name), 0);
  }

  lemma {:induction false} MatchFromSpec(lower: string, k: nat)
    requires k <= |CompilerMap|
    ensures MatchFrom(lower, k).Some? ==> Mentions(lower, Keywords(MatchFrom(lower, k).value))
    ensures MatchFrom(lower, k).Some? ==> k <= Rank(MatchFrom(lower, k).value)
    ensures MatchFrom(lower, k).Some? ==>
      forall c :: k <= Rank(c) < Rank(MatchFrom(lower, k).value) ==> !Mentions(lower, Keywords(c))
    ensures MatchFrom(lower, k).None? <==> forall c :: k <= Rank(c) ==> !Mentions(lower, Keywords(c))
    decreases |CompilerMap| - k
  {
    if k < |CompilerMap| {
      MatchFromSpec(lower, k + 1);
      var c0 := CompilerMap[k];
      assert Rank(c0) == k;
      forall c | Rank(c) == k ensures c == c0 { }
    }
  }

  /**
   * TeX comes first in the map: a name whose lower-cased form contains
   * `tex` goes to TeX whatever other keywords it contains (`Markdown_Tex`,
   * or `Context` by mere substring).
   */
  lemma {:induction false} TexFirst(name: string)
    requires Contains(ToLower(name), "tex")
    ensures Match(name) == Some(Tex)
  {
    assert Keywords(Tex)[1] == "tex";
    assert Mentions(ToLower(name), Keywords(CompilerMap[0]));
  }

  /** The `(path, handler)` pairs `handle_auto` runs, in the listing's order. */
  function Dispatched(parentDir: string, entries: seq<DirEntry>): seq<(string, Backend)>
    decreases |entries|
  {
    if entries == [] then []
    else
      var e := entries[|entries| - 1];
      Dispatched(parentDir, entries[..|entries| - 1])
        + (if e.isDir && Match(e.name).Some? then [(PyJoin(parentDir, e.name), Match(e.name).value)] else [])
  }

  /**
   * Every directory entry with a matching name is run once, by the handler
   * its name selects, and nothing else is run.
   */
  lemma {:induction false} DispatchedSpec(parentDir: string, entries: seq<DirEntry>)
    ensures |Dispatched(parentDir, entries)| <= |entries|
    ensures forall r :: r in Dispatched(parentDir, entries) <==>
      exists e :: e in entries && e.isDir && Match(e.name).Some? && r == (PyJoin(parentDir, e.name), Match(e.name).value)
  {
    DispatchedLength(parentDir, entries);
    DispatchedMembers(parentDir, entries);
  }

  lemma {:induction false} DispatchedLength(parentDir: string, entries: seq<DirEntry>)
    ensures |Dispatched(parentDir, entries)| <= |entries|
    decreases |entries|
  {
    if entries != [] {
      DispatchedLength(parentDir, entries[..|entries| - 1]);
    }
  }

  lemma {:induction false} DispatchedMembers(parentDir: string, entries: seq<DirEntry>)
    ensures forall r :: r in Dispatched(parentDir, entries) <==>
      exists e :: e in entries && e.isDir && Match(e.name).Some? && r == (PyJoin(parentDir, e.name), Match(e.name).value)
    decreases |entries|
  {
    if entries != [] {
      var front := entries[..|entries| - 1];
      var e := entries[|entries| - 1];
      DispatchedMembers(parentDir, front);
      SnocSelf(entries);
      forall r | r in Dispatched(parentDir, entries)
        ensures exists e' :: e' in entries && e'.isDir && Match(e'.name).Some? && r == (PyJoin(parentDir, e'.name), Match(e'.name).value)
      {
        if r !in Dispatched(parentDir, front) {
          assert e in entries;
        }
      }
    }
  }


  /** The duration and file count `timing_summary` keeps for a log name. */
  type Timing = (real, int)

  /** `timing_summary`: its values, and its keys in insertion order. */
  datatype TimingSummary = TimingSummary(values: map<string, Timing>, order: seq<string>)

  /** Storing a handler's result: a new name is appended to the order, an old one keeps its place. */
  function Record(t: TimingSummary, name: string, value: Timing): TimingSummary {
    TimingSummary(t.values[name := value], if name in t.values then t.order else t.order + [name])
  }

  function RunTiming(run: (string, Backend), base: string, font: string, env: Environment): Timing {
    (env.elapsed(run.0), Process(run.0, base, run.1, font, env).0)
  }

  /** The log name and timing each handler run stores, in order. */
  function Timings(runs: seq<(string, Backend)>, base: string, font: string, env: Environment): seq<(string, Timing)> {
    seq(|runs|, i requires 0 <= i < |runs| => (LogName(runs[i].1), RunTiming(runs[i], base, font, env)))
  }

  function Summarize(records: seq<(string, Timing)>): TimingSummary
    decreases |records|
  {
    if records == [] then TimingSummary(map[], [])
    else
      var r := records[|records| - 1];
      Record(Summarize(records[..|records| - 1]), r.0, r.1)
  }

  predicate NoDuplicates(s: seq<string>) {
    forall i, j :: 0 <= i < j < |s| ==> s[i] != s[j]
  }

  /** The summary lists each log name once, in order of first use, and holds exactly the names stored. */
  lemma {:induction false} SummaryKeys(records: seq<(string, Timing)>)
    ensures var t := Summarize(records);
      && NoDuplicates(t.order)
      && (forall n :: n in t.order <==> n in t.values)
      && (forall n :: n in t.values <==> exists i :: 0 <= i < |records| && records[i].0 == n)
    decreases |records|
  {
    if records != [] {
      var front := records[..|records| - 1];
      SummaryKeys(front);
      assert forall i :: 0 <= i < |front| ==> records[i] == front[i];
    }
  }

  /** For each name the summary keeps the timing stored last under it. */
  lemma {:induction false} SummaryLastWins(records: seq<(string, Timing)>, n: string)
    requires n in Summarize(records).values
    ensures exists i: nat :: LastRecordOf(records, n, i) && Summarize(records).values[n] == records[i].1
    decreases |records|
  {
    var last := |records| - 1;
    var front := records[..last];
    if records[last].0 == n {
      assert LastRecordOf(records, n, last);
    } else {
      SummaryLastWins(front, n);
      var i: nat :| LastRecordOf(front, n, i) && Summarize(front).values[n] == front[i].1;
      assert records[i] == front[i];
      assert LastRecordOf(records, n, i);
    }
  }

  /** Record `i` is the last one stored under `n`. */
  predicate LastRecordOf(records: seq<(string, Timing)>, n: string, i: nat) {
    && i < |records| && records[i].0 == n
    && forall j :: i < j < |records| ==> records[j].0 != n
  }

  lemma {:induction false} TimingsSnoc(runs: seq<(string, Backend)>, r: (string, Backend), base: string, font: string, env: Environment)
    ensures Timings(runs + [r], base, font, env)
      == Timings(runs, base, font, env) + [(LogName(r.1), RunTiming(r, base, font, env))]
  {
    var t := Timings(runs + [r], base, font, env);
    assert forall i :: 0 <= i < |runs| ==> (runs + [r])[i] == runs[i];
  }

  /** The average a summary line shows: none when the handler compiled no file. */
  datatype Average = PerFile(seconds: real) | NoFiles

  function AverageOf(duration: real, count: int): Average {
    if count > 0 then PerFile(duration / count as real) else NoFiles
  }

  /** A count of zero is never divided by; otherwise the average times the count is the duration. */
  lemma {:induction false} AverageSpec(duration: real, count: int)
    ensures AverageOf(duration, count).NoFiles? <==> count <= 0
    ensures AverageOf(duration, count).PerFile? ==> AverageOf(duration, count).seconds * count as real == duration
  {
  }

  datatype SummaryLine = SummaryLine(name: string, duration: real, average: Average)

  /** What `handle_auto` reports at its end: a hint when nothing was recognised, the timing summary otherwise. */
  datatype AutoReport = NothingRecognised | Summary(lines: seq<SummaryLine>)

  function Lines(order: seq<string>, values: map<string, Timing>): seq<SummaryLine>
    decreases |order|
  {
    if order == [] then []
    else
      var n := order[|order| - 1];
      Lines(order[..|order| - 1], values)
        + (if n in values then [SummaryLine(n, values[n].0, AverageOf(values[n].0, values[n].1))] else [])
  }

  function Report(found: nat, t: TimingSummary): AutoReport {
    if found == 0 then NothingRecognised else Summary(Lines(t.order, t.values))
  }

  /** `handle_auto` on one listing of the parent directory. */
  function Auto(parentDir: string, base: string, font: string, entries: seq<DirEntry>, env: Environment): AutoReport {
    var runs := Dispatched(parentDir, entries);
    Report(|runs|, Summarize(Timings(runs, base, font, env)))
  }

  /** Without a directory whose name mentions a keyword, `handle_auto` only prints the hint. */
  lemma {:induction false} NothingRecognisedSpec(parentDir: string, base: string, font: string, entries: seq<DirEntry>, env: Environment)
    ensures Auto(parentDir, base, font, entries, env).NothingRecognised? <==>
      forall e :: e in entries && e.isDir ==> Match(e.name).None?
  {
    var runs := Dispatched(parentDir, entries);
    if runs != [] {
      DispatchedSpec(parentDir, entries);
      assert runs[0] in runs;
    } else {
      forall e | e in entries && e.isDir ensures Match(e.name).None? {
        if Match(e.name).Some? {
          DispatchedNonEmpty(parentDir, entries, e);
        }
      }
    }
  }

  lemma {:induction false} DispatchedNonEmpty(parentDir: string, entries: seq<DirEntry>, e: DirEntry)
    requires e in entries && e.isDir && Match(e.name).Some?
    ensures Dispatched(parentDir, entries) != []
  {
    DispatchedSpec(parentDir, entries);
    assert (PyJoin(parentDir, e.name), Match(e.name).value) in Dispatched(parentDir, entries);
  }

  /** The keyword loops of `handle_auto` for one name. */
  method FindHandler(lower: string) returns (m: Option<Backend>)
    ensures m == MatchFrom(lower, 0)
  {
    var k := 0;
    while k < |CompilerMap|
      invariant 0 <= k <= |CompilerMap|
      invariant MatchFrom(lower, k) == MatchFrom(lower, 0)
    {
      var keywords := Keywords(CompilerMap[k]);
      var matched := false;
      var j := 0;
      while j < |keywords|
        invariant 0 <= j <= |keywords|
        invariant matched ==> Mentions(lower, keywords)
        invariant !matched ==> forall t :: 0 <= t < j ==> !Contains(lower, keywords[t])
      {
        if Contains(lower, keywords[j]) {
          matched := true;
          break;
        }
        j := j + 1;
      }
      if matched {
        return Some(CompilerMap[k]);
      }
      k := k + 1;
    }
    return None;
  }

  /** `handle_auto`: the handlers run, and the report printed at the end. */
  method HandleAuto(parentDir: string, base: string, font: string, entries: seq<DirEntry>, env: Environment)
    returns (runs: seq<(string, Backend)>, report: AutoReport)
    ensures runs == Dispatched(parentDir, entries)
    ensures report == Auto(parentDir, base, font, entries, env)
  {
    var summary := TimingSummary(map[], []);
    var foundDirs: nat := 0;
    runs := [];
    var i := 0;
    while i < |entries|
      invariant 0 <= i <= |entries|
      invariant runs == Dispatched(parentDir, entries[..i])
      invariant summary == Summarize(Timings(runs, base, font, env))
      invariant foundDirs == |runs|
    {
      TakeStep(entries, i);
      var entry := entries[i];
      if entry.isDir {
        var handler := FindHandler(ToLower(entry.name));
        if handler.Some? {
          foundDirs := foundDirs + 1;
          var path := PyJoin(parentDir, entry.name);
          var fileCount, _ := ProcessDirectory(path, base, handler.value, font, env);
          summary := Record(summary, LogName(handler.value), (env.elapsed(path), fileCount));
          TimingsSnoc(runs, (path, handler.value), base, font, env);
          runs := runs + [(path, handler.value)];
        }
      }
      i := i + 1;
    }
    TakeAll(entries);
    report := Report(foundDirs, summary);
  }
}
