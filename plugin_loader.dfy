/**
 * The plugin loader of the query formatters (`PluginLoader<T>`). A plugin
 * is a shared library whose file stem contains the loader's suffix (for
 * example `md_month_formatter.so` for the suffix `_month_formatter`); the
 * text of the stem before the last occurrence of the suffix is the format
 * name, and the library must export `create_<format><suffix>`. Loaded
 * factories are kept in a map from format name to the library and its
 * factory function.
 *
 * The file system and the dynamic linker are outside the model: `Host`
 * says which paths are regular files, which libraries open, which
 * symbols they export, and what a directory lists. The POSIX build is
 * modelled, whose libraries end in `.so`.
 */
module PluginLoading {
  import opened Strings
  import opened PathBuilding

  /** The extension the POSIX build accepts. */
  const LibraryExtension := ".so"

  /**
   * What the loader asks of its environment. `directory` is `None` for a
   * path that does not exist or is not a directory, and otherwise lists
   * the paths of its entries in the order the iterator yields them.
   */
  datatype Host = Host(
    isRegularFile: string -> bool,
    opens: string -> bool,
    exports: (string, string) -> bool,
    directory: string -> Option<seq<string>>)

  /** A registered factory: the library it lives in and the name of its creating function. */
  datatype Factory = Factory(library: string, symbol: string)

  /** How one call of `loadPlugin` ends. */
  datatype LoadOutcome =
    | NotAPluginFile
    | WrongExtension
    | OpenFailed
    | SymbolMissing
    | Loaded(format: string, factory: Factory)

  /** `path::stem` of a path. */
  function FileStem(p: string): string {
    Stem(FileName(p))
  }

  /** `path::extension` of a path. */
  function FileExtension(p: string): string {
    Extension(FileName(p))
  }

  /** `getFormatNameFromFile` on a stem: the text before the last occurrence of the suffix. */
  function FormatName(suffix: string, stem: string): string {
    match RFind(stem, suffix)
    case None => stem
    case Some(p) => stem[..p]
  }

  /** The factory function a plugin file must export. */
  function Symbol(suffix: string, path: string): string {
    "create_" + FormatName(suffix, FileStem(path)) + suffix
  }

  /** The first check of `loadPlugin`: a regular file whose stem contains the suffix. */
  predicate Admitted(suffix: string, host: Host, path: string) {
    host.isRegularFile(path) && RFind(FileStem(path), suffix).Some?
  }

  /** `loadPlugin`, check by check. */
  function Load(suffix: string, host: Host, path: string): LoadOutcome {
    if !Admitted(suffix, host, path) then NotAPluginFile
    else if FileExtension(path) != LibraryExtension then WrongExtension
    else if !host.opens(path) then OpenFailed
    else if !host.exports(path, Symbol(suffix, path)) then SymbolMissing
    else Loaded(FormatName(suffix, FileStem(path)), Factory(path, Symbol(suffix, path)))
  }

  /** The factory map after one load: a successful load sets its format's entry. */
  function Register(factories: map<string, Factory>, o: LoadOutcome): map<string, Factory> {
    if o.Loaded? then factories[o.format := o.factory] else factories
  }

  /** The outcome of loading each path. */
  function Outcomes(suffix: string, host: Host, paths: seq<string>): (r: seq<LoadOutcome>)
    ensures |r| == |paths|
  {
    seq(|paths|, i requires 0 <= i < |paths| => Load(suffix, host, paths[i]))
  }

  /** The factory map after a series of loads, applied in order. */
  function RegisterAll(factories: map<string, Factory>, outcomes: seq<LoadOutcome>): map<string, Factory>
    decreases |outcomes|
  {
    if outcomes == [] then factories
    else Register(RegisterAll(factories, outcomes[..|outcomes| - 1]), outcomes[|outcomes| - 1])
  }

  /** `loadPluginsFromFiles`: the paths are loaded in order. */
  function LoadAll(suffix: string, host: Host, factories: map<string, Factory>, paths: seq<string>): map<string, Factory> {
    RegisterAll(factories, Outcomes(suffix, host, paths))
  }

  /** The entries of a directory that are regular files. */
  function RegularFiles(host: Host, entries: seq<string>): seq<string>
    decreases |entries|
  {
    if entries == [] then []
    else
      var last := entries[|entries| - 1];
      RegularFiles(host, entries[..|entries| - 1]) + (if host.isRegularFile(last) then [last] else [])
  }

  /** `loadPluginsFromDirectory`: a missing directory loads nothing; otherwise its regular files are loaded. */
  function LoadDirectory(suffix: string, host: Host, factories: map<string, Factory>, dir: string): map<string, Factory> {
    match host.directory(dir)
    case None => factories
    case Some(entries) => LoadAll(suffix, host, factories, RegularFiles(host, entries))
  }

  // ------------------------------------------------------------- lemmas

  /**
   * When the stem contains the suffix, the format name followed by the
   * suffix starts the stem and the suffix does not occur after that point;
   * otherwise the stem itself is the format name.
   */
  lemma {:induction false} FormatNameSpec(suffix: string, stem: string)
    ensures Contains(stem, suffix) ==>
      StartsWith(stem, FormatName(suffix, stem) + suffix) &&
      forall j: nat :: |FormatName(suffix, stem)| < j ==> !OccursAt(stem, suffix, j)
    ensures !Contains(stem, suffix) ==> FormatName(suffix, stem) == stem
  {
    var o := RFind(stem, suffix);
    if o.Some? {
      var p := o.value;
      var r := stem[..p];
      assert FormatName(suffix, stem) == r;
      assert stem[..|r + suffix|] == r + suffix by {
        assert stem[p..p + |suffix|] == suffix;
        assert stem[..p + |suffix|] == stem[..p] + stem[p..p + |suffix|];
      }
    }
  }

  /** A stem made of a format name and the suffix names that format, whatever the name contains. */
  lemma {:induction false} FormatNameOfPlugin(suffix: string, name: string)
    ensures FormatName(suffix, name + suffix) == name
  {
    var s := name + suffix;
    assert s[|name|..|name| + |suffix|] == suffix;
    assert OccursAt(s, suffix, |name|);
    var o := RFind(s, suffix);
    assert o.Some?;
    assert o.value == |name|;
    assert s[..|name|] == name;
  }

  /** A file `<dir>/<name><suffix>.so` has the stem `<name><suffix>`, the extension `.so` and the format `name`. */
  lemma {:induction false} PluginFileName(dir: string, name: string, suffix: string)
    requires NoSeparator(name + suffix) && name + suffix != []
    requires forall i :: 0 <= i < |name + suffix| ==> (name + suffix)[i] != '.'
    ensures FileStem(Join(dir, name + suffix + LibraryExtension)) == name + suffix
    ensures FileExtension(Join(dir, name + suffix + LibraryExtension)) == LibraryExtension
    ensures FormatName(suffix, FileStem(Join(dir, name + suffix + LibraryExtension))) == name
  {
    var w := name + suffix;
    var f := w + LibraryExtension;
    assert f[|w|] == '.' && f[|w| + 1] == 's' && f[|w| + 2] == 'o';
    assert NoSeparator(f) by {
      forall i | 0 <= i < |f| ensures f[i] != '/' {
        if i < |w| { assert f[i] == w[i]; }
      }
    }
    JoinFileName(dir, f);
    LibraryExtensionStart(w);
    assert f[..|w|] == w && f[|w|..] == LibraryExtension;
    FormatNameOfPlugin(suffix, name);
  }

  /** In a dot-free name followed by `.so`, the extension starts at that dot. */
  lemma {:induction false} LibraryExtensionStart(w: string)
    requires w != [] && forall i :: 0 <= i < |w| ==> w[i] != '.'
    ensures ExtensionStart(w + LibraryExtension) == Some(|w|)
  {
    var f := w + LibraryExtension;
    assert f[|w|] == '.' && f[|w| + 1] == 's' && f[|w| + 2] == 'o';
    assert |f| > 2;
    assert LastIndexOf(f, '.') == Some(|w|);
  }

  /** A file that is not regular, or whose stem lacks the suffix, is turned away before anything is opened. */
  lemma {:induction false} SuffixFilter(suffix: string, host: Host, path: string)
    ensures !host.isRegularFile(path) || !Contains(FileStem(path), suffix) ==> Load(suffix, host, path) == NotAPluginFile
    ensures Load(suffix, host, path) == NotAPluginFile ==> !host.isRegularFile(path) || !Contains(FileStem(path), suffix)
  {
    AdmittedSpec(suffix, host, path);
    LoadRejects(suffix, host, path);
  }

  lemma {:induction false} AdmittedSpec(suffix: string, host: Host, path: string)
    ensures Admitted(suffix, host, path) <==> host.isRegularFile(path) && Contains(FileStem(path), suffix)
  {
    var o := RFind(FileStem(path), suffix);
    assert o.Some? <==> Contains(FileStem(path), suffix);
  }

  /** When a load succeeds, and with what. */
  lemma {:induction false} LoadShape(suffix: string, host: Host, path: string)
    ensures Load(suffix, host, path).Loaded? <==>
      Admitted(suffix, host, path) && FileExtension(path) == LibraryExtension && host.opens(path) && host.exports(path, Symbol(suffix, path))
    ensures Load(suffix, host, path).Loaded? ==>
      Load(suffix, host, path) == Loaded(FormatName(suffix, FileStem(path)), Factory(path, Symbol(suffix, path)))
  {
  }

  /** An entry that is not a regular file leaves the factories as they are. */
  lemma {:induction false} SkipIrregular(suffix: string, host: Host, factories: map<string, Factory>, entries: seq<string>, i: nat)
    requires i < |entries| && !host.isRegularFile(entries[i])
    ensures LoadAll(suffix, host, factories, entries[..i + 1]) == LoadAll(suffix, host, factories, entries[..i])
  {
    LoadAllStep(suffix, host, factories, entries, i);
    LoadRejects(suffix, host, entries[i]);
  }

  lemma {:induction false} LoadRejects(suffix: string, host: Host, path: string)
    ensures Load(suffix, host, path) == NotAPluginFile <==> !Admitted(suffix, host, path)
  {
  }

  /**
   * A load succeeds exactly when the file is regular, its stem has the
   * suffix, its extension is `.so`, it opens and it exports the creating
   * function; the format is the stem's text before the suffix.
   */
  lemma {:induction false} LoadSpec(suffix: string, host: Host, path: string)
    ensures Load(suffix, host, path).Loaded? <==>
      host.isRegularFile(path) && Contains(FileStem(path), suffix) && FileExtension(path) == LibraryExtension &&
      host.opens(path) && host.exports(path, Symbol(suffix, path))
    ensures Load(suffix, host, path).Loaded? ==>
      StartsWith(FileStem(path), Load(suffix, host, path).format + suffix) &&
      Load(suffix, host, path).factory == Factory(path, "create_" + Load(suffix, host, path).format + suffix)
  {
    FormatNameSpec(suffix, FileStem(path));
  }

  /** A second load of the same format replaces the first: the map is as if only the second had been loaded. */
  lemma {:induction false} ReloadReplaces(factories: map<string, Factory>, first: LoadOutcome, second: LoadOutcome)
    requires first.Loaded? && second.Loaded? && first.format == second.format
    ensures Register(Register(factories, first), second) == Register(factories, second)
    ensures Register(Register(factories, first), second)[first.format] == second.factory
  {
    assert Register(Register(factories, first), second).Keys == Register(factories, second).Keys;
  }

  /** Loading one more path appends its outcome. */
  lemma {:induction false} OutcomesSnoc(suffix: string, host: Host, paths: seq<string>, path: string)
    ensures Outcomes(suffix, host, paths + [path]) == Outcomes(suffix, host, paths) + [Load(suffix, host, path)]
  {
    var l := Outcomes(suffix, host, paths + [path]);
    var r := Outcomes(suffix, host, paths) + [Load(suffix, host, path)];
    forall i | 0 <= i < |l| ensures l[i] == r[i] {
      assert (paths + [path])[i] == if i < |paths| then paths[i] else path;
    }
  }

  /** Loading one more path registers its outcome on top of the earlier ones. */
  lemma {:induction false} LoadAllSnoc(suffix: string, host: Host, factories: map<string, Factory>, paths: seq<string>, path: string)
    ensures LoadAll(suffix, host, factories, paths + [path]) == Register(LoadAll(suffix, host, factories, paths), Load(suffix, host, path))
  {
    OutcomesSnoc(suffix, host, paths, path);
    var all := Outcomes(suffix, host, paths) + [Load(suffix, host, path)];
    assert all[..|all| - 1] == Outcomes(suffix, host, paths);
  }

  /** Loading the paths up to `i` included adds the outcome of path `i`. */
  lemma {:induction false} LoadAllStep(suffix: string, host: Host, factories: map<string, Factory>, paths: seq<string>, i: nat)
    requires i < |paths|
    ensures LoadAll(suffix, host, factories, paths[..i + 1]) == Register(LoadAll(suffix, host, factories, paths[..i]), Load(suffix, host, paths[i]))
  {
    assert paths[..i + 1] == paths[..i] + [paths[i]];
    LoadAllSnoc(suffix, host, factories, paths[..i], paths[i]);
  }

  /** After a series of loads, a format is available exactly when it was before or some load registered it. */
  lemma {:induction false} RegisterAllAvailable(factories: map<string, Factory>, outcomes: seq<LoadOutcome>, name: string)
    ensures name in RegisterAll(factories, outcomes) <==>
      name in factories || exists i :: 0 <= i < |outcomes| && outcomes[i].Loaded? && outcomes[i].format == name
    decreases |outcomes|
  {
    if outcomes != [] {
      var front := outcomes[..|outcomes| - 1];
      RegisterAllAvailable(factories, front, name);
      if exists i :: 0 <= i < |outcomes| && outcomes[i].Loaded? && outcomes[i].format == name {
        var i :| 0 <= i < |outcomes| && outcomes[i].Loaded? && outcomes[i].format == name;
        if i < |front| {
          assert front[i] == outcomes[i];
        }
      }
      if exists i :: 0 <= i < |front| && front[i].Loaded? && front[i].format == name {
        var i :| 0 <= i < |front| && front[i].Loaded? && front[i].format == name;
        assert outcomes[i] == front[i];
      }
    }
  }

  /** The factory kept for a format is the one of the last load that registered it. */
  lemma {:induction false} LastLoadWins(factories: map<string, Factory>, outcomes: seq<LoadOutcome>, k: nat)
    requires k < |outcomes| && outcomes[k].Loaded?
    requires forall j :: k < j < |outcomes| ==> !outcomes[j].Loaded? || outcomes[j].format != outcomes[k].format
    ensures outcomes[k].format in RegisterAll(factories, outcomes)
    ensures RegisterAll(factories, outcomes)[outcomes[k].format] == outcomes[k].factory
    decreases |outcomes|
  {
    var front := outcomes[..|outcomes| - 1];
    if k < |front| {
      forall j | k < j < |front| ensures !front[j].Loaded? || front[j].format != front[k].format {
        assert front[j] == outcomes[j];
      }
      assert front[k] == outcomes[k];
      LastLoadWins(factories, front, k);
    }
  }

  /** Filtering out entries that are not regular files changes nothing: `loadPlugin` turns them away itself. */
  lemma {:induction false} RegularFilterRedundant(suffix: string, host: Host, factories: map<string, Factory>, entries: seq<string>)
    ensures LoadAll(suffix, host, factories, RegularFiles(host, entries)) == LoadAll(suffix, host, factories, entries)
    decreases |entries|
  {
    if entries != [] {
      var front := entries[..|entries| - 1];
      var last := entries[|entries| - 1];
      RegularFilterRedundant(suffix, host, factories, front);
      var kept := RegularFiles(host, front);
      assert entries == front + [last];
      LoadAllSnoc(suffix, host, factories, front, last);
      if host.isRegularFile(last) {
        LoadAllSnoc(suffix, host, factories, kept, last);
      } else {
        assert RegularFiles(host, entries) == kept + [];
        assert kept + [] == kept;
      }
    }
  }

  /** A missing directory leaves the map as it was; otherwise loading it is loading every entry in order. */
  lemma {:induction false} LoadDirectorySpec(suffix: string, host: Host, factories: map<string, Factory>, dir: string)
    ensures host.directory(dir).None? ==> LoadDirectory(suffix, host, factories, dir) == factories
    ensures host.directory(dir).Some? ==>
      LoadDirectory(suffix, host, factories, dir) == LoadAll(suffix, host, factories, host.directory(dir).value)
  {
    if host.directory(dir).Some? {
      RegularFilterRedundant(suffix, host, factories, host.directory(dir).value);
    }
  }

  // ------------------------------------------------------------ the class

  class PluginLoader {
    const pluginSuffix: string
    var factories: map<string, Factory>

    constructor(pluginSuffix: string)
      ensures this.pluginSuffix == pluginSuffix && factories == map[]
    {
      this.pluginSuffix := pluginSuffix;
      factories := map[];
    }

    /** `isFormatAvailable`. */
    predicate IsFormatAvailable(formatName: string)
      reads this
    {
      formatName in factories
    }

    /** `loadPlugin`: reports success, and a successful load sets its format's entry. */
    method LoadPlugin(path: string, host: Host) returns (ok: bool)
      modifies this
      ensures ok <==> Load(pluginSuffix, host, path).Loaded?
      ensures factories == Register(old(factories), Load(pluginSuffix, host, path))
    {
      ok := false;
      LoadShape(pluginSuffix, host, path);
      var stem := FileStem(path);
      if host.isRegularFile(path) && RFind(stem, pluginSuffix).Some? && FileExtension(path) == LibraryExtension && host.opens(path) {
        var formatName := FormatName(pluginSuffix, stem);
        var functionName := "create_" + formatName + pluginSuffix;
        if host.exports(path, functionName) {
          factories := factories[formatName := Factory(path, functionName)];
          ok := true;
        }
      }
    }

    method LoadPluginsFromFiles(paths: seq<string>, host: Host)
      modifies this
      ensures factories == LoadAll(pluginSuffix, host, old(factories), paths)
    {
      var i := 0;
      while i < |paths|
        invariant 0 <= i <= |paths|
        invariant factories == LoadAll(pluginSuffix, host, old(factories), paths[..i])
      {
        LoadNext(old(factories), paths, i, host);
        i := i + 1;
      }
      TakeAll(paths);
    }

    /** One step of the loops below: the `i`-th path is loaded on top of the earlier ones. */
    method LoadNext(ghost base: map<string, Factory>, paths: seq<string>, i: nat, host: Host)
      requires i < |paths| && factories == LoadAll(pluginSuffix, host, base, paths[..i])
      modifies this
      ensures factories == LoadAll(pluginSuffix, host, base, paths[..i + 1])
    {
      LoadAllStep(pluginSuffix, host, base, paths, i);
      var _ := LoadPlugin(paths[i], host);
    }

    method LoadPluginsFromDirectory(dir: string, host: Host)
      modifies this
      ensures factories == LoadDirectory(pluginSuffix, host, old(factories), dir)
    {
      var listing := host.directory(dir);
      if listing.Some? {
        var entries := listing.value;
        var i := 0;
        while i < |entries|
          invariant 0 <= i <= |entries|
          invariant factories == LoadAll(pluginSuffix, host, old(factories), entries[..i])
        {
          if host.isRegularFile(entries[i]) {
            LoadNext(old(factories), entries, i, host);
          } else {
            SkipIrregular(pluginSuffix, host, old(factories), entries, i);
          }
          i := i + 1;
        }
        TakeAll(entries);
        RegularFilterRedundant(pluginSuffix, host, old(factories), entries);
      }
    }

    /** `createFormatter`: the registered factory of the format, or nothing when none is registered. */
    method CreateFormatter(formatName: string) returns (r: Option<Factory>)
      ensures r.Some? <==> IsFormatAvailable(formatName)
      ensures r.Some? ==> r.value == factories[formatName]
    {
      if formatName in factories {
        r := Some(factories[formatName]);
      } else {
        r := None;
      }
    }
  }
}
