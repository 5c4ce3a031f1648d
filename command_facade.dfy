/**
 * The command-line front end of the bills master (`CommandFacade`):
 * `parse_arguments` takes the format and type flags out of the argument
 * list and keeps every other argument in order; `execute_command` and
 * `handle_export_command` dispatch on the kept arguments. What the
 * application controller does is outside the model: `Controller` says
 * whether each of its operations succeeds.
 */
module CommandLine {
  import opened Strings

  /** A call returns a value or throws an exception with a message. */
  datatype Outcome<T> = Returned(value: T) | Threw(message: string)

  /** The facade's three fields. */
  datatype ArgState = ArgState(format: string, typeFilter: string, parts: seq<string>)

  /** What the application controller answers. */
  datatype Controller = Controller(
    handleExport: (string, seq<string>, string) -> bool,
    validateBill: string -> bool,
    modifyBill: string -> bool,
    importBill: string -> bool)

  predicate IsFormatFlag(a: string) {
    a == "--format" || a == "-f"
  }

  predicate IsTypeFlag(a: string) {
    a == "--type" || a == "-t"
  }

  predicate IsFlag(a: string) {
    IsFormatFlag(a) || IsTypeFlag(a)
  }

  /**
   * `parse_arguments` on the arguments after the program name: the state
   * when it stops, and the exception message if a flag has no value. A
   * flag takes the next argument as its value, whatever it is.
   */
  function ParseArgs(st: ArgState, args: seq<string>): (ArgState, Option<string>)
    decreases |args|
  {
    if args == [] then (st, None)
    else if IsFormatFlag(args[0]) then
      if |args| >= 2 then ParseArgs(st.(format := args[1]), args[2..])
      else (st, Some("Missing value for format flag."))
    else if IsTypeFlag(args[0]) then
      if |args| >= 2 then ParseArgs(st.(typeFilter := args[1]), args[2..])
      else (st, Some("Missing value for --type flag."))
    else ParseArgs(st.(parts := st.parts + [args[0]]), args[1..])
  }

  /** The formats an `--export all` runs: `all` or `a` stands for the four built-in ones. */
  function FormatsFor(format: string): (r: seq<string>)
    ensures |r| >= 1
    ensures (format == "all" || format == "a") ==> r == ["md", "tex", "rst", "typ"]
    ensures !(format == "all" || format == "a") ==> r == [format]
  {
    if format == "all" || format == "a" then ["md", "tex", "rst", "typ"] else [format]
  }

  /** The export target the `--type` value selects; an unknown non-empty value throws. */
  function ExportTarget(typeFilter: string): Outcome<string> {
    if typeFilter == "month" || typeFilter == "m" then Returned("all_months")
    else if typeFilter == "year" || typeFilter == "y" then Returned("all_years")
    else if typeFilter != "" then
      Threw("Unknown value for --type: '" + typeFilter + "'. Use 'month'/'m' or 'year'/'y'.")
    else Returned("all")
  }

  /** Every format is exported, even after a failure; the result is the conjunction. */
  function ExportEach(ctl: Controller, target: string, formats: seq<string>): bool
    decreases |formats|
  {
    if formats == [] then true
    else ExportEach(ctl, target, formats[..|formats| - 1]) && ctl.handleExport(target, [], formats[|formats| - 1])
  }

  /** The command word of an export: the first two parts joined by a space, and the values after them. */
  function ExportCommandWord(parts: seq<string>): (string, seq<string>)
    requires |parts| >= 1
  {
    if |parts| > 1 then (parts[0] + " " + parts[1], parts[2..]) else (parts[0], [])
  }

  /** `handle_export_command`. */
  function HandleExport(st: ArgState, ctl: Controller): Outcome<bool>
    requires |st.parts| >= 1
  {
    var (command, values) := ExportCommandWord(st.parts);
    if command == "--export all" || command == "-e a" then
      match ExportTarget(st.typeFilter)
      case Threw(msg) => Threw(msg)
      case Returned(target) => Returned(ExportEach(ctl, target, FormatsFor(st.format)))
    else if command == "--export date" || command == "-e d" then
      if values == [] then Threw("Missing date value(s) for 'export date' command.")
      else Returned(ctl.handleExport("date", values, st.format))
    else Returned(false)
  }

  /** A command that needs a path: the first value, or an exception naming the command. */
  function WithPath(values: seq<string>, name: string, op: string -> bool): Outcome<bool> {
    if values == [] then Threw("Missing path for '" + name + "' command.") else Returned(op(values[0]))
  }

  /** `execute_command`. */
  function Execute(st: ArgState, ctl: Controller): Outcome<bool> {
    var parts := st.parts;
    if parts == [] then Returned(false)
    else
      var command := parts[0];
      var values := parts[1..];
      if command == "--help" || command == "-h" then Returned(true)
      else if command == "--version" || command == "-V" then Returned(true)
      else if command == "--export" || command == "-e" then HandleExport(st, ctl)
      else if command == "--validate" || command == "-v" then WithPath(values, "validate", ctl.validateBill)
      else if command == "--modify" || command == "-m" then WithPath(values, "modify", ctl.modifyBill)
      else if command == "--import" || command == "-i" then WithPath(values, "import", ctl.importBill)
      else if command == "--query" || command == "-q" then
        if |parts| < 2 then Threw("Incomplete query command. Use 'query year <YYYY>' or 'query month <YYYYMM>'.")
        else
          var queryType := parts[1];
          var rest := parts[2..];
          if queryType == "year" || queryType == "y" then
            if rest == [] then Threw("Missing <year> for 'query year' command.")
            else Returned(ctl.handleExport("year", rest, st.format))
          else if queryType == "month" || queryType == "m" then
            if rest == [] then Threw("Missing <month> for 'query month' command.")
            else Returned(ctl.handleExport("month", rest, st.format))
          else Returned(false)
      else Returned(false)
  }

  /** `run`: the exit status for the arguments after the program name. */
  function Run(st: ArgState, args: seq<string>, ctl: Controller): (status: int)
    ensures status == 0 || status == 1
  {
    if args == [] then 1
    else
      var (parsed, err) := ParseArgs(st, args);
      if err.Some? then 1
      else match Execute(parsed, ctl)
        case Threw(_) => 1
        case Returned(ok) => if ok then 0 else 1
  }

  // ------------------------------------------------------------- lemmas

  /** Arguments that are no flags are appended to the parts in their order and change nothing else. */
  lemma {:induction false} PlainArgsKept(st: ArgState, args: seq<string>)
    requires forall i :: 0 <= i < |args| ==> !IsFlag(args[i])
    ensures ParseArgs(st, args) == (st.(parts := st.parts + args), None)
    decreases |args|
  {
    if args != [] {
      var st' := st.(parts := st.parts + [args[0]]);
      assert forall i :: 0 <= i < |args[1..]| ==> args[1..][i] == args[i + 1];
      assert !IsFlag(args[0]);
      PlainArgsKept(st', args[1..]);
      assert ParseArgs(st, args) == ParseArgs(st', args[1..]);
      assert st.parts + [args[0]] + args[1..] == st.parts + args by {
        ConcatAssoc(st.parts, [args[0]], args[1..]);
        assert [args[0]] + args[1..] == args;
      }
    } else {
      assert st.parts + args == st.parts;
    }
  }

  /** Parsing that finishes without an error composes: the second list continues from where the first left the state. */
  lemma {:induction false} ParseConcat(st: ArgState, a: seq<string>, b: seq<string>)
    requires ParseArgs(st, a).1.None?
    ensures ParseArgs(st, a + b) == ParseArgs(ParseArgs(st, a).0, b)
    decreases |a|
  {
    if a != [] {
      if IsFlag(a[0]) {
        assert (a + b)[2..] == a[2..] + b;
        if IsFormatFlag(a[0]) {
          ParseConcat(st.(format := a[1]), a[2..], b);
        } else {
          ParseConcat(st.(typeFilter := a[1]), a[2..], b);
        }
      } else {
        assert (a + b)[1..] == a[1..] + b;
        ParseConcat(st.(parts := st.parts + [a[0]]), a[1..], b);
      }
    } else {
      assert a + b == b;
    }
  }

  /** The last value given for a flag is the one that counts. */
  lemma {:induction false} LastFlagWins(st: ArgState, a: seq<string>, flag: string, v: string)
    requires ParseArgs(st, a).1.None? && IsFlag(flag)
    ensures var (r, err) := ParseArgs(st, a + [flag, v]);
      && err.None?
      && (IsFormatFlag(flag) ==> r.format == v)
      && (IsTypeFlag(flag) ==> r.typeFilter == v)
      && r.parts == ParseArgs(st, a).0.parts
  {
    ParseConcat(st, a, [flag, v]);
    assert [flag, v][2..] == [];
  }

  /** A flag with nothing after it throws, and the parts gathered so far are kept. */
  lemma {:induction false} MissingValueThrows(st: ArgState, a: seq<string>, flag: string)
    requires ParseArgs(st, a).1.None? && IsFlag(flag)
    ensures ParseArgs(st, a + [flag]).1.Some?
    ensures ParseArgs(st, a + [flag]).0 == ParseArgs(st, a).0
  {
    ParseConcat(st, a, [flag]);
  }

  /** Parsing only ever appends to the parts, and never a flag of its own. */
  lemma {:induction false} PartsGrow(st: ArgState, args: seq<string>)
    ensures var r := ParseArgs(st, args).0;
      && |st.parts| <= |r.parts| && r.parts[..|st.parts|] == st.parts
      && forall i :: |st.parts| <= i < |r.parts| ==> !IsFlag(r.parts[i])
    decreases |args|
  {
    if args != [] {
      if IsFormatFlag(args[0]) && |args| >= 2 {
        PartsGrow(st.(format := args[1]), args[2..]);
      } else if IsTypeFlag(args[0]) && |args| >= 2 {
        PartsGrow(st.(typeFilter := args[1]), args[2..]);
      } else if !IsFlag(args[0]) {
        var st' := st.(parts := st.parts + [args[0]]);
        PartsGrow(st', args[1..]);
        var r := ParseArgs(st', args[1..]).0;
        assert r.parts[..|st.parts|] == r.parts[..|st'.parts|][..|st.parts|];
      }
    }
  }

  /** An `--export all` succeeds exactly when every format it runs exports. */
  lemma {:induction false} ExportEachSpec(ctl: Controller, target: string, formats: seq<string>)
    ensures ExportEach(ctl, target, formats) <==> forall i :: 0 <= i < |formats| ==> ctl.handleExport(target, [], formats[i])
    decreases |formats|
  {
    if formats != [] {
      var front := formats[..|formats| - 1];
      ExportEachSpec(ctl, target, front);
      assert forall i :: 0 <= i < |front| ==> front[i] == formats[i];
    }
  }

  /**
   * `--type month` and `m` export all months, `year` and `y` all years, no
   * type everything; any other type throws before anything is exported.
   */
  lemma {:induction false} ExportTargetSpec(typeFilter: string)
    ensures ExportTarget(typeFilter).Threw? <==>
      typeFilter != "" && typeFilter != "month" && typeFilter != "m" && typeFilter != "year" && typeFilter != "y"
    ensures ExportTarget(typeFilter) == Returned("all") <==> typeFilter == ""
  {
  }

  /** A command word other than the known ones returns false without calling the controller. */
  lemma {:induction false} UnknownCommandFails(st: ArgState, ctl: Controller)
    requires st.parts != []
    requires st.parts[0] !in ["--help", "-h", "--version", "-V", "--export", "-e", "--validate", "-v",
                              "--modify", "-m", "--import", "-i", "--query", "-q"]
    ensures Execute(st, ctl) == Returned(false)
  {
  }

  // ------------------------------------------------------------- the class

  class CommandFacade {
    var formatStr: string
    var exportTypeFilter: string
    var commandParts: seq<string>

    function State(): ArgState
      reads this
    {
      ArgState(formatStr, exportTypeFilter, commandParts)
    }

    /** The format flag's default comes from the declaration, which is not part of this model. */
    constructor(defaultFormat: string)
      ensures State() == ArgState(defaultFormat, "", [])
    {
      formatStr := defaultFormat;
      exportTypeFilter := "";
      commandParts := [];
    }

    /** `parse_arguments`, given the arguments after the program name. */
    method ParseArguments(args: seq<string>) returns (r: Outcome<()>)
      modifies this
      ensures (State(), if r.Threw? then Some(r.message) else None) == ParseArgs(old(State()), args)
    {
      var i := 0;
      while i < |args|
        invariant 0 <= i <= |args|
        invariant ParseArgs(State(), args[i..]) == ParseArgs(old(State()), args)
      {
        var arg := args[i];
        if arg == "--format" || arg == "-f" {
          if i + 1 < |args| {
            assert args[i..][2..] == args[i + 2..];
            i := i + 1;
            formatStr := args[i];
          } else {
            return Threw("Missing value for format flag.");
          }
        } else if arg == "--type" || arg == "-t" {
          if i + 1 < |args| {
            assert args[i..][2..] == args[i + 2..];
            i := i + 1;
            exportTypeFilter := args[i];
          } else {
            return Threw("Missing value for --type flag.");
          }
        } else {
          assert args[i..][1..] == args[i + 1..];
          commandParts := commandParts + [arg];
        }
        i := i + 1;
      }
      r := Returned(());
    }

    /** The loop of `--export all` over the formats. */
    method ExportFormats(ctl: Controller, target: string, formats: seq<string>) returns (allSuccessful: bool)
      ensures allSuccessful == ExportEach(ctl, target, formats)
    {
      allSuccessful := true;
      var k := 0;
      while k < |formats|
        invariant 0 <= k <= |formats|
        invariant allSuccessful == ExportEach(ctl, target, formats[..k])
      {
        TakeStep(formats, k);
        if !ctl.handleExport(target, [], formats[k]) {
          allSuccessful := false;
        }
        k := k + 1;
      }
      TakeAll(formats);
    }

    /** `handle_export_command`. */
    method HandleExportCommand(ctl: Controller) returns (r: Outcome<bool>)
      requires |commandParts| >= 1
      ensures r == HandleExport(State(), ctl)
    {
      var command := commandParts[0];
      var values: seq<string> := [];
      if |commandParts| > 1 {
        command := command + " " + commandParts[1];
        values := commandParts[2..];
      }
      if command == "--export all" || command == "-e a" {
        var formats := FormatsFor(formatStr);
        match ExportTarget(exportTypeFilter)
        case Threw(msg) => r := Threw(msg);
        case Returned(target) =>
          var ok := ExportFormats(ctl, target, formats);
          r := Returned(ok);
      } else if command == "--export date" || command == "-e d" {
        if values == [] {
          r := Threw("Missing date value(s) for 'export date' command.");
        } else {
          r := Returned(ctl.handleExport("date", values, formatStr));
        }
      } else {
        r := Returned(false);
      }
    }

    /** `execute_command`. */
    method ExecuteCommand(ctl: Controller) returns (r: Outcome<bool>)
      ensures r == Execute(State(), ctl)
    {
      if commandParts == [] {
        return Returned(false);
      }
      var command := commandParts[0];
      if command == "--export" || command == "-e" {
        r := HandleExportCommand(ctl);
      } else {
        r := Execute(State(), ctl);
      }
    }

    /** `run`: parse, execute, and map the outcome to an exit status. */
    method RunCommand(args: seq<string>, ctl: Controller) returns (status: int)
      modifies this
      ensures status == Run(old(State()), args, ctl)
    {
      if args == [] {
        return 1;
      }
      var parsed := ParseArguments(args);
      if parsed.Threw? {
        return 1;
      }
      var executed := ExecuteCommand(ctl);
      match executed
      case Threw(_) => status := 1;
      case Returned(ok) => status := if ok then 0 else 1;
    }
  }
}
