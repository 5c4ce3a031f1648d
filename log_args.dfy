/**
 * The command line of the bill log generator (`parse_arguments` in the
 * generator's argument parser). Help, version, a single year and a year
 * range are recognised; the first recognised option decides the result
 * and every other argument before it is skipped. The header that declares
 * `ProgramOptions` is not part of this model: its defaults are taken to
 * be the `Error` action, years 0 and no message.
 */
module LogArguments {
  import opened Strings

  datatype Action = Error | ShowHelp | ShowVersion | Generate

  datatype ProgramOptions = ProgramOptions(action: Action, startYear: int, endYear: int, errorMessage: string)

  const Defaults := ProgramOptions(Error, 0, 0, "")

  predicate IsHelp(a: string) { a == "-h" || a == "--help" }

  predicate IsVersion(a: string) { a == "--version" }

  predicate IsSingle(a: string) { a == "-s" || a == "--single" }

  predicate IsDouble(a: string) { a == "-d" || a == "--double" }

  /** The options that end the scan. */
  predicate Recognised(a: string) {
    IsHelp(a) || IsVersion(a) || IsSingle(a) || IsDouble(a)
  }

  /** The index of the first recognised option at or after `i`. */
  function FirstOption(args: seq<string>, i: nat): (r: Option<nat>)
    requires i <= |args|
    decreases |args| - i
    ensures r.Some? ==> i <= r.value < |args| && Recognised(args[r.value])
    ensures r.Some? ==> forall j :: i <= j < r.value ==> !Recognised(args[j])
    ensures r.None? ==> forall j :: i <= j < |args| ==> !Recognised(args[j])
  {
    if i == |args| then None
    else if Recognised(args[i]) then Some(i)
    else FirstOption(args, i + 1)
  }

  /** What the recognised option at `i` returns; its values are the arguments after it. */
  function Decide(args: seq<string>, i: nat): ProgramOptions
    requires i < |args| && Recognised(args[i])
  {
    var arg := args[i];
    if IsHelp(arg) then Defaults.(action := ShowHelp)
    else if IsVersion(arg) then Defaults.(action := ShowVersion)
    else if IsSingle(arg) then
      if i + 1 >= |args| then Defaults.(errorMessage := "Missing argument for " + arg + " option.")
      else match Stoi(args[i + 1])
        case None => Defaults.(errorMessage := "Invalid year provided for " + arg + ".")
        case Some(year) => Defaults.(startYear := year, endYear := year, action := Generate)
    else
      if i + 2 >= |args| then Defaults.(errorMessage := "Missing arguments for " + arg + " option.")
      else match Stoi(args[i + 1])
        case None => Defaults.(errorMessage := "Invalid year(s) provided for " + arg + ".")
        case Some(start) =>
          match Stoi(args[i + 2])
          case None => Defaults.(startYear := start, errorMessage := "Invalid year(s) provided for " + arg + ".")
          case Some(end) =>
            if start > end then Defaults.(startYear := start, endYear := end, errorMessage := "Start year cannot be after end year.")
            else Defaults.(startYear := start, endYear := end, action := Generate)
  }

  /** `parse_arguments` on the arguments after the program name. */
  function Parse(args: seq<string>): ProgramOptions {
    if args == [] then Defaults.(action := ShowHelp)
    else match FirstOption(args, 0)
      case None => Defaults.(errorMessage := "No valid operation specified.", action := ShowHelp)
      case Some(i) => Decide(args, i)
  }

  // ------------------------------------------------------------- lemmas

  /** Without arguments the generator shows its help. */
  lemma {:induction false} NoArgumentsShowHelp()
    ensures Parse([]).action == ShowHelp && Parse([]).errorMessage == ""
  {
  }

  /** `-s Y` with a valid year generates exactly that year. */
  lemma {:induction false} SingleYear(args: seq<string>, i: nat, year: int)
    requires i + 1 < |args| && IsSingle(args[i]) && Stoi(args[i + 1]) == Some(year)
    requires forall j :: 0 <= j < i ==> !Recognised(args[j])
    ensures Parse(args) == ProgramOptions(Generate, year, year, "")
  {
    assert FirstOption(args, 0) == Some(i) by { FirstOptionAt(args, 0, i); }
  }

  /** Generating always means a range whose start is not after its end, and no message. */
  lemma {:induction false} GenerateOrdered(args: seq<string>)
    ensures Parse(args).action == Generate ==> Parse(args).startYear <= Parse(args).endYear
    ensures Parse(args).action == Generate ==> Parse(args).errorMessage == ""
  {
  }

  /** An option missing its value sets a message and leaves the action at `Error`. */
  lemma {:induction false} MissingValueReported(args: seq<string>, i: nat)
    requires i < |args| && (IsSingle(args[i]) || IsDouble(args[i]))
    requires forall j :: 0 <= j < i ==> !Recognised(args[j])
    requires IsSingle(args[i]) ==> i + 1 == |args|
    requires IsDouble(args[i]) ==> i + 2 >= |args|
    ensures Parse(args).errorMessage != "" && Parse(args).action == Error
  {
    assert FirstOption(args, 0) == Some(i) by { FirstOptionAt(args, 0, i); }
  }

  /** The first recognised option decides: the arguments before it are skipped, whatever follows it is ignored. */
  lemma {:induction false} FirstOptionDecides(prefix: seq<string>, rest: seq<string>)
    requires forall j :: 0 <= j < |prefix| ==> !Recognised(prefix[j])
    requires rest != [] && Recognised(rest[0])
    ensures Parse(prefix + rest) == Decide(rest, 0)
  {
    var args := prefix + rest;
    assert args[|prefix|] == rest[0];
    forall j | 0 <= j < |prefix| ensures !Recognised(args[j]) { assert args[j] == prefix[j]; }
    FirstOptionAt(args, 0, |prefix|);
    DecideShift(prefix, rest);
  }

  lemma {:induction false} DecideShift(prefix: seq<string>, rest: seq<string>)
    requires rest != [] && Recognised(rest[0])
    ensures Decide(prefix + rest, |prefix|) == Decide(rest, 0)
  {
    var args := prefix + rest;
    var i := |prefix|;
    assert args[i] == rest[0];
    if i + 1 < |args| { assert args[i + 1] == rest[1]; }
    if i + 2 < |args| { assert args[i + 2] == rest[2]; }
  }

  /** A recognised option at `i` with none before it is what `FirstOption` finds. */
  lemma {:induction false} FirstOptionAt(args: seq<string>, from: nat, i: nat)
    requires from <= i < |args| && Recognised(args[i])
    requires forall j :: from <= j < i ==> !Recognised(args[j])
    ensures FirstOption(args, from) == Some(i)
    decreases i - from
  {
    if from < i {
      FirstOptionAt(args, from + 1, i);
    }
  }

  // ------------------------------------------------------------ the method

  /** The loop of `parse_arguments`, returning as soon as an option is recognised. */
  method ParseArguments(args: seq<string>) returns (opts: ProgramOptions)
    ensures opts == Parse(args)
  {
    opts := Defaults;
    if |args| == 0 {
      opts := opts.(action := ShowHelp);
      return;
    }
    var i := 0;
    while i < |args|
      invariant 0 <= i <= |args|
      invariant forall j :: 0 <= j < i ==> !Recognised(args[j])
      invariant opts == Defaults
    {
      var arg := args[i];
      if arg == "-h" || arg == "--help" {
        FirstOptionAt(args, 0, i);
        opts := opts.(action := ShowHelp);
        return;
      }
      if arg == "--version" {
        FirstOptionAt(args, 0, i);
        opts := opts.(action := ShowVersion);
        return;
      }
      if arg == "-s" || arg == "--single" {
        FirstOptionAt(args, 0, i);
        if i + 1 >= |args| {
          opts := opts.(errorMessage := "Missing argument for " + arg + " option.");
          return;
        }
        var year := Stoi(args[i + 1]);
        if year.None? {
          opts := opts.(errorMessage := "Invalid year provided for " + arg + ".");
          return;
        }
        opts := opts.(startYear := year.value, endYear := year.value, action := Generate);
        return;
      }
      if arg == "-d" || arg == "--double" {
        FirstOptionAt(args, 0, i);
        if i + 2 >= |args| {
          opts := opts.(errorMessage := "Missing arguments for " + arg + " option.");
          return;
        }
        var start := Stoi(args[i + 1]);
        if start.None? {
          opts := opts.(errorMessage := "Invalid year(s) provided for " + arg + ".");
          return;
        }
        opts := opts.(startYear := start.value);
        var end := Stoi(args[i + 2]);
        if end.None? {
          opts := opts.(errorMessage := "Invalid year(s) provided for " + arg + ".");
          return;
        }
        opts := opts.(endYear := end.value);
        if opts.startYear > opts.endYear {
          opts := opts.(errorMessage := "Start year cannot be after end year.");
          return;
        }
        opts := opts.(action := Generate);
        return;
      }
      i := i + 1;
    }
    opts := opts.(errorMessage := "No valid operation specified.", action := ShowHelp);
  }
}
