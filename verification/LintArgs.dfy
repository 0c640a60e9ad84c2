/** The argument handling of the argument-comment-lint wrapper: what the caller gave is parsed,
    and the final argument list is built from it with the defaults filled in. */
module LintArgs {
  const SEPARATOR := "--"

  predicate IsTargetSelection(arg: string) {
    || arg == "--all-targets" || arg == "--lib" || arg == "--bins" || arg == "--tests" || arg == "--examples"
    || arg == "--benches" || arg == "--doc" || arg == "--bin" || arg == "--test" || arg == "--example" || arg == "--bench"
    || "--bin=" <= arg || "--test=" <= arg || "--example=" <= arg || "--bench=" <= arg
  }

  datatype Awaited = Nothing | ManifestPath | PackageSelection | LibrarySelection

  datatype Parsed = Parsed(
    lint: seq<string>, cargo: seq<string>, manifestPath: bool, packageSelection: bool, noDeps: bool,
    librarySelection: bool, targetSelection: bool, fix: bool)

  /** Where the parser stands: past the separator or not, and which value it waits for. */
  datatype ParseState = ParseState(parsed: Parsed, afterSeparator: bool, awaited: Awaited)

  const START := ParseState(Parsed([], [], false, false, false, false, false, false), false, Nothing)

  /** What a lint argument that is not a value does: it announces a value, sets a flag, or nothing. */
  datatype Effect = Awaits(what: Awaited) | SetsManifestPath | SetsPackageSelection | SetsFix | SetsNoDeps | SetsLibrarySelection | NoEffect

  function Classify(arg: string): Effect {
    if arg == "--manifest-path" then Awaits(ManifestPath)
    else if "--manifest-path=" <= arg then SetsManifestPath
    else if arg == "-p" || arg == "--package" then Awaits(PackageSelection)
    else if "--package=" <= arg then SetsPackageSelection
    else if arg == "--fix" then SetsFix
    else if arg == "--workspace" then SetsPackageSelection
    else if arg == "--no-deps" then SetsNoDeps
    else if arg == "--lib" || arg == "--lib-path" then Awaits(LibrarySelection)
    else if "--lib=" <= arg || "--lib-path=" <= arg then SetsLibrarySelection
    else NoEffect
  }

  function Flag(st: ParseState, effect: Effect): ParseState {
    match effect
    case Awaits(what) => st.(awaited := what)
    case SetsManifestPath => st.(parsed := st.parsed.(manifestPath := true))
    case SetsPackageSelection => st.(parsed := st.parsed.(packageSelection := true))
    case SetsFix => st.(parsed := st.parsed.(fix := true))
    case SetsNoDeps => st.(parsed := st.parsed.(noDeps := true))
    case SetsLibrarySelection => st.(parsed := st.parsed.(librarySelection := true))
    case NoEffect => st
  }

  /** The value of a flag seen just before. */
  function Value(st: ParseState): ParseState {
    match st.awaited
    case ManifestPath => st.(parsed := st.parsed.(manifestPath := true), awaited := Nothing)
    case PackageSelection => st.(parsed := st.parsed.(packageSelection := true), awaited := Nothing)
    case LibrarySelection => st.(parsed := st.parsed.(librarySelection := true), awaited := Nothing)
    case Nothing => st
  }

  /** A lint argument is kept; it is a value if one is awaited, and has its own effect otherwise. */
  function KeepLintArg(st: ParseState, arg: string, effect: Effect): ParseState {
    var st1 := st.(parsed := st.parsed.(lint := st.parsed.lint + [arg]));
    if st.awaited != Nothing then Value(st1) else Flag(st1, effect)
  }

  function LintArg(st: ParseState, arg: string): ParseState {
    KeepLintArg(st, arg, Classify(arg))
  }

  function CargoArg(st: ParseState, arg: string): ParseState {
    st.(parsed := st.parsed.(cargo := st.parsed.cargo + [arg],
                             targetSelection := st.parsed.targetSelection || IsTargetSelection(arg)))
  }

  function ParseArg(st: ParseState, arg: string): ParseState {
    if st.afterSeparator then CargoArg(st, arg)
    else if arg == SEPARATOR then st.(afterSeparator := true)
    else LintArg(st, arg)
  }

  function ParseFrom(st: ParseState, argv: seq<string>): ParseState
    decreases |argv|
  {
    if argv == [] then st else ParseFrom(ParseArg(st, argv[0]), argv[1..])
  }

  function Parse(argv: seq<string>): Parsed {
    ParseFrom(START, argv).parsed
  }

  /** The chain of tests for a lint argument that is not a value. */
  method ApplyFlag(was: Parsed, arg: string) returns (parsed: Parsed, awaited: Awaited)
    ensures ParseState(parsed, false, awaited) == Flag(ParseState(was, false, Nothing), Classify(arg))
  {
    parsed, awaited := was, Nothing;
    if arg == "--manifest-path" {
      awaited := ManifestPath;
    } else if "--manifest-path=" <= arg {
      parsed := parsed.(manifestPath := true);
    } else if arg == "-p" || arg == "--package" {
      awaited := PackageSelection;
    } else if "--package=" <= arg {
      parsed := parsed.(packageSelection := true);
    } else if arg == "--fix" {
      parsed := parsed.(fix := true);
    } else if arg == "--workspace" {
      parsed := parsed.(packageSelection := true);
    } else if arg == "--no-deps" {
      parsed := parsed.(noDeps := true);
    } else if arg == "--lib" || arg == "--lib-path" {
      awaited := LibrarySelection;
    } else if "--lib=" <= arg || "--lib-path=" <= arg {
      parsed := parsed.(librarySelection := true);
    }
  }

  /** The parsing loop. */
  method ParseWrapperArgs(argv: seq<string>) returns (parsed: Parsed)
    ensures parsed == Parse(argv)
  {
    parsed := START.parsed;
    var afterSeparator := false;
    var awaited := Nothing;
    for i := 0 to |argv|
      invariant ParseFrom(ParseState(parsed, afterSeparator, awaited), argv[i..]) == ParseFrom(START, argv)
    {
      var arg := argv[i];
      assert argv[i..][0] == arg && argv[i..][1..] == argv[i + 1..];
      if afterSeparator {
        parsed := parsed.(cargo := parsed.cargo + [arg]);
        if IsTargetSelection(arg) {
          parsed := parsed.(targetSelection := true);
        }
        continue;
      }
      if arg == SEPARATOR {
        afterSeparator := true;
        continue;
      }
      parsed := parsed.(lint := parsed.lint + [arg]);
      if awaited != Nothing {
        match awaited {
          case ManifestPath => parsed := parsed.(manifestPath := true);
          case PackageSelection => parsed := parsed.(packageSelection := true);
          case LibrarySelection => parsed := parsed.(librarySelection := true);
        }
        awaited := Nothing;
        continue;
      }
      parsed, awaited := ApplyFlag(parsed, arg);
    }
    assert argv[|argv|..] == [];
  }

  // ----- Building -----

  /** The defaults put in front of the caller's lint arguments. */
  function Defaults(p: Parsed, manifestPath: string): seq<string> {
    (if p.manifestPath then [] else ["--manifest-path", manifestPath])
    + (if p.packageSelection || p.manifestPath then [] else ["--workspace"])
    + (if p.noDeps then [] else ["--no-deps"])
  }

  function FinalCargo(p: Parsed): seq<string> {
    p.cargo + (if p.fix || p.targetSelection then [] else ["--all-targets"])
  }

  function Tail(cargo: seq<string>): seq<string> {
    if cargo == [] then [] else [SEPARATOR] + cargo
  }

  function Build(p: Parsed, manifestPath: string): seq<string> {
    Defaults(p, manifestPath) + p.lint + Tail(FinalCargo(p))
  }

  method BuildFinalArgs(parsed: Parsed, manifestPath: string) returns (finalArgs: seq<string>)
    ensures finalArgs == Build(parsed, manifestPath)
  {
    finalArgs := [];
    var cargoArgs := parsed.cargo;
    if !parsed.manifestPath {
      finalArgs := finalArgs + ["--manifest-path", manifestPath];
    }
    if !parsed.packageSelection && !parsed.manifestPath {
      finalArgs := finalArgs + ["--workspace"];
    }
    if !parsed.noDeps {
      finalArgs := finalArgs + ["--no-deps"];
    }
    assert finalArgs == Defaults(parsed, manifestPath);
    if !parsed.fix && !parsed.targetSelection {
      cargoArgs := cargoArgs + ["--all-targets"];
    }
    assert cargoArgs == FinalCargo(parsed);
    finalArgs := finalArgs + parsed.lint;
    if cargoArgs != [] {
      finalArgs := finalArgs + ([SEPARATOR] + cargoArgs);
    }
  }
}
