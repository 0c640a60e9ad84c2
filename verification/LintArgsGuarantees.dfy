/** The wrapper's argument normalisation is idempotent and loses nothing. */
module LintArgsGuarantees {
  import opened LintArgs

  lemma {:induction false} ParseConcat(st: ParseState, a: seq<string>, b: seq<string>)
    ensures ParseFrom(st, a + b) == ParseFrom(ParseFrom(st, a), b)
    decreases |a|
  {
    if a == [] {
      assert a + b == b;
    } else {
      assert (a + b)[0] == a[0] && (a + b)[1..] == a[1..] + b;
      ParseConcat(ParseArg(st, a[0]), a[1..], b);
    }
  }

  // ----- The two argument lists -----

  function BeforeSeparator(argv: seq<string>): seq<string> {
    if argv == [] || argv[0] == SEPARATOR then [] else [argv[0]] + BeforeSeparator(argv[1..])
  }

  function AfterSeparator(argv: seq<string>): seq<string> {
    if argv == [] then [] else if argv[0] == SEPARATOR then argv[1..] else AfterSeparator(argv[1..])
  }

  predicate AnyTargetSelection(args: seq<string>) {
    exists i :: 0 <= i < |args| && IsTargetSelection(args[i])
  }

  lemma {:induction false} ParseCargo(st: ParseState, argv: seq<string>)
    requires st.afterSeparator
    ensures ParseFrom(st, argv) == st.(parsed := st.parsed.(
              cargo := st.parsed.cargo + argv,
              targetSelection := st.parsed.targetSelection || AnyTargetSelection(argv)))
    decreases |argv|
  {
    if argv == [] {
      assert st.parsed.cargo + argv == st.parsed.cargo;
    } else {
      ParseCargo(ParseArg(st, argv[0]), argv[1..]);
      assert (st.parsed.cargo + [argv[0]]) + argv[1..] == st.parsed.cargo + argv;
      assert AnyTargetSelection(argv) <==> IsTargetSelection(argv[0]) || AnyTargetSelection(argv[1..]) by {
        if i :| 0 <= i < |argv[1..]| && IsTargetSelection(argv[1..][i]) {
          assert IsTargetSelection(argv[i + 1]);
        }
        if i :| 0 <= i < |argv| && IsTargetSelection(argv[i]) {
          assert i == 0 || IsTargetSelection(argv[1..][i - 1]);
        }
      }
    }
  }

  predicate Appends(st: ParseState, arg: string, r: ParseState) {
    && r.parsed.lint == st.parsed.lint + [arg] && r.parsed.cargo == st.parsed.cargo
    && r.parsed.targetSelection == st.parsed.targetSelection && r.afterSeparator == st.afterSeparator
  }

  lemma KeepAppends(st: ParseState, arg: string, effect: Effect)
    ensures Appends(st, arg, KeepLintArg(st, arg, effect))
  {
  }

  lemma LintArgAppends(st: ParseState, arg: string)
    ensures Appends(st, arg, LintArg(st, arg))
  {
    KeepAppends(st, arg, Classify(arg));
  }

  lemma {:induction false} ParseLint(st: ParseState, args: seq<string>)
    requires !st.afterSeparator && SEPARATOR !in args
    ensures var r := ParseFrom(st, args);
            && r.parsed.lint == st.parsed.lint + args && r.parsed.cargo == st.parsed.cargo
            && r.parsed.targetSelection == st.parsed.targetSelection && !r.afterSeparator
    decreases |args|
  {
    if args == [] {
      assert st.parsed.lint + args == st.parsed.lint;
    } else {
      LintArgAppends(st, args[0]);
      ParseLint(LintArg(st, args[0]), args[1..]);
      assert (st.parsed.lint + [args[0]]) + args[1..] == st.parsed.lint + args;
    }
  }

  lemma {:induction false} SplitAtSeparator(argv: seq<string>)
    ensures SEPARATOR !in BeforeSeparator(argv)
    ensures argv == BeforeSeparator(argv) || argv == BeforeSeparator(argv) + [SEPARATOR] + AfterSeparator(argv)
    ensures argv == BeforeSeparator(argv) ==> AfterSeparator(argv) == []
    decreases |argv|
  {
    if argv != [] {
      if argv[0] == SEPARATOR {
        assert argv == [] + [SEPARATOR] + argv[1..];
      } else {
        SplitAtSeparator(argv[1..]);
        assert argv == [argv[0]] + argv[1..];
        if argv[1..] != BeforeSeparator(argv[1..]) {
          assert argv == ([argv[0]] + BeforeSeparator(argv[1..])) + [SEPARATOR] + AfterSeparator(argv[1..]);
        }
      }
    }
  }

  /** Parsing lint arguments and then, after a separator, cargo arguments. */
  lemma ParseBoth(st: ParseState, lint: seq<string>, cargo: seq<string>)
    requires !st.afterSeparator && SEPARATOR !in lint
    ensures var mid := ParseFrom(st, lint).parsed;
            ParseFrom(st, lint + ([SEPARATOR] + cargo)).parsed ==
            mid.(cargo := mid.cargo + cargo, targetSelection := mid.targetSelection || AnyTargetSelection(cargo))
  {
    ParseLint(st, lint);
    var mid := ParseFrom(st, lint);
    ParseConcat(st, lint, [SEPARATOR] + cargo);
    assert ([SEPARATOR] + cargo)[0] == SEPARATOR && ([SEPARATOR] + cargo)[1..] == cargo;
    ParseCargo(mid.(afterSeparator := true), cargo);
  }

  /** What parsing returns: the flags of the arguments before the first separator, and the
      arguments on either side of it, untouched and in order, a flag left without its value
      before the separator included. */
  lemma ParseSplitsAtTheSeparator(argv: seq<string>)
    ensures var lint, cargo := BeforeSeparator(argv), AfterSeparator(argv);
            && Parse(argv) == ParseFrom(START, lint).parsed.(cargo := cargo, targetSelection := AnyTargetSelection(cargo))
            && Parse(argv).lint == lint && Parse(argv).cargo == cargo
  {
    var lint, cargo := BeforeSeparator(argv), AfterSeparator(argv);
    SplitAtSeparator(argv);
    ParseLint(START, lint);
    assert START.parsed.lint + lint == lint;
    if argv != lint {
      assert argv == lint + ([SEPARATOR] + cargo);
      ParseBoth(START, lint, cargo);
      assert START.parsed.cargo + cargo == cargo;
    }
  }

  // ----- Parsing after the defaults -----

  /** The result of parsing after something else was parsed. */
  function Onto(base: Parsed, p: Parsed): Parsed {
    Parsed(base.lint + p.lint, p.cargo, base.manifestPath || p.manifestPath, base.packageSelection || p.packageSelection,
           base.noDeps || p.noDeps, base.librarySelection || p.librarySelection, p.targetSelection, base.fix || p.fix)
  }

  lemma FlagOnto(base: Parsed, st: ParseState, effect: Effect)
    ensures Flag(st.(parsed := Onto(base, st.parsed)), effect) ==
            Flag(st, effect).(parsed := Onto(base, Flag(st, effect).parsed))
  {
    match effect
    case Awaits(_) =>
    case SetsManifestPath =>
    case SetsPackageSelection =>
    case SetsFix =>
    case SetsNoDeps =>
    case SetsLibrarySelection =>
    case NoEffect =>
  }

  lemma ValueOnto(base: Parsed, st: ParseState)
    ensures Value(st.(parsed := Onto(base, st.parsed))) == Value(st).(parsed := Onto(base, Value(st).parsed))
  {
    match st.awaited
    case ManifestPath =>
    case PackageSelection =>
    case LibrarySelection =>
    case Nothing =>
  }

  lemma AppendOnto(base: Parsed, p: Parsed, arg: string)
    ensures Onto(base, p).(lint := Onto(base, p).lint + [arg]) == Onto(base, p.(lint := p.lint + [arg]))
  {
    assert (base.lint + p.lint) + [arg] == base.lint + (p.lint + [arg]);
  }

  lemma KeepOnto(base: Parsed, st: ParseState, arg: string, effect: Effect)
    ensures KeepLintArg(st.(parsed := Onto(base, st.parsed)), arg, effect) ==
            KeepLintArg(st, arg, effect).(parsed := Onto(base, KeepLintArg(st, arg, effect).parsed))
  {
    var st1 := st.(parsed := st.parsed.(lint := st.parsed.lint + [arg]));
    AppendOnto(base, st.parsed, arg);
    if st.awaited != Nothing {
      ValueOnto(base, st1);
    } else {
      FlagOnto(base, st1, effect);
    }
  }

  lemma LintArgOnto(base: Parsed, st: ParseState, arg: string)
    ensures LintArg(st.(parsed := Onto(base, st.parsed)), arg) ==
            LintArg(st, arg).(parsed := Onto(base, LintArg(st, arg).parsed))
  {
    KeepOnto(base, st, arg, Classify(arg));
  }

  lemma {:induction false} ParseOnto(base: Parsed, st: ParseState, args: seq<string>)
    requires !st.afterSeparator && SEPARATOR !in args
    ensures ParseFrom(st.(parsed := Onto(base, st.parsed)), args) ==
            ParseFrom(st, args).(parsed := Onto(base, ParseFrom(st, args).parsed))
    decreases |args|
  {
    if args != [] {
      LintArgOnto(base, st, args[0]);
      LintArgAppends(st, args[0]);
      ParseOnto(base, LintArg(st, args[0]), args[1..]);
    }
  }

  lemma ParseTwo(st: ParseState, a: string, b: string)
    ensures ParseFrom(st, [a, b]) == ParseArg(ParseArg(st, a), b)
  {
    assert [a, b][1..] == [b] && [b][1..] == [];
    assert ParseFrom(ParseArg(st, a), [b]) == ParseArg(ParseArg(st, a), b);
  }

  lemma ParseManifest(manifestPath: string)
    requires manifestPath != SEPARATOR
    ensures ParseFrom(START, ["--manifest-path", manifestPath]) ==
            START.(parsed := START.parsed.(lint := ["--manifest-path", manifestPath], manifestPath := true))
  {
    ParseTwo(START, "--manifest-path", manifestPath);
  }

  lemma ParseFlagOf(st: ParseState, arg: string)
    ensures ParseFrom(st, [arg]) == ParseArg(st, arg)
  {
    assert [arg][1..] == [];
  }

  /** The defaults are themselves read back as what they stand for. */
  lemma ParseDefaults(p: Parsed, manifestPath: string)
    requires p.manifestPath || manifestPath != SEPARATOR
    ensures ParseFrom(START, Defaults(p, manifestPath)) ==
            START.(parsed := START.parsed.(lint := Defaults(p, manifestPath), manifestPath := !p.manifestPath,
                                           packageSelection := !p.packageSelection && !p.manifestPath, noDeps := !p.noDeps))
    ensures SEPARATOR !in Defaults(p, manifestPath)
  {
    var a := if p.manifestPath then [] else ["--manifest-path", manifestPath];
    var b := if p.packageSelection || p.manifestPath then [] else ["--workspace"];
    var c := if p.noDeps then [] else ["--no-deps"];
    if !p.manifestPath {
      ParseManifest(manifestPath);
    }
    var st := ParseFrom(START, a);
    ParseConcat(START, a, b);
    ParseFlagOf(st, "--workspace");
    ParseConcat(START, a + b, c);
    ParseFlagOf(ParseFrom(START, a + b), "--no-deps");
  }

  /** The lint part of a built argument list is read on top of the defaults. */
  lemma ParseBuiltLint(p: Parsed, lint: seq<string>, manifestPath: string)
    requires p.manifestPath || manifestPath != SEPARATOR
    requires SEPARATOR !in lint
    ensures ParseFrom(START, Defaults(p, manifestPath) + lint).parsed ==
            Onto(ParseFrom(START, Defaults(p, manifestPath)).parsed, ParseFrom(START, lint).parsed)
  {
    var d := Defaults(p, manifestPath);
    ParseDefaults(p, manifestPath);
    var base := ParseFrom(START, d).parsed;
    assert Onto(base, START.parsed) == base;
    ParseConcat(START, d, lint);
    ParseOnto(base, START, lint);
  }

  lemma ParseWithTail(args: seq<string>, cargo: seq<string>)
    requires SEPARATOR !in args
    ensures Parse(args + Tail(cargo)) ==
            ParseFrom(START, args).parsed.(cargo := cargo, targetSelection := AnyTargetSelection(cargo))
  {
    ParseLint(START, args);
    if cargo == [] {
      assert args + Tail(cargo) == args;
    } else {
      ParseBoth(START, args, cargo);
      assert START.parsed.cargo + cargo == cargo;
    }
  }

  /** Reading back a built argument list. */
  lemma ParseBuilt(argv: seq<string>, manifestPath: string)
    requires Parse(argv).manifestPath || manifestPath != SEPARATOR
    ensures var p := Parse(argv);
            var q := Parse(Build(p, manifestPath));
            && q.lint == Defaults(p, manifestPath) + p.lint
            && q.cargo == FinalCargo(p)
            && q.manifestPath && q.noDeps && q.fix == p.fix
            && q.packageSelection == (p.packageSelection || !p.manifestPath)
            && q.librarySelection == p.librarySelection
            && q.targetSelection == (p.targetSelection || !p.fix)
  {
    var p := Parse(argv);
    ParseSplitsAtTheSeparator(argv);
    SplitAtSeparator(argv);
    ParseDefaults(p, manifestPath);
    ParseBuiltLint(p, p.lint, manifestPath);
    ParseWithTail(Defaults(p, manifestPath) + p.lint, FinalCargo(p));
    CargoTargets(p);
  }

  lemma CargoTargets(p: Parsed)
    requires p.targetSelection == AnyTargetSelection(p.cargo)
    ensures AnyTargetSelection(FinalCargo(p)) == (p.targetSelection || !p.fix)
  {
    if p.fix || p.targetSelection {
      assert FinalCargo(p) == p.cargo;
    } else {
      assert FinalCargo(p)[|p.cargo|] == "--all-targets";
    }
  }

  /** Parsing and rebuilding a built argument list returns it unchanged, for every argument list,
      exactly unless the default manifest path is used and is itself the separator. */
  lemma NormalisationIsIdempotent(argv: seq<string>, manifestPath: string)
    ensures var built := Build(Parse(argv), manifestPath);
            Build(Parse(built), manifestPath) == built <==> Parse(argv).manifestPath || manifestPath != SEPARATOR
  {
    var p := Parse(argv);
    if p.manifestPath || manifestPath != SEPARATOR {
      ParseBuilt(argv, manifestPath);
      var q := Parse(Build(p, manifestPath));
      assert Defaults(q, manifestPath) == [];
      assert FinalCargo(q) == FinalCargo(p);
      assert Build(q, manifestPath) == (Defaults(p, manifestPath) + p.lint) + Tail(FinalCargo(p));
    } else {
      SeparatorAsManifestGrows(p);
    }
  }

  /** With the separator as manifest path every round makes the list longer. */
  lemma SeparatorAsManifestGrows(p: Parsed)
    requires !p.manifestPath
    ensures |Build(Parse(Build(p, SEPARATOR)), SEPARATOR)| > |Build(p, SEPARATOR)|
  {
    var built := Build(p, SEPARATOR);
    var rest := built[2..];
    assert built == ["--manifest-path"] + ([SEPARATOR] + rest);
    ParseFlagOf(START, "--manifest-path");
    ParseBoth(START, ["--manifest-path"], rest);
    var q := Parse(built);
    assert !q.manifestPath && q.lint == ["--manifest-path"] && q.cargo == rest;
    assert |Defaults(q, SEPARATOR)| >= 3;
    assert |FinalCargo(q)| >= |rest|;
  }

  /** The caller's arguments are all in the final list, in order: the lint arguments after the
      defaults and, past the separator, the cargo arguments before the default target choice. */
  lemma CallerArgumentsSurvive(argv: seq<string>, manifestPath: string)
    ensures var p := Parse(argv);
            && Build(p, manifestPath) == Defaults(p, manifestPath) + BeforeSeparator(argv) + Tail(FinalCargo(p))
            && AfterSeparator(argv) <= FinalCargo(p)
            && |FinalCargo(p)| <= |AfterSeparator(argv)| + 1
            && (FinalCargo(p) == AfterSeparator(argv) <==> p.fix || AnyTargetSelection(AfterSeparator(argv)))
  {
    ParseSplitsAtTheSeparator(argv);
  }
}
