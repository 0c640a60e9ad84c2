/** What the flags the parser finds mean, argument by argument, and so what the wrapper passes on. */
module LintArgsMeaning {
  import opened LintArgs
  import opened LintArgsGuarantees

  /** The things a lint argument can say. */
  datatype Meaning = Manifest | Packages | NoDeps | Fixing | Library

  /** The arguments after which the next one is a value that says it. */
  function Announcers(what: Meaning): set<string> {
    match what
    case Manifest => {"--manifest-path"}
    case Packages => {"-p", "--package"}
    case Library => {"--lib", "--lib-path"}
    case _ => {}
  }

  /** The arguments that say it themselves. */
  predicate SaysItself(arg: string, what: Meaning) {
    match what
    case Manifest => "--manifest-path=" <= arg
    case Packages => arg == "--workspace" || "--package=" <= arg
    case NoDeps => arg == "--no-deps"
    case Fixing => arg == "--fix"
    case Library => "--lib=" <= arg || "--lib-path=" <= arg
  }

  predicate Announces(arg: string) {
    exists what :: arg in Announcers(what)
  }

  /** An argument is a value when the one before it announces one and is not itself a value. */
  predicate IsValueAt(args: seq<string>, i: nat)
    requires i < |args|
  {
    i > 0 && Announces(args[i - 1]) && !IsValueAt(args, i - 1)
  }

  predicate SaysAt(args: seq<string>, i: nat, what: Meaning)
    requires i < |args|
  {
    if IsValueAt(args, i) then args[i - 1] in Announcers(what) else SaysItself(args[i], what)
  }

  predicate Says(args: seq<string>, what: Meaning) {
    exists i :: 0 <= i < |args| && SaysAt(args, i, what)
  }

  /** The last argument announces a value that is not there. */
  predicate Dangles(args: seq<string>, what: Meaning) {
    args != [] && args[|args| - 1] in Announcers(what) && !IsValueAt(args, |args| - 1)
  }

  // ----- One more argument -----

  lemma {:induction false} ValueAtPrefix(args: seq<string>, a: string, i: nat)
    requires i < |args|
    ensures IsValueAt(args + [a], i) == IsValueAt(args, i)
  {
    assert (args + [a])[i] == args[i];
    if i > 0 {
      assert (args + [a])[i - 1] == args[i - 1];
      ValueAtPrefix(args, a, i - 1);
    }
  }

  predicate Awaits(args: seq<string>) {
    exists what :: Dangles(args, what)
  }

  lemma LastIsValue(args: seq<string>, a: string)
    ensures IsValueAt(args + [a], |args|) <==> Awaits(args)
  {
    if args != [] {
      ValueAtPrefix(args, a, |args| - 1);
      assert (args + [a])[|args| - 1] == args[|args| - 1];
      if Announces(args[|args| - 1]) && !IsValueAt(args, |args| - 1) {
        var what :| args[|args| - 1] in Announcers(what);
        assert Dangles(args, what);
      }
      if Awaits(args) {
        var what :| Dangles(args, what);
        assert args[|args| - 1] in Announcers(what);
      }
    }
  }

  lemma SaysAppend(args: seq<string>, a: string, what: Meaning)
    ensures Says(args + [a], what) <==> Says(args, what) || (if Awaits(args) then Dangles(args, what) else SaysItself(a, what))
  {
    var all, n := args + [a], |args|;
    LastIsValue(args, a);
    forall i | 0 <= i < n ensures SaysAt(all, i, what) == SaysAt(args, i, what) {
      ValueAtPrefix(args, a, i);
    }
    assert SaysAt(all, n, what) <==> if Awaits(args) then Dangles(args, what) else SaysItself(a, what) by {
      if Awaits(args) {
        AwaitedIsLast(args, a, what);
      }
    }
    if Says(args, what) {
      var i :| 0 <= i < |args| && SaysAt(args, i, what);
      assert SaysAt(all, i, what);
    }
    if Says(all, what) {
      var i :| 0 <= i < |all| && SaysAt(all, i, what);
      assert i < n ==> SaysAt(args, i, what);
    }
  }

  lemma AwaitedIsLast(args: seq<string>, a: string, what: Meaning)
    requires Awaits(args)
    ensures args != [] && ((args + [a])[|args| - 1] in Announcers(what) <==> Dangles(args, what))
  {
    var other :| Dangles(args, other);
    assert (args + [a])[|args| - 1] == args[|args| - 1];
  }

  lemma DanglesAppend(args: seq<string>, a: string, what: Meaning)
    ensures Dangles(args + [a], what) <==> !Awaits(args) && a in Announcers(what)
  {
    LastIsValue(args, a);
  }

  // ----- What the parser makes of an argument -----

  /** The effect of an argument that announces a value, or says something itself. */
  function EffectOf(what: Meaning): Effect {
    match what
    case Manifest => SetsManifestPath
    case Packages => SetsPackageSelection
    case NoDeps => SetsNoDeps
    case Fixing => SetsFix
    case Library => SetsLibrarySelection
  }

  function AwaitedFor(what: Meaning): Awaited
    requires what == Manifest || what == Packages || what == Library
  {
    match what
    case Manifest => ManifestPath
    case Packages => PackageSelection
    case Library => LibrarySelection
  }

  lemma LongPrefixes(arg: string)
    ensures "--manifest-path=" <= arg ==> |arg| >= 16 && arg[2] == 'm' && arg[15] == '='
    ensures "--package=" <= arg ==> |arg| >= 10 && arg[2] == 'p' && arg[9] == '='
    ensures "--lib=" <= arg ==> |arg| >= 6 && arg[2] == 'l' && arg[5] == '='
    ensures "--lib-path=" <= arg ==> |arg| >= 11 && arg[2] == 'l' && arg[5] == '-' && arg[10] == '='
  {
  }

  lemma SelfIsRead(arg: string, what: Meaning)
    ensures SaysItself(arg, what) <==> Classify(arg) == EffectOf(what)
  {
    LongPrefixes(arg);
  }

  lemma AnnouncerIsRead(arg: string, what: Meaning)
    requires what == Manifest || what == Packages || what == Library
    ensures arg in Announcers(what) <==> Classify(arg) == Effect.Awaits(AwaitedFor(what))
  {
    LongPrefixes(arg);
    assert arg == "--package" ==> arg[2] == 'p' && |arg| == 9;
    assert arg == "--lib" ==> arg[2] == 'l' && |arg| == 5;
    assert arg == "--lib-path" ==> arg[2] == 'l' && |arg| == 10;
    assert arg == "-p" ==> |arg| == 2;
  }

  /** The parser's state after some lint arguments. */
  predicate Means(st: ParseState, args: seq<string>) {
    && !st.afterSeparator
    && (st.parsed.manifestPath <==> Says(args, Manifest)) && (st.parsed.packageSelection <==> Says(args, Packages))
    && (st.parsed.noDeps <==> Says(args, NoDeps)) && (st.parsed.fix <==> Says(args, Fixing))
    && (st.parsed.librarySelection <==> Says(args, Library))
    && (st.awaited == ManifestPath <==> Dangles(args, Manifest)) && (st.awaited == PackageSelection <==> Dangles(args, Packages))
    && (st.awaited == LibrarySelection <==> Dangles(args, Library))
  }

  lemma AwaitsSomething(st: ParseState, args: seq<string>)
    requires Means(st, args)
    ensures st.awaited != Nothing <==> Awaits(args)
  {
    if Awaits(args) {
      var what :| Dangles(args, what);
    }
    if st.awaited != Nothing {
      assert Dangles(args, Manifest) || Dangles(args, Packages) || Dangles(args, Library);
    }
  }

  lemma AllAppend(args: seq<string>, a: string)
    ensures forall what :: Says(args + [a], what) <==>
              Says(args, what) || (if Awaits(args) then Dangles(args, what) else SaysItself(a, what))
    ensures forall what :: Dangles(args + [a], what) <==> !Awaits(args) && a in Announcers(what)
  {
    forall what ensures Says(args + [a], what) <==>
              Says(args, what) || (if Awaits(args) then Dangles(args, what) else SaysItself(a, what)) {
      SaysAppend(args, a, what);
    }
    forall what ensures Dangles(args + [a], what) <==> !Awaits(args) && a in Announcers(what) {
      DanglesAppend(args, a, what);
    }
  }

  lemma ValueMeans(st: ParseState, args: seq<string>, a: string)
    requires Means(st, args) && st.awaited != Nothing
    ensures Means(KeepLintArg(st, a, Classify(a)), args + [a])
  {
    AwaitsSomething(st, args);
    AllAppend(args, a);
    assert !Dangles(args, NoDeps) && !Dangles(args, Fixing);
  }

  lemma FlagMeans(st: ParseState, args: seq<string>, a: string)
    requires Means(st, args) && st.awaited == Nothing
    ensures Means(KeepLintArg(st, a, Classify(a)), args + [a])
  {
    AwaitsSomething(st, args);
    AllAppend(args, a);
    SelfIsRead(a, Manifest);
    SelfIsRead(a, Packages);
    SelfIsRead(a, NoDeps);
    SelfIsRead(a, Fixing);
    SelfIsRead(a, Library);
    AnnouncerIsRead(a, Manifest);
    AnnouncerIsRead(a, Packages);
    AnnouncerIsRead(a, Library);
  }

  /** In every list of lint arguments the parser finds exactly what the arguments say. */
  lemma {:induction false} ParserFindsWhatIsSaid(args: seq<string>)
    requires SEPARATOR !in args
    ensures Means(ParseFrom(START, args), args)
  {
    if args != [] {
      var front, a := args[..|args| - 1], args[|args| - 1];
      assert args == front + [a];
      ParserFindsWhatIsSaid(front);
      ParseConcat(START, front, [a]);
      ParseFlagOf(ParseFrom(START, front), a);
      if ParseFrom(START, front).awaited == Nothing {
        FlagMeans(ParseFrom(START, front), front, a);
      } else {
        ValueMeans(ParseFrom(START, front), front, a);
      }
    }
  }

  // ----- What is passed on -----

  /** A cargo argument that chooses targets. */
  predicate ChoosesTargets(arg: string) {
    || arg in {"--all-targets", "--lib", "--bins", "--tests", "--examples", "--benches", "--doc",
               "--bin", "--test", "--example", "--bench"}
    || "--bin=" <= arg || "--test=" <= arg || "--example=" <= arg || "--bench=" <= arg
  }

  predicate AnyChoosesTargets(args: seq<string>) {
    exists i :: 0 <= i < |args| && ChoosesTargets(args[i])
  }

  lemma TargetsAreRead(args: seq<string>)
    ensures AnyTargetSelection(args) <==> AnyChoosesTargets(args)
  {
    forall i | 0 <= i < |args| ensures IsTargetSelection(args[i]) <==> ChoosesTargets(args[i]) {
    }
    if i :| 0 <= i < |args| && ChoosesTargets(args[i]) {
      assert IsTargetSelection(args[i]);
    }
    if i :| 0 <= i < |args| && IsTargetSelection(args[i]) {
      assert ChoosesTargets(args[i]);
    }
  }

  function Unless(said: bool, args: seq<string>): seq<string> {
    if said then [] else args
  }

  /** The final arguments for lint and cargo arguments, by what those say. */
  function FinalFor(lint: seq<string>, cargo: seq<string>, manifestPath: string): seq<string> {
    var allCargo := cargo + Unless(Says(lint, Fixing) || AnyChoosesTargets(cargo), ["--all-targets"]);
    Unless(Says(lint, Manifest), ["--manifest-path", manifestPath])
    + Unless(Says(lint, Packages) || Says(lint, Manifest), ["--workspace"])
    + Unless(Says(lint, NoDeps), ["--no-deps"])
    + lint
    + Unless(allCargo == [], ["--"] + allCargo)
  }

  lemma ParsedFlags(argv: seq<string>)
    ensures var p, lint, cargo := Parse(argv), BeforeSeparator(argv), AfterSeparator(argv);
            && p.lint == lint && p.cargo == cargo && p.targetSelection == AnyChoosesTargets(cargo)
            && p.manifestPath == Says(lint, Manifest) && p.packageSelection == Says(lint, Packages)
            && p.noDeps == Says(lint, NoDeps) && p.fix == Says(lint, Fixing) && p.librarySelection == Says(lint, Library)
  {
    ParseSplitsAtTheSeparator(argv);
    SplitAtSeparator(argv);
    ParserFindsWhatIsSaid(BeforeSeparator(argv));
    TargetsAreRead(AfterSeparator(argv));
  }

  lemma BuiltIsFinal(argv: seq<string>, manifestPath: string)
    ensures Build(Parse(argv), manifestPath) == FinalFor(BeforeSeparator(argv), AfterSeparator(argv), manifestPath)
  {
    ParsedFlags(argv);
  }

  /** The wrapper's arguments from the caller's, parsed and then rebuilt.  The caller's lint and cargo
      arguments are all there in order; each default is added exactly when they do not say otherwise.
      Doing the same to the result gives it back, exactly unless the default manifest path is used
      and is itself the separator. */
  method FinalArgs(argv: seq<string>, manifestPath: string) returns (finalArgs: seq<string>)
    ensures finalArgs == FinalFor(BeforeSeparator(argv), AfterSeparator(argv), manifestPath)
    ensures FinalFor(BeforeSeparator(finalArgs), AfterSeparator(finalArgs), manifestPath) == finalArgs <==>
            Says(BeforeSeparator(argv), Manifest) || manifestPath != "--"
  {
    var parsed := ParseWrapperArgs(argv);
    finalArgs := BuildFinalArgs(parsed, manifestPath);
    BuiltIsFinal(argv, manifestPath);
    BuiltIsFinal(finalArgs, manifestPath);
    ParsedFlags(argv);
    NormalisationIsIdempotent(argv, manifestPath);
  }
}
