/**
 What the lint wrapper reads in an argument list and what it adds to it, said argument by argument and in the
 words of the command line.
 */
module WrapperReading {
  import opened WrapperArgs

  // ---------------------------------------------------------------- the meaning of single arguments

  /** The value that an argument asks the next one for. */
  function Opens(arg: string): Expect {
    if arg == "--manifest-path" then ManifestPath
    else if arg == "-p" || arg == "--package" then PackageSelection
    else if arg == "--lib" || arg == "--lib-path" then LibrarySelection
    else Nothing
  }

  /** What an argument settles on its own. */
  predicate Settles(arg: string, f: Flag) {
    match f
    case HasManifestPath => "--manifest-path=" <= arg
    case HasPackageSelection => arg == "--workspace" || "--package=" <= arg
    case HasNoDeps => arg == "--no-deps"
    case HasLibrarySelection => "--lib=" <= arg || "--lib-path=" <= arg
    case HasFix => arg == "--fix"
    case HasCargoTargetSelection => false
  }

  /** What a value settles that was asked for. */
  predicate Answers(e: Expect, f: Flag) {
    match e
    case ManifestPath => f == HasManifestPath
    case PackageSelection => f == HasPackageSelection
    case LibrarySelection => f == HasLibrarySelection
    case Nothing => false
  }

  /** A cargo argument that selects targets. */
  predicate PicksTarget(arg: string) {
    || arg in {"--all-targets", "--lib", "--bins", "--tests", "--examples", "--benches", "--doc", "--bin", "--test", "--example", "--bench"}
    || "--bin=" <= arg || "--test=" <= arg || "--example=" <= arg || "--bench=" <= arg
  }

  lemma ClassifyOpens(arg: string)
    ensures Opens(arg) == if Classify(arg).Asks? then Classify(arg).value else Nothing
  {
    assert |"--manifest-path"| == 15 && |"--package"| == 9 && |"--lib"| == 5 && |"--lib-path"| == 10 && |"-p"| == 2;
    assert |"--manifest-path="| == 16 && |"--package="| == 10 && |"--lib="| == 6 && |"--lib-path="| == 11;
    assert "--lib-path"[2] == 'l' && "--lib"[2] == 'l' && "--package"[2] == 'p' && "--manifest-path"[2] == 'm';
    assert "--fix"[2] == 'f' && "--workspace"[2] == 'w' && "--no-deps"[2] == 'n';
    assert "--package="[2] == 'p' && "--manifest-path="[2] == 'm' && "--lib="[5] == '=' && "--lib-path"[5] == '-';
  }

  lemma ClassifySettles(arg: string, p: Parsed, f: Flag)
    ensures f in TakeFlag(p, Classify(arg)).flags <==> f in p.flags || Settles(arg, f)
  {
    assert |"--manifest-path"| == 15 && |"--package"| == 9 && |"--lib"| == 5 && |"--lib-path"| == 10 && |"-p"| == 2;
    assert |"--manifest-path="| == 16 && |"--package="| == 10 && |"--lib="| == 6 && |"--lib-path="| == 11;
    assert "--fix"[2] == 'f' && "--workspace"[2] == 'w' && "--no-deps"[2] == 'n' && "-p"[1] == 'p';
    assert "--package="[2] == 'p' && "--manifest-path="[2] == 'm' && "--lib="[2] == 'l' && "--lib-path="[2] == 'l';
    assert "--lib="[5] == '=' && "--lib-path"[5] == '-' && "--package="[1] == '-' && "--manifest-path="[1] == '-';
  }

  lemma ValueSettles(e: Expect, p: Parsed, f: Flag)
    ensures f in TakeValue(p, e).flags <==> f in p.flags || Answers(e, f)
  {
  }

  // ---------------------------------------------------------------- reading a list

  /** The lint arguments end at `n`: there is no separator before, and one there unless the list ends. */
  predicate EndsAt(argv: seq<string>, n: nat) {
    n <= |argv| && (n < |argv| ==> argv[n] == "--") && forall i :: 0 <= i < n ==> argv[i] != "--"
  }

  /** Every list has such an end. */
  lemma EndExists(argv: seq<string>) returns (n: nat)
    ensures EndsAt(argv, n)
  {
    n := 0;
    while n < |argv| && argv[n] != "--"
      invariant n <= |argv| && forall i :: 0 <= i < n ==> argv[i] != "--"
    {
      n := n + 1;
    }
  }

  /** Argument `i` is the value of the flag before it, which is not itself a value. */
  predicate IsValue(argv: seq<string>, i: nat)
    requires i <= |argv|
  {
    i > 0 && Opens(argv[i - 1]) != Nothing && !IsValue(argv, i - 1)
  }

  /** Argument `i` settles `f`. */
  predicate SettlesAt(argv: seq<string>, i: nat, f: Flag)
    requires i < |argv|
  {
    if IsValue(argv, i) then Answers(Opens(argv[i - 1]), f) else Settles(argv[i], f)
  }

  /** One of the first `n` arguments settles `f`. */
  predicate Named(argv: seq<string>, n: nat, f: Flag)
    requires n <= |argv|
  {
    exists i :: 0 <= i < n && SettlesAt(argv, i, f)
  }

  lemma NamedNext(argv: seq<string>, n: nat, f: Flag)
    requires n < |argv|
    ensures Named(argv, n + 1, f) <==> Named(argv, n, f) || SettlesAt(argv, n, f)
  {
  }

  /** What the scanner has collected from the first `n` arguments, none of them a separator. */
  predicate Collected(argv: seq<string>, n: nat, s: Scanner)
    requires n <= |argv|
  {
    && s.parsed.lintArgs == argv[..n] && s.parsed.cargoArgs == [] && !s.afterSeparator
    && s.awaited == (if IsValue(argv, n) then Opens(argv[n - 1]) else Nothing)
    && forall f :: f in s.parsed.flags <==> Named(argv, n, f)
  }

  lemma CollectNext(argv: seq<string>, n: nat, s: Scanner)
    requires n < |argv| && argv[n] != "--" && Collected(argv, n, s)
    ensures Collected(argv, n + 1, Scan(Wrapper(), s, argv[n]))
  {
    var arg := argv[n];
    var p := s.parsed.(lintArgs := s.parsed.lintArgs + [arg]);
    assert argv[..n + 1] == argv[..n] + [arg];
    ClassifyOpens(arg);
    forall f: Flag
      ensures f in Scan(Wrapper(), s, arg).parsed.flags <==> Named(argv, n + 1, f)
    {
      NamedNext(argv, n, f);
      ClassifySettles(arg, p, f);
      ValueSettles(s.awaited, p, f);
    }
  }

  lemma {:induction false} CollectedAt(argv: seq<string>, n: nat)
    requires n <= |argv| && forall i :: 0 <= i < n ==> argv[i] != "--"
    ensures Collected(argv, n, ScanAll(Wrapper(), START, argv[..n]))
  {
    if n > 0 {
      CollectedAt(argv, n - 1);
      assert argv[..n] == argv[..n - 1] + [argv[n - 1]];
      ScanSnoc(Wrapper(), START, argv[..n - 1], argv[n - 1]);
      CollectNext(argv, n - 1, ScanAll(Wrapper(), START, argv[..n - 1]));
    }
  }

  /** The arguments after the separator. */
  function CargoPart(argv: seq<string>, n: nat): seq<string>
    requires n <= |argv|
  {
    if n < |argv| then argv[n + 1..] else []
  }

  predicate PicksTargets(args: seq<string>) {
    exists i :: 0 <= i < |args| && PicksTarget(args[i])
  }

  lemma CargoRead(s: Scanner, args: seq<string>)
    requires s.parsed.cargoArgs == [] && HasCargoTargetSelection !in s.parsed.flags && !s.afterSeparator
    ensures var t := ScanAll(Wrapper(), s.(afterSeparator := true), args).parsed;
            && t.lintArgs == s.parsed.lintArgs && t.cargoArgs == args
            && (HasCargoTargetSelection in t.flags <==> PicksTargets(args))
            && forall f :: f != HasCargoTargetSelection ==> (f in t.flags <==> f in s.parsed.flags)
  {
    ScanCargo(Wrapper(), s.parsed, s.awaited, args);
    assert forall i :: 0 <= i < |args| ==> (Wrapper().selectsTarget(args[i]) <==> PicksTarget(args[i]));
  }

  /**
   Parsing, for every argument list: what comes before the first separator are lint arguments and what comes
   after it is for cargo. A flag counts as given exactly if an argument spells it out or is the value that the
   argument before it asked for, where a value is never read as a flag.
   */
  lemma ParseReads(argv: seq<string>, n: nat)
    requires EndsAt(argv, n)
    ensures var p := Parse(Wrapper(), argv);
            && p.lintArgs == argv[..n] && p.cargoArgs == CargoPart(argv, n)
            && (HasCargoTargetSelection in p.flags <==> PicksTargets(CargoPart(argv, n)))
            && forall f :: f != HasCargoTargetSelection ==> (f in p.flags <==> Named(argv, n, f))
  {
    CollectedAt(argv, n);
    var s := ScanAll(Wrapper(), START, argv[..n]);
    assert !Named(argv, n, HasCargoTargetSelection);
    if n == |argv| {
      assert argv[..n] == argv;
      assert !PicksTargets([]);
    } else {
      var rest := argv[n + 1..];
      assert argv == argv[..n] + (["--"] + rest);
      ScanConcat(Wrapper(), START, argv[..n], ["--"] + rest);
      ScanConcat(Wrapper(), s, ["--"], rest);
      ScanOne(Wrapper(), s, "--");
      assert Scan(Wrapper(), s, "--") == s.(afterSeparator := true);
      CargoRead(s, rest);
    }
  }

  /**
   The final arguments, for every argument list: the manifest, the workspace and the dependency switch that were
   not given, then what was, then all targets for cargo unless it was given some or is to fix.
   */
  lemma FinalArguments(argv: seq<string>, n: nat, manifest: string)
    requires EndsAt(argv, n)
    ensures var named := (f: Flag) => Named(argv, n, f);
            var cargo := CargoPart(argv, n) + if named(HasFix) || PicksTargets(CargoPart(argv, n)) then [] else ["--all-targets"];
            Normalize(Wrapper(), argv, manifest) ==
              (if named(HasManifestPath) then [] else ["--manifest-path", manifest])
              + (if named(HasManifestPath) || named(HasPackageSelection) then [] else ["--workspace"])
              + (if named(HasNoDeps) then [] else ["--no-deps"])
              + argv[..n]
              + (if cargo == [] then [] else ["--"] + cargo)
  {
    ParseReads(argv, n);
  }
}
