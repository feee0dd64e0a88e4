/**
 The lint wrapper's argument normaliser: a scanner that remembers when the next argument is
 a flag's value, and a printer that adds the defaults the scanner found missing.
 */
module WrapperArgs {

  /** The flag whose value the scanner is waiting for. */
  datatype Expect = Nothing | ManifestPath | PackageSelection | LibrarySelection

  /** The `has_...` fields of the parse result. */
  datatype Flag = HasManifestPath | HasPackageSelection | HasNoDeps | HasLibrarySelection | HasCargoTargetSelection | HasFix

  /** `flags` are the fields that are set. */
  datatype Parsed = Parsed(lintArgs: seq<string>, cargoArgs: seq<string>, flags: set<Flag>)

  datatype Scanner = Scanner(parsed: Parsed, afterSeparator: bool, awaited: Expect)

  const BLANK := Parsed([], [], {})
  const START := Scanner(BLANK, false, Nothing)

  const SEPARATOR := "--"
  const MANIFEST := "--manifest-path"
  const WORKSPACE := "--workspace"
  const NO_DEPS := "--no-deps"
  const ALL_TARGETS := "--all-targets"

  predicate SelectsTarget(arg: string) {
    || arg in {ALL_TARGETS, "--lib", "--bins", "--tests", "--examples", "--benches", "--doc"}
    || arg in {"--bin", "--test", "--example", "--bench"}
    || "--bin=" <= arg || "--test=" <= arg || "--example=" <= arg || "--bench=" <= arg
  }

  function Set(p: Parsed, f: Flag): Parsed {
    p.(flags := p.flags + {f})
  }

  /** A lint argument that is some flag's value. */
  function TakeValue(p: Parsed, e: Expect): Parsed {
    match e
    case ManifestPath => Set(p, HasManifestPath)
    case PackageSelection => Set(p, HasPackageSelection)
    case LibrarySelection => Set(p, HasLibrarySelection)
    case Nothing => p
  }

  /** What a lint argument on its own says. */
  datatype Kind = Plain | Asks(value: Expect) | Gives(value: Expect) | Fix | NoDeps

  function Classify(arg: string): Kind {
    if arg == MANIFEST then Asks(ManifestPath)
    else if "--manifest-path=" <= arg then Gives(ManifestPath)
    else if arg == "-p" || arg == "--package" then Asks(PackageSelection)
    else if "--package=" <= arg then Gives(PackageSelection)
    else if arg == "--fix" then Fix
    else if arg == WORKSPACE then Gives(PackageSelection)
    else if arg == NO_DEPS then NoDeps
    else if arg == "--lib" || arg == "--lib-path" then Asks(LibrarySelection)
    else if "--lib=" <= arg || "--lib-path=" <= arg then Gives(LibrarySelection)
    else Plain
  }

  function TakeFlag(p: Parsed, kind: Kind): Parsed {
    match kind
    case Gives(e) => TakeValue(p, e)
    case Fix => Set(p, HasFix)
    case NoDeps => Set(p, HasNoDeps)
    case _ => p
  }

  /** One argument, given what its text means. */
  function ScanAs(s: Scanner, arg: string, isSeparator: bool, selectsTarget: bool, kind: Kind): Scanner {
    var p := s.parsed;
    if s.afterSeparator then
      var p1 := p.(cargoArgs := p.cargoArgs + [arg]);
      s.(parsed := if selectsTarget then Set(p1, HasCargoTargetSelection) else p1)
    else if isSeparator then s.(afterSeparator := true)
    else
      var p1 := p.(lintArgs := p.lintArgs + [arg]);
      if s.awaited != Nothing then Scanner(TakeValue(p1, s.awaited), false, Nothing)
      else Scanner(TakeFlag(p1, kind), false, if kind.Asks? then kind.value else Nothing)
  }

  /** How argument texts are read; the scanning laws hold whatever the flags are called. */
  datatype Vocabulary = Vocabulary(isSeparator: string -> bool, selectsTarget: string -> bool, classify: string -> Kind)

  function Wrapper(): Vocabulary {
    Vocabulary(arg => arg == SEPARATOR, arg => SelectsTarget(arg), arg => Classify(arg))
  }

  function Scan(v: Vocabulary, s: Scanner, arg: string): Scanner {
    ScanAs(s, arg, v.isSeparator(arg), v.selectsTarget(arg), v.classify(arg))
  }

  function ScanAll(v: Vocabulary, s: Scanner, argv: seq<string>): Scanner {
    if argv == [] then s else Scan(v, ScanAll(v, s, argv[..|argv| - 1]), argv[|argv| - 1])
  }

  function Parse(v: Vocabulary, argv: seq<string>): Parsed {
    ScanAll(v, START, argv).parsed
  }

  lemma ScanSnoc(v: Vocabulary, s: Scanner, argv: seq<string>, arg: string)
    ensures ScanAll(v, s, argv + [arg]) == Scan(v, ScanAll(v, s, argv), arg)
  {
    assert (argv + [arg])[..|argv|] == argv;
  }

  /** What the loop does with a lint argument that it has just recorded. */
  method ScanLintArg(parsed: Parsed, expectValue: Expect, arg: string) returns (parsed': Parsed, expectValue': Expect)
    ensures if expectValue != Nothing then parsed' == TakeValue(parsed, expectValue) && expectValue' == Nothing
            else parsed' == TakeFlag(parsed, Classify(arg))
                 && expectValue' == if Classify(arg).Asks? then Classify(arg).value else Nothing
  {
    parsed', expectValue' := parsed, Nothing;
    if expectValue != Nothing {
      if expectValue == ManifestPath {
        parsed' := Set(parsed, HasManifestPath);
      } else if expectValue == PackageSelection {
        parsed' := Set(parsed, HasPackageSelection);
      } else {
        parsed' := Set(parsed, HasLibrarySelection);
      }
      return;
    }
    if arg == MANIFEST {
      expectValue' := ManifestPath;
    } else if "--manifest-path=" <= arg {
      parsed' := Set(parsed, HasManifestPath);
    } else if arg == "-p" || arg == "--package" {
      expectValue' := PackageSelection;
    } else if "--package=" <= arg {
      parsed' := Set(parsed, HasPackageSelection);
    } else if arg == "--fix" {
      parsed' := Set(parsed, HasFix);
    } else if arg == WORKSPACE {
      parsed' := Set(parsed, HasPackageSelection);
    } else if arg == NO_DEPS {
      parsed' := Set(parsed, HasNoDeps);
    } else if arg == "--lib" || arg == "--lib-path" {
      expectValue' := LibrarySelection;
    } else if "--lib=" <= arg || "--lib-path=" <= arg {
      parsed' := Set(parsed, HasLibrarySelection);
    }
  }

  /** The source's scanning loop. */
  method ParseWrapperArgs(argv: seq<string>) returns (parsed: Parsed)
    ensures parsed == Parse(Wrapper(), argv)
  {
    parsed := BLANK;
    var afterSeparator := false;
    var expectValue := Nothing;
    for i := 0 to |argv|
      invariant Scanner(parsed, afterSeparator, expectValue) == ScanAll(Wrapper(), START, argv[..i])
    {
      var arg := argv[i];
      ScanSnoc(Wrapper(), START, argv[..i], arg);
      assert argv[..i + 1] == argv[..i] + [arg];
      if afterSeparator {
        parsed := parsed.(cargoArgs := parsed.cargoArgs + [arg]);
        if SelectsTarget(arg) {
          parsed := Set(parsed, HasCargoTargetSelection);
        }
        continue;
      }
      if arg == SEPARATOR {
        afterSeparator := true;
        continue;
      }
      parsed := parsed.(lintArgs := parsed.lintArgs + [arg]);
      parsed, expectValue := ScanLintArg(parsed, expectValue, arg);
    }
    assert argv[..|argv|] == argv;
  }

  // ---------------------------------------------------------------- the printer

  /** The defaults put in front of the user's lint arguments. */
  function Defaults(p: Parsed, manifest: string): seq<string> {
    (if HasManifestPath in p.flags then [] else [MANIFEST, manifest]) +
    (if HasPackageSelection in p.flags || HasManifestPath in p.flags then [] else [WORKSPACE]) +
    (if HasNoDeps in p.flags then [] else [NO_DEPS])
  }

  function CargoArgs(p: Parsed): seq<string> {
    p.cargoArgs + if HasFix in p.flags || HasCargoTargetSelection in p.flags then [] else [ALL_TARGETS]
  }

  function Separated(cargo: seq<string>): seq<string> {
    if cargo == [] then [] else [SEPARATOR] + cargo
  }

  function Build(p: Parsed, manifest: string): seq<string> {
    Defaults(p, manifest) + p.lintArgs + Separated(CargoArgs(p))
  }

  method BuildFinalArgs(p: Parsed, manifest: string) returns (finalArgs: seq<string>)
    ensures finalArgs == Build(p, manifest)
  {
    finalArgs := [];
    var cargoArgs := p.cargoArgs;
    if HasManifestPath !in p.flags {
      finalArgs := finalArgs + [MANIFEST, manifest];
    }
    if HasPackageSelection !in p.flags && HasManifestPath !in p.flags {
      finalArgs := finalArgs + [WORKSPACE];
    }
    if HasNoDeps !in p.flags {
      finalArgs := finalArgs + [NO_DEPS];
    }
    if HasFix !in p.flags && HasCargoTargetSelection !in p.flags {
      cargoArgs := cargoArgs + [ALL_TARGETS];
    }
    assert cargoArgs == CargoArgs(p);
    finalArgs := finalArgs + p.lintArgs;
    if cargoArgs != [] {
      finalArgs := finalArgs + ([SEPARATOR] + cargoArgs);
    }
  }

  /** Parsing the arguments and building them again. */
  function Normalize(v: Vocabulary, argv: seq<string>, manifest: string): seq<string> {
    Build(Parse(v, argv), manifest)
  }

  // ---------------------------------------------------------------- how scanning composes

  lemma {:induction false} ScanConcat(v: Vocabulary, s: Scanner, a: seq<string>, b: seq<string>)
    ensures ScanAll(v, s, a + b) == ScanAll(v, ScanAll(v, s, a), b)
    decreases b
  {
    if b == [] {
      assert a + b == a;
    } else {
      var front, last := b[..|b| - 1], b[|b| - 1];
      ScanConcat(v, s, a, front);
      assert a + b == (a + front) + [last];
      ScanSnoc(v, s, a + front, last);
      ScanSnoc(v, ScanAll(v, s, a), front, last);
      assert b == front + [last];
    }
  }

  /** What scanning `p` amounts to when the flags and lint arguments of `base` came before. */
  function After(base: Parsed, p: Parsed): Parsed {
    Parsed(base.lintArgs + p.lintArgs, p.cargoArgs, base.flags + p.flags)
  }

  lemma SetAfter(base: Parsed, p: Parsed, f: Flag)
    ensures Set(After(base, p), f) == After(base, Set(p, f))
  {
    assert (base.flags + p.flags) + {f} == base.flags + (p.flags + {f});
  }

  lemma TakeValueAfter(base: Parsed, p: Parsed, e: Expect)
    ensures TakeValue(After(base, p), e) == After(base, TakeValue(p, e))
  {
    match e
    case Nothing =>
    case ManifestPath => SetAfter(base, p, HasManifestPath);
    case PackageSelection => SetAfter(base, p, HasPackageSelection);
    case LibrarySelection => SetAfter(base, p, HasLibrarySelection);
  }

  lemma TakeFlagAfter(base: Parsed, p: Parsed, kind: Kind)
    ensures TakeFlag(After(base, p), kind) == After(base, TakeFlag(p, kind))
  {
    match kind
    case Plain =>
    case Asks(_) =>
    case Gives(e) => TakeValueAfter(base, p, e);
    case Fix => SetAfter(base, p, HasFix);
    case NoDeps => SetAfter(base, p, HasNoDeps);
  }

  function Shift(base: Parsed, s: Scanner): Scanner {
    s.(parsed := After(base, s.parsed))
  }

  lemma ScanAfter(v: Vocabulary, base: Parsed, s: Scanner, arg: string)
    ensures Scan(v, Shift(base, s), arg) == Shift(base, Scan(v, s, arg))
  {
    var p := s.parsed;
    if s.afterSeparator {
      var p1 := p.(cargoArgs := p.cargoArgs + [arg]);
      assert After(base, p1) == After(base, p).(cargoArgs := p1.cargoArgs);
      SetAfter(base, p1, HasCargoTargetSelection);
    } else if !v.isSeparator(arg) {
      var p1 := p.(lintArgs := p.lintArgs + [arg]);
      assert base.lintArgs + (p.lintArgs + [arg]) == (base.lintArgs + p.lintArgs) + [arg];
      assert After(base, p1) == After(base, p).(lintArgs := After(base, p).lintArgs + [arg]);
      if s.awaited != Nothing {
        TakeValueAfter(base, p1, s.awaited);
      } else {
        TakeFlagAfter(base, p1, v.classify(arg));
      }
    }
  }

  lemma {:induction false} ScanAllAfter(v: Vocabulary, base: Parsed, s: Scanner, argv: seq<string>)
    ensures ScanAll(v, Shift(base, s), argv) == Shift(base, ScanAll(v, s, argv))
    decreases argv
  {
    if argv != [] {
      ScanAllAfter(v, base, s, argv[..|argv| - 1]);
      ScanAfter(v, base, ScanAll(v, s, argv[..|argv| - 1]), argv[|argv| - 1]);
    }
  }

  predicate AnySelects(v: Vocabulary, args: seq<string>) {
    exists i :: 0 <= i < |args| && v.selectsTarget(args[i])
  }

  lemma AnySelectsSnoc(v: Vocabulary, args: seq<string>, arg: string)
    ensures AnySelects(v, args + [arg]) == (AnySelects(v, args) || v.selectsTarget(arg))
  {
    var all := args + [arg];
    assert all[|args|] == arg;
    if AnySelects(v, args) {
      var i :| 0 <= i < |args| && v.selectsTarget(args[i]);
      assert v.selectsTarget(all[i]);
    }
  }

  /** `p` with other cargo arguments, and the flag that goes with them. */
  function WithCargo(v: Vocabulary, p: Parsed, args: seq<string>): Parsed {
    var p1 := LintOnly(p).(cargoArgs := args);
    if AnySelects(v, args) then Set(p1, HasCargoTargetSelection) else p1
  }

  /** After the separator, arguments pass through. */
  lemma {:induction false} ScanCargo(v: Vocabulary, p: Parsed, e: Expect, args: seq<string>)
    requires p.cargoArgs == [] && HasCargoTargetSelection !in p.flags
    ensures ScanAll(v, Scanner(p, true, e), args) == Scanner(WithCargo(v, p, args), true, e)
    decreases args
  {
    if args != [] {
      var front, last := args[..|args| - 1], args[|args| - 1];
      ScanCargo(v, p, e, front);
      assert args == front + [last];
      AnySelectsSnoc(v, front, last);
    }
  }

  /** The scanner's view of the lint arguments alone. */
  function LintOnly(p: Parsed): Parsed {
    p.(cargoArgs := [], flags := p.flags - {HasCargoTargetSelection})
  }

  /** What holds of a scan `s` and of the rescan `t` of the lint arguments it collected. */
  predicate Rescanned(v: Vocabulary, s: Scanner, t: Scanner) {
    && t.parsed == LintOnly(s.parsed) && !t.afterSeparator
    && (!s.afterSeparator ==> t == s && s.parsed.cargoArgs == [])
    && (HasCargoTargetSelection in s.parsed.flags <==> AnySelects(v, s.parsed.cargoArgs))
  }

  lemma RescanStep(v: Vocabulary, s: Scanner, t: Scanner, arg: string)
    requires Rescanned(v, s, t)
    ensures Rescanned(v, Scan(v, s, arg), if s.afterSeparator || v.isSeparator(arg) then t else Scan(v, t, arg))
  {
    if s.afterSeparator {
      AnySelectsSnoc(v, s.parsed.cargoArgs, arg);
    }
  }

  /** Rescanning the lint arguments that a scan collected finds the same flags. */
  lemma {:induction false} LintArgsRescan(v: Vocabulary, argv: seq<string>)
    ensures var s := ScanAll(v, START, argv);
            Rescanned(v, s, ScanAll(v, START, s.parsed.lintArgs))
    decreases argv
  {
    if argv != [] {
      var front, arg := argv[..|argv| - 1], argv[|argv| - 1];
      LintArgsRescan(v, front);
      var s := ScanAll(v, START, front);
      RescanStep(v, s, ScanAll(v, START, s.parsed.lintArgs), arg);
      if !s.afterSeparator && !v.isSeparator(arg) {
        ScanSnoc(v, START, s.parsed.lintArgs, arg);
        assert Scan(v, s, arg).parsed.lintArgs == s.parsed.lintArgs + [arg];
      }
    }
  }

  lemma ScanOne(v: Vocabulary, s: Scanner, arg: string)
    ensures ScanAll(v, s, [arg]) == Scan(v, s, arg)
  {
    ScanSnoc(v, s, [], arg);
    assert [] + [arg] == [arg];
  }

  /** The printer's own words mean to the scanner what the printer means by them. */
  predicate Fluent(v: Vocabulary) {
    && v.isSeparator(SEPARATOR) && !v.isSeparator(MANIFEST) && !v.isSeparator(WORKSPACE) && !v.isSeparator(NO_DEPS)
    && v.classify(MANIFEST) == Asks(ManifestPath)
    && v.classify(WORKSPACE) == Gives(PackageSelection)
    && v.classify(NO_DEPS) == NoDeps
    && v.selectsTarget(ALL_TARGETS)
  }

  lemma WrapperFluent()
    ensures Fluent(Wrapper())
  {
    assert SEPARATOR[0..2] == "--";
    assert |SEPARATOR| == 2 && |MANIFEST| == 15 && |WORKSPACE| == 11 && |NO_DEPS| == 9;
    assert WORKSPACE[2] == 'w' && NO_DEPS[2] == 'n';
    assert |"--manifest-path="| == 16 && "--package="[2] == 'p' && "--manifest-path="[2] == 'm';
  }

  /** Parsing what the printer puts after its defaults. */
  lemma ReparseTail(v: Vocabulary, argv: seq<string>, cargo: seq<string>)
    requires Fluent(v)
    ensures var p := Parse(v, argv);
            Parse(v, p.lintArgs + Separated(cargo)) == WithCargo(v, p, cargo)
  {
    var p := Parse(v, argv);
    LintArgsRescan(v, argv);
    var t := ScanAll(v, START, p.lintArgs);
    ScanConcat(v, START, p.lintArgs, Separated(cargo));
    if cargo != [] {
      ScanConcat(v, t, [SEPARATOR], cargo);
      ScanOne(v, t, SEPARATOR);
      ScanCargo(v, t.parsed, t.awaited, cargo);
    }
  }

  /** The flags that the defaults set: exactly those that were missing. */
  function DefaultFlags(p: Parsed, manifest: string): Parsed {
    BLANK.(lintArgs := Defaults(p, manifest),
           flags := (if HasManifestPath in p.flags then {} else {HasManifestPath}) +
                    (if HasPackageSelection in p.flags || HasManifestPath in p.flags then {} else {HasPackageSelection}) +
                    (if HasNoDeps in p.flags then {} else {HasNoDeps}))
  }

  function Extend(p: Parsed, args: seq<string>, flags: set<Flag>): Parsed {
    p.(lintArgs := p.lintArgs + args, flags := p.flags + flags)
  }

  lemma ScanManifest(v: Vocabulary, p: Parsed, manifest: string)
    requires Fluent(v) && !v.isSeparator(manifest)
    ensures ScanAll(v, Scanner(p, false, Nothing), [MANIFEST, manifest]) ==
            Scanner(Extend(p, [MANIFEST, manifest], {HasManifestPath}), false, Nothing)
  {
    var s := Scanner(p, false, Nothing);
    assert [MANIFEST, manifest] == [MANIFEST] + [manifest];
    ScanOne(v, s, MANIFEST);
    ScanSnoc(v, s, [MANIFEST], manifest);
    assert p.lintArgs + [MANIFEST] + [manifest] == p.lintArgs + [MANIFEST, manifest];
  }

  /** A flag that needs no value. */
  lemma ScanWord(v: Vocabulary, p: Parsed, word: string, flag: Flag)
    requires !v.isSeparator(word)
    requires (v.classify(word) == Gives(PackageSelection) && flag == HasPackageSelection) || (v.classify(word) == NoDeps && flag == HasNoDeps)
    ensures ScanAll(v, Scanner(p, false, Nothing), [word]) == Scanner(Extend(p, [word], {flag}), false, Nothing)
  {
    ScanOne(v, Scanner(p, false, Nothing), word);
  }

  lemma ScanNone(v: Vocabulary, p: Parsed)
    ensures ScanAll(v, Scanner(p, false, Nothing), []) == Scanner(Extend(p, [], {}), false, Nothing)
  {
    assert p.lintArgs + [] == p.lintArgs && p.flags + {} == p.flags;
  }

  lemma DefaultsScan(v: Vocabulary, p: Parsed, manifest: string)
    requires Fluent(v) && !v.isSeparator(manifest)
    ensures ScanAll(v, START, Defaults(p, manifest)) == Scanner(DefaultFlags(p, manifest), false, Nothing)
  {
    var needsManifest := HasManifestPath !in p.flags;
    var needsPackage := HasPackageSelection !in p.flags && needsManifest;
    var needsNoDeps := HasNoDeps !in p.flags;
    var a, fa := if needsManifest then [MANIFEST, manifest] else [], if needsManifest then {HasManifestPath} else {};
    var b, fb := if needsPackage then [WORKSPACE] else [], if needsPackage then {HasPackageSelection} else {};
    var c, fc := if needsNoDeps then [NO_DEPS] else [], if needsNoDeps then {HasNoDeps} else {};
    var p1 := Extend(BLANK, a, fa);
    var p2 := Extend(p1, b, fb);
    if needsManifest { ScanManifest(v, BLANK, manifest); } else { ScanNone(v, BLANK); }
    if needsPackage { ScanWord(v, p1, WORKSPACE, HasPackageSelection); } else { ScanNone(v, p1); }
    if needsNoDeps { ScanWord(v, p2, NO_DEPS, HasNoDeps); } else { ScanNone(v, p2); }
    ScanConcat(v, START, a, b);
    ScanConcat(v, START, a + b, c);
    assert Extend(p2, c, fc) == DefaultFlags(p, manifest);
  }

  // ---------------------------------------------------------------- results

  /** Reparsing the built arguments: the user's arguments after the defaults, and no flag missing. */
  lemma ReparseBuilt(v: Vocabulary, argv: seq<string>, manifest: string)
    requires Fluent(v) && !v.isSeparator(manifest)
    ensures var p := Parse(v, argv);
            Parse(v, Build(p, manifest)) ==
            After(DefaultFlags(p, manifest), WithCargo(v, p, CargoArgs(p)))
  {
    var p := Parse(v, argv);
    var d := Defaults(p, manifest);
    var tail := p.lintArgs + Separated(CargoArgs(p));
    assert Build(p, manifest) == d + tail;
    ScanConcat(v, START, d, tail);
    DefaultsScan(v, p, manifest);
    var base := DefaultFlags(p, manifest);
    assert base.lintArgs + [] == base.lintArgs;
    assert Shift(base, START) == ScanAll(v, START, d);
    ScanAllAfter(v, base, START, tail);
    ReparseTail(v, argv, CargoArgs(p));
  }

  /** Normalised arguments select targets, unless they fix. */
  lemma CargoSelects(v: Vocabulary, argv: seq<string>)
    requires Fluent(v)
    ensures var p := Parse(v, argv);
            HasFix in p.flags || AnySelects(v, CargoArgs(p))
  {
    var p := Parse(v, argv);
    LintArgsRescan(v, argv);
    if HasFix !in p.flags && HasCargoTargetSelection !in p.flags {
      AnySelectsSnoc(v, p.cargoArgs, ALL_TARGETS);
    } else {
      assert CargoArgs(p) == p.cargoArgs;
    }
  }

  /** Parsing a normalised list finds every default in place: a manifest, `--no-deps`, and targets or `--fix`. */
  lemma NormalizedIsComplete(v: Vocabulary, argv: seq<string>, manifest: string)
    requires Fluent(v) && !v.isSeparator(manifest)
    ensures var q := Parse(v, Normalize(v, argv, manifest));
            HasManifestPath in q.flags && HasNoDeps in q.flags && (HasFix in q.flags || HasCargoTargetSelection in q.flags)
    ensures var p, q := Parse(v, argv), Parse(v, Normalize(v, argv, manifest));
            q.lintArgs == Defaults(p, manifest) + p.lintArgs && q.cargoArgs == CargoArgs(p)
  {
    ReparseBuilt(v, argv, manifest);
    CargoSelects(v, argv);
  }

  lemma IdempotentInVocabulary(v: Vocabulary, argv: seq<string>, manifest: string)
    requires Fluent(v) && !v.isSeparator(manifest)
    ensures Normalize(v, Normalize(v, argv, manifest), manifest) == Normalize(v, argv, manifest)
  {
    NormalizedIsComplete(v, argv, manifest);
    var p := Parse(v, argv);
    var q := Parse(v, Build(p, manifest));
    assert Defaults(q, manifest) == [];
    assert CargoArgs(q) == q.cargoArgs;
    assert Build(q, manifest) == [] + (Defaults(p, manifest) + p.lintArgs) + Separated(CargoArgs(p));
  }

  /** A manifest flag followed by a separator is left dangling; all the rest is for cargo. */
  lemma DanglingManifest(v: Vocabulary, separator: string, rest: seq<string>)
    requires Fluent(v) && v.isSeparator(separator)
    ensures Parse(v, [MANIFEST] + [separator] + rest) == WithCargo(v, BLANK.(lintArgs := [MANIFEST]), rest)
  {
    var s := Scan(v, START, MANIFEST);
    ScanConcat(v, START, [MANIFEST] + [separator], rest);
    ScanOne(v, START, MANIFEST);
    ScanSnoc(v, START, [MANIFEST], separator);
    assert s == Scanner(BLANK.(lintArgs := [MANIFEST]), false, ManifestPath);
    ScanCargo(v, s.parsed, s.awaited, rest);
  }

  lemma BuildGrows(v: Vocabulary, manifest: string, rest: seq<string>)
    ensures var q := WithCargo(v, BLANK.(lintArgs := [MANIFEST]), rest);
            |Build(q, manifest)| > 2 + |rest|
  {
    var q := WithCargo(v, BLANK.(lintArgs := [MANIFEST]), rest);
    assert HasManifestPath !in q.flags && q.lintArgs == [MANIFEST] && q.cargoArgs == rest;
    assert |Defaults(q, manifest)| >= 2 && |CargoArgs(q)| >= |rest|;
  }

  /** With a bare separator for manifest path the defaults end too early, and normalising again only grows the list. */
  lemma SeparatorGrows(v: Vocabulary, argv: seq<string>, manifest: string)
    requires Fluent(v) && v.isSeparator(manifest) && HasManifestPath !in Parse(v, argv).flags
    ensures |Normalize(v, Normalize(v, argv, manifest), manifest)| > |Normalize(v, argv, manifest)|
  {
    var out := Build(Parse(v, argv), manifest);
    var rest := out[2..];
    assert out == [MANIFEST] + [manifest] + rest;
    DanglingManifest(v, manifest, rest);
    BuildGrows(v, manifest, rest);
  }

  /**
   Normalisation is idempotent, dangling value flags and flags consumed as values included,
   exactly unless the manifest path is a bare `--` that normalisation has to insert.
   */
  lemma NormalizeIdempotent(argv: seq<string>, manifest: string)
    ensures var v := Wrapper();
            Normalize(v, Normalize(v, argv, manifest), manifest) == Normalize(v, argv, manifest) <==>
            manifest != SEPARATOR || HasManifestPath in Parse(v, argv).flags
  {
    var v := Wrapper();
    WrapperFluent();
    IdempotentOrNot(v, argv, manifest);
  }

  lemma IdempotentOrNot(v: Vocabulary, argv: seq<string>, manifest: string)
    requires Fluent(v)
    ensures Normalize(v, Normalize(v, argv, manifest), manifest) == Normalize(v, argv, manifest) <==>
            !v.isSeparator(manifest) || HasManifestPath in Parse(v, argv).flags
  {
    if !v.isSeparator(manifest) {
      IdempotentInVocabulary(v, argv, manifest);
    } else if HasManifestPath in Parse(v, argv).flags {
      // The manifest path is never used, so any other text in its place gives the same list.
      var p := Parse(v, argv);
      IdempotentInVocabulary(v, argv, MANIFEST);
      NormalizedIsComplete(v, argv, MANIFEST);
      assert Build(p, manifest) == Build(p, MANIFEST);
      var q := Parse(v, Build(p, MANIFEST));
      assert Build(q, manifest) == Build(q, MANIFEST);
    } else {
      SeparatorGrows(v, argv, manifest);
    }
  }
}
