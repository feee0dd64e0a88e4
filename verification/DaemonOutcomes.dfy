/**
 What a daemon operation has achieved once it reports success, on every interleaving with other
 operations, crashes, server deaths, foreign servers and unlocked requests.

 The persisted setting has one writer at a time and can be stated outright. The managed server
 has other writers as well: it can die, an unlocked request can switch it, and a foreign server
 on the socket can answer in its place. Which of these leaves it in the wrong mode, or missing,
 is stated exactly: as a cause in the run that no later event of the run cures.
 */
module DaemonOutcomes {
  import opened Basics
  import opened Daemon

  // ---------------------------------------------------------------- while a process holds the lock

  predicate HoldsLock(s: State, p: nat) {
    p in s.procs && s.procs[p].Holding?
  }

  /** `p` has the lock and `prog` still to do. */
  predicate Begins(s: State, p: nat, prog: Prog) {
    Inv(s) && HoldsLock(s, p) && s.procs[p].prog == prog
  }

  /** `last` is the step by which `p` reports success. */
  predicate SucceedsBy(s: State, p: nat, last: Action) {
    HoldsLock(s, p) && var s' := Step(s, last); p in s'.procs && s'.procs[p] == Finished(true)
  }

  /** `p` makes its next call and the environment does not fail it. */
  predicate Calls(s: State, p: nat, a: Action) {
    HoldsLock(s, p) && a.Run? && a.proc == p && a.verdict != Fails && a.verdict != Torn
  }

  /** A request to enable remote control, made without the lock, reaches the managed server. */
  predicate EnableLands(s: State, a: Action) {
    && a.Run? && a.proc in s.procs && s.procs[a.proc].Free? && s.procs[a.proc].prog.Rpc?
    && a.verdict != Fails && a.verdict != Torn
    && s.world.socket == ByManaged && s.world.managed.Some?
  }

  function ManagedAfter(s: State, a: Action): Option<bool> {
    if a.ServerDies? then None else if EnableLands(s, a) then Some(true) else s.world.managed
  }

  /** What a step of anybody else can do to a process that holds the lock, and to the machine under it. */
  lemma OthersStep(s: State, p: nat, a: Action)
    requires Inv(s) && HoldsLock(s, p) && !(a.Run? && a.proc == p)
    ensures var s' := Step(s, a);
            && p in s'.procs && (s'.procs[p] == s.procs[p] || s'.procs[p] == Finished(false))
            && s'.world.settings == s.world.settings
            && s'.world.managed == ManagedAfter(s, a)
  {
    assert ProcOk(p, s.procs[p], s.lock, s.world.managed.None?);
    if a.Run? && a.proc in s.procs {
      assert ProcOk(a.proc, s.procs[a.proc], s.lock, s.world.managed.None?);
      if s.procs[a.proc].Free? { UnlockedAct(s.world, s.procs[a.proc].prog, a.verdict); }
    }
  }

  lemma UnlockedAct(w: World, p: Prog, v: Verdict)
    requires Harmless(p)
    ensures var w' := Act(w, p, v).0;
            && w'.settings == w.settings
            && w'.managed == if p.Rpc? && v != Fails && v != Torn && w.socket == ByManaged && w.managed.Some?
                             then Some(true) else w.managed
  {
  }

  lemma {:induction false} FinishedIsFinal(s: State, p: nat, actions: seq<Action>)
    requires p in s.procs && s.procs[p].Finished?
    ensures !HoldsLock(Exec(s, actions), p)
    decreases actions
  {
    if actions != [] {
      FinishedIsFinal(Step(s, actions[0]), p, actions[1..]);
    }
  }

  /** Success is reported at the end of the program and changes nothing on the machine. */
  lemma SuccessAtDone(s: State, p: nat, last: Action)
    requires Inv(s) && SucceedsBy(s, p, last)
    ensures s.procs[p].prog == Done && Step(s, last).world == s.world
  {
    if !(last.Run? && last.proc == p) { OthersStep(s, p, last); }
  }

  /** A process that holds the lock at the end of a run held it after every step. */
  lemma StillHolds(s: State, p: nat, actions: seq<Action>)
    requires Inv(s) && HoldsLock(s, p) && actions != [] && HoldsLock(Exec(s, actions), p)
    ensures HoldsLock(Step(s, actions[0]), p)
  {
    var s', rest := Step(s, actions[0]), actions[1..];
    if !(actions[0].Run? && actions[0].proc == p) { OthersStep(s, p, actions[0]); }
    assert p in s'.procs;
    if s'.procs[p].Finished? { FinishedIsFinal(s', p, rest); }
  }

  // ---------------------------------------------------------------- the persisted setting

  /**
   Starting from the setting `st`, `p` launches and requests only `mode`, and where it ends well
   the setting is `mode`.
   */
  predicate Aims(p: Prog, mode: bool, st: Option<bool>) {
    match p
    case Done => st == Some(mode)
    case Refuse => true
    case Load(on, off) => st.Some? ==> Aims(if st.value then on else off, mode, st)
    case Save(value, next) => Aims(next, mode, Some(value))
    case Probe(up, down) => Aims(up, mode, st) && Aims(down, mode, st)
    case IsRunning(yes, no) => Aims(yes, mode, st) && Aims(no, mode, st)
    case EnsureBin(next) => Aims(next, mode, st)
    case Stop(next) => Aims(next, mode, st)
    case Launch(m, next) => m == mode && Aims(next, mode, st)
    case WaitReady(next) => Aims(next, mode, st)
    case Rpc(m, next) => m == mode && Aims(next, mode, st)
    case UpdaterRunning(yes, no) => Aims(yes, mode, st) && Aims(no, mode, st)
    case StopUpdater(next) => Aims(next, mode, st)
    case LaunchUpdater(next) => Aims(next, mode, st)
    case ReadVersion(same, changed) => Aims(same, mode, st) && Aims(changed, mode, st)
    case Reexec => true
  }

  /** `p` still has the lock, and what is left of its program aims at `mode`. */
  predicate Aiming(s: State, p: nat, mode: bool) {
    Inv(s) && HoldsLock(s, p) && Aims(s.procs[p].prog, mode, s.world.settings)
  }

  lemma ActAims(w: World, p: Prog, v: Verdict, mode: bool)
    requires Aims(p, mode, w.settings)
    ensures var (w', rest) := Act(w, p, v);
            rest.Some? ==> Aims(rest.value, mode, w'.settings)
  {
  }

  lemma StepAims(s: State, p: nat, a: Action, mode: bool)
    requires Aiming(s, p, mode) && HoldsLock(Step(s, a), p)
    ensures Aiming(Step(s, a), p, mode)
  {
    StepKeepsInv(s, a);
    if a.Run? && a.proc == p {
      ActAims(s.world, s.procs[p].prog, a.verdict, mode);
    } else {
      OthersStep(s, p, a);
    }
  }

  lemma {:induction false} RunAims(s: State, p: nat, actions: seq<Action>, mode: bool)
    requires Aiming(s, p, mode) && HoldsLock(Exec(s, actions), p)
    ensures Aiming(Exec(s, actions), p, mode)
    decreases actions
  {
    if actions != [] {
      StillHolds(s, p, actions);
      StepAims(s, p, actions[0], mode);
      RunAims(Step(s, actions[0]), p, actions[1..], mode);
    }
  }

  /** The setting a successful operation leaves. */
  lemma SettingReached(s: State, p: nat, actions: seq<Action>, last: Action, mode: bool)
    requires Aiming(s, p, mode) && SucceedsBy(Exec(s, actions), p, last)
    ensures Step(Exec(s, actions), last).world.settings == Some(mode)
  {
    RunAims(s, p, actions, mode);
    SuccessAtDone(Exec(s, actions), p, last);
  }

  // ---------------------------------------------------------------- the managed server

  /** What can be wrong with the managed server. */
  datatype Flaw = WrongMode(mode: bool) | Missing

  predicate Flawed(f: Flaw, w: World) {
    match f
    case WrongMode(mode) => w.managed == Some(!mode)
    case Missing => w.managed.None?
  }

  predicate Dies(s: State, a: Action) {
    a.ServerDies? && s.world.managed.Some?
  }

  predicate StopsServer(s: State, p: nat, a: Action) {
    Calls(s, p, a) && s.procs[p].prog.Stop?
  }

  predicate LaunchesServer(s: State, p: nat, a: Action) {
    Calls(s, p, a) && s.procs[p].prog.Launch?
  }

  /** The mode request of `p` reaches the managed server. */
  predicate RequestLands(s: State, p: nat, a: Action) {
    Calls(s, p, a) && s.procs[p].prog.Rpc? && s.world.socket == ByManaged && s.world.managed.Some?
  }

  /** The mode request of `p` is answered by a foreign server while the managed one has the other mode. */
  predicate RequestStrays(s: State, p: nat, a: Action) {
    Calls(s, p, a) && s.procs[p].prog.Rpc? && s.world.socket == ByForeign && s.world.managed == Some(!s.procs[p].prog.mode)
  }

  /** The probe of `p` is answered while no managed server is there: by a foreign one. */
  predicate ProbeFooled(s: State, p: nat, a: Action) {
    Calls(s, p, a) && s.procs[p].prog.Probe? && a.verdict == Ok && s.world.socket != Silent && s.world.managed.None?
  }

  /** Events after which the flaw is there. */
  predicate Causes(f: Flaw, s: State, p: nat, a: Action) {
    match f
    case WrongMode(mode) => RequestStrays(s, p, a) || (!mode && EnableLands(s, a))
    case Missing => Dies(s, a) || ProbeFooled(s, p, a)
  }

  /** Events after which the flaw is gone. */
  predicate Cures(f: Flaw, s: State, p: nat, a: Action) {
    match f
    case WrongMode(mode) =>
      Dies(s, a) || StopsServer(s, p, a) || RequestLands(s, p, a) || (mode && EnableLands(s, a))
    case Missing => LaunchesServer(s, p, a)
  }

  /** Some event of the run cures the flaw. */
  predicate Cured(f: Flaw, s: State, p: nat, actions: seq<Action>)
    decreases actions
  {
    actions != [] && (Cures(f, s, p, actions[0]) || Cured(f, Step(s, actions[0]), p, actions[1..]))
  }

  /** Some event of the run causes the flaw and no later one cures it. */
  predicate Lasts(f: Flaw, s: State, p: nat, actions: seq<Action>)
    decreases actions
  {
    actions != [] && var s', rest := Step(s, actions[0]), actions[1..];
    (Causes(f, s, p, actions[0]) && !Cured(f, s', p, rest)) || Lasts(f, s', p, rest)
  }

  /** With the flaw there all along, `p` cannot end well without an event that cures or causes it. */
  predicate Treats(f: Flaw, p: Prog) {
    match p
    case Done => false
    case Refuse => true
    case Load(on, off) => Treats(f, on) && Treats(f, off)
    case Save(_, next) => Treats(f, next)
    case Probe(up, down) => (f.WrongMode? ==> Treats(f, up)) && Treats(f, down)
    case IsRunning(yes, no) => Treats(f, if f.WrongMode? then yes else no)
    case EnsureBin(next) => Treats(f, next)
    case Stop(next) => f.WrongMode? || Treats(f, next)
    case Launch(_, next) => f.Missing? || Treats(f, next)
    case WaitReady(next) => Treats(f, next)
    case Rpc(mode, next) => f == WrongMode(mode) || Treats(f, next)
    case UpdaterRunning(yes, no) => Treats(f, yes) && Treats(f, no)
    case StopUpdater(next) => Treats(f, next)
    case LaunchUpdater(next) => Treats(f, next)
    case ReadVersion(same, changed) => Treats(f, same) && Treats(f, changed)
    case Reexec => true
  }

  lemma ActTreats(f: Flaw, s: State, p: nat, v: Verdict)
    requires HoldsLock(s, p) && Treats(f, s.procs[p].prog) && Flawed(f, s.world)
    requires !Causes(f, s, p, Run(p, v)) && !Cures(f, s, p, Run(p, v))
    ensures var rest := Act(s.world, s.procs[p].prog, v).1;
            rest.Some? ==> Treats(f, rest.value)
  {
  }

  lemma StepTreats(f: Flaw, s: State, p: nat, a: Action)
    requires Inv(s) && HoldsLock(s, p) && Treats(f, s.procs[p].prog) && Flawed(f, s.world)
    requires !Causes(f, s, p, a) && !Cures(f, s, p, a) && HoldsLock(Step(s, a), p)
    ensures Treats(f, Step(s, a).procs[p].prog)
  {
    if a.Run? && a.proc == p {
      ActTreats(f, s, p, a.verdict);
    } else {
      OthersStep(s, p, a);
    }
  }

  /** Wherever `p` stops the server, it goes on to see that one is there again. */
  predicate Relaunches(p: Prog) {
    match p
    case Load(on, off) => Relaunches(on) && Relaunches(off)
    case Save(_, next) => Relaunches(next)
    case Probe(up, down) => Relaunches(up) && Relaunches(down)
    case IsRunning(yes, no) => Relaunches(yes) && Relaunches(no)
    case EnsureBin(next) => Relaunches(next)
    case Stop(next) => Treats(Missing, next) && Relaunches(next)
    case Launch(_, next) => Relaunches(next)
    case WaitReady(next) => Relaunches(next)
    case Rpc(_, next) => Relaunches(next)
    case UpdaterRunning(yes, no) => Relaunches(yes) && Relaunches(no)
    case StopUpdater(next) => Relaunches(next)
    case LaunchUpdater(next) => Relaunches(next)
    case ReadVersion(same, changed) => Relaunches(same) && Relaunches(changed)
    case _ => true
  }

  /** What is known about the process `p` when the flaw `f` is watched for. */
  predicate Watched(f: Flaw, s: State, p: nat) {
    && Inv(s) && HoldsLock(s, p)
    && match f
       case WrongMode(mode) => Aiming(s, p, mode)
       case Missing => Relaunches(s.procs[p].prog)
  }

  lemma ActRelaunches(w: World, p: Prog, v: Verdict)
    requires Relaunches(p)
    ensures var rest := Act(w, p, v).1;
            rest.Some? ==> Relaunches(rest.value)
  {
  }

  lemma StepWatched(f: Flaw, s: State, p: nat, a: Action)
    requires Watched(f, s, p) && HoldsLock(Step(s, a), p)
    ensures Watched(f, Step(s, a), p)
  {
    StepKeepsInv(s, a);
    if f.WrongMode? {
      StepAims(s, p, a, f.mode);
    } else if a.Run? && a.proc == p {
      ActRelaunches(s.world, s.procs[p].prog, a.verdict);
    } else {
      OthersStep(s, p, a);
    }
  }

  /** Besides the stops of `p` itself, causes and cures describe every way in which the flaw comes and goes. */
  lemma StepFlaw(f: Flaw, s: State, p: nat, a: Action)
    requires Watched(f, s, p)
    ensures Flawed(f, Step(s, a).world) <==>
              || Causes(f, s, p, a)
              || (f.Missing? && StopsServer(s, p, a))
              || (Flawed(f, s.world) && !Cures(f, s, p, a))
  {
    assert ProcOk(p, s.procs[p], s.lock, s.world.managed.None?);
    if !(a.Run? && a.proc == p) { OthersStep(s, p, a); }
  }

  /** `p` reaches the end of its program by the run. */
  predicate Completes(s: State, p: nat, actions: seq<Action>) {
    var s' := Exec(s, actions);
    HoldsLock(s', p) && s'.procs[p].prog == Done
  }

  /** A flaw that the rest of the program treats is cured during the run, or comes to stay. */
  lemma {:induction false} RunTreats(f: Flaw, s: State, p: nat, actions: seq<Action>)
    requires Watched(f, s, p) && Treats(f, s.procs[p].prog) && Flawed(f, s.world) && Completes(s, p, actions)
    ensures Cured(f, s, p, actions) || Lasts(f, s, p, actions)
    decreases actions
  {
    if actions != [] && !Causes(f, s, p, actions[0]) && !Cures(f, s, p, actions[0]) {
      StillHolds(s, p, actions);
      StepWatched(f, s, p, actions[0]);
      StepFlaw(f, s, p, actions[0]);
      StepTreats(f, s, p, actions[0]);
      RunTreats(f, Step(s, actions[0]), p, actions[1..]);
    }
  }

  /** The flaw is there at the end of a run exactly if it came to stay, or was there and stayed. */
  lemma {:induction false} RunFlaw(f: Flaw, s: State, p: nat, actions: seq<Action>)
    requires Watched(f, s, p) && Completes(s, p, actions)
    ensures Flawed(f, Exec(s, actions).world) <==>
              Lasts(f, s, p, actions) || (Flawed(f, s.world) && !Cured(f, s, p, actions))
    decreases actions
  {
    if actions != [] {
      var s', rest := Step(s, actions[0]), actions[1..];
      StillHolds(s, p, actions);
      StepWatched(f, s, p, actions[0]);
      StepFlaw(f, s, p, actions[0]);
      RunFlaw(f, s', p, rest);
      if f.Missing? && StopsServer(s, p, actions[0]) { RunTreats(f, s', p, rest); }
    }
  }

  /** An operation that treats a flaw ends with it exactly if it came to stay during the run. */
  lemma FlawExactly(f: Flaw, s: State, p: nat, actions: seq<Action>, last: Action)
    requires Watched(f, s, p) && Treats(f, s.procs[p].prog) && SucceedsBy(Exec(s, actions), p, last)
    ensures Flawed(f, Step(Exec(s, actions), last).world) <==> Lasts(f, s, p, actions)
  {
    ExecKeepsInv(s, actions);
    SuccessAtDone(Exec(s, actions), p, last);
    RunFlaw(f, s, p, actions);
    if Flawed(f, s.world) { RunTreats(f, s, p, actions); }
  }

  /** The server is there with the wanted mode exactly if neither flaw came to stay. */
  lemma ServerExactly(s: State, p: nat, actions: seq<Action>, last: Action, mode: bool)
    requires Aiming(s, p, mode) && Relaunches(s.procs[p].prog)
    requires Treats(WrongMode(mode), s.procs[p].prog) && Treats(Missing, s.procs[p].prog)
    requires SucceedsBy(Exec(s, actions), p, last)
    ensures Outcome(s, p, actions, Step(Exec(s, actions), last).world, mode)
  {
    SettingReached(s, p, actions, last, mode);
    FlawExactly(WrongMode(mode), s, p, actions, last);
    FlawExactly(Missing, s, p, actions, last);
  }

  /**
   The machine `w` on which an operation that should leave a server running in `mode` reported
   success after the run `actions` from `s`.
   */
  predicate Outcome(s: State, p: nat, actions: seq<Action>, w: World, mode: bool) {
    && w.settings == Some(mode)
    && (w.managed == Some(!mode) <==> Lasts(WrongMode(mode), s, p, actions))
    && (w.managed == None <==> Lasts(Missing, s, p, actions))
  }

  // ---------------------------------------------------------------- the operations

  lemma LaunchAims(mode: bool, k: Prog)
    requires Aims(k, mode, Some(mode))
    ensures Aims(LaunchAndWait(mode, k), mode, Some(mode))
  {
    assert Aims(WaitReady(k), mode, Some(mode));
  }

  lemma StartAims(mode: bool, k: Prog)
    requires Aims(k, mode, Some(mode))
    ensures Aims(StartProg(k), mode, Some(mode))
  {
    LaunchAims(mode, k);
    assert Aims(WaitReady(k), mode, Some(mode));
    assert Aims(EnsureBin(LaunchAndWait(mode, k)), mode, Some(mode));
    assert Aims(IsRunning(k, k), mode, Some(mode));
    assert Aims(StartWith(mode, k), mode, Some(mode));
  }

  lemma RestartAims(mode: bool)
    ensures Aims(RestartProg(Done), mode, Some(mode))
  {
    var launch := LaunchAndWait(mode, Done);
    LaunchAims(mode, Done);
    assert Aims(Stop(launch), mode, Some(mode));
    assert Aims(IsRunning(Stop(launch), launch), mode, Some(mode));
    assert Aims(RestartTail(mode, Done), mode, Some(mode));
    assert Aims(RestartWith(mode, Done), mode, Some(mode));
  }

  lemma SetBodyAims(mode: bool, previous: bool, running: bool, k: Prog)
    requires Aims(k, mode, Some(mode))
    ensures Aims(SetBody(mode, previous, running, k), mode, Some(previous))
  {
    if previous == mode {
      assert Aims(Rpc(mode, k), mode, Some(mode));
    } else {
      LaunchAims(mode, k);
      assert Aims(Stop(LaunchAndWait(mode, k)), mode, Some(mode));
      assert Aims(EnsureBin(Stop(LaunchAndWait(mode, k))), mode, Some(mode));
    }
  }

  lemma SetAims(mode: bool, k: Prog, st: Option<bool>)
    requires Aims(k, mode, Some(mode))
    ensures Aims(SetProg(mode, k), mode, st)
  {
    if st.Some? {
      SetBodyAims(mode, st.value, true, k);
      SetBodyAims(mode, st.value, false, k);
      assert Aims(Probe(Refuse, SetBody(mode, st.value, false, k)), mode, st);
      assert Aims(SetWith(mode, st.value, k), mode, st);
    }
  }

  lemma BootstrapStartAims(mode: bool)
    ensures Aims(BootstrapStart(mode, Done), mode, Some(mode))
  {
    var wait := LaunchUpdater(WaitReady(Done));
    assert Aims(WaitReady(Done), mode, Some(mode));
    assert Aims(wait, mode, Some(mode));
    assert Aims(StopUpdater(wait), mode, Some(mode));
    assert Aims(UpdaterRunning(StopUpdater(wait), wait), mode, Some(mode));
  }

  lemma BootstrapAims(mode: bool, st: Option<bool>)
    ensures Aims(BootstrapProg(mode, Done), mode, st)
  {
    var start := BootstrapStart(mode, Done);
    BootstrapStartAims(mode);
    assert Aims(Stop(start), mode, Some(mode));
    assert Aims(IsRunning(Stop(start), start), mode, Some(mode));
    var tail := BootstrapTail(mode, Done);
    assert Aims(tail, mode, st);
    assert Aims(IsRunning(tail, Refuse), mode, st);
    assert Aims(Probe(IsRunning(tail, Refuse), tail), mode, st);
  }

  lemma EnsureAims(st: Option<bool>)
    ensures Aims(EnsureProg(), true, st)
  {
    var again, first := SetProg(true, StartProg(Done)), BootstrapProg(true, Done);
    StartAims(true, Done);
    SetAims(true, StartProg(Done), st);
    BootstrapAims(true, st);
    assert Aims(UpdaterRunning(again, first), true, st);
  }

  lemma SetTreats(mode: bool, k: Prog)
    ensures Treats(WrongMode(mode), SetProg(mode, k))
    ensures Treats(Missing, k) ==> Treats(Missing, SetProg(mode, k))
  {
    SetWithTreats(mode, true, k);
    SetWithTreats(mode, false, k);
  }

  lemma SetWithTreats(mode: bool, previous: bool, k: Prog)
    ensures Treats(WrongMode(mode), SetWith(mode, previous, k))
    ensures Treats(Missing, k) ==> Treats(Missing, SetWith(mode, previous, k))
  {
    assert Treats(WrongMode(mode), SetBody(mode, previous, true, k)) by {
      assert Treats(WrongMode(mode), Rpc(mode, k));
      assert Treats(WrongMode(mode), EnsureBin(Stop(LaunchAndWait(mode, k))));
    }
    if Treats(Missing, k) {
      assert Treats(Missing, SetBody(mode, previous, false, k));
      assert Treats(Missing, Probe(Refuse, SetBody(mode, previous, false, k)));
    }
  }

  lemma StartTreats(k: Prog)
    ensures Treats(Missing, StartProg(k))
  {
    StartWithTreats(true, k);
    StartWithTreats(false, k);
  }

  lemma StartWithTreats(settings: bool, k: Prog)
    ensures Treats(Missing, StartWith(settings, k))
  {
    assert Treats(Missing, EnsureBin(LaunchAndWait(settings, k)));
    assert Treats(Missing, IsRunning(WaitReady(k), EnsureBin(LaunchAndWait(settings, k))));
  }

  lemma RestartTreats(f: Flaw, settings: bool)
    ensures Treats(f, RestartWith(settings, Done))
  {
    var launch := LaunchAndWait(settings, Done);
    assert Treats(Missing, launch);
    assert Treats(f, IsRunning(Stop(launch), launch));
    assert Treats(f, RestartTail(settings, Done));
    assert Treats(f, IsRunning(RestartTail(settings, Done), Refuse));
  }

  lemma BootstrapTreats(f: Flaw, mode: bool)
    ensures Treats(f, BootstrapProg(mode, Done))
  {
    var start, tail := BootstrapStart(mode, Done), BootstrapTail(mode, Done);
    assert Treats(Missing, start);
    assert Treats(f, IsRunning(Stop(start), start));
    assert Treats(f, tail);
    assert Treats(f, IsRunning(tail, Refuse));
    assert Treats(f, Probe(IsRunning(tail, Refuse), tail));
  }

  lemma EnsureTreats(f: Flaw)
    requires f == Missing || f == WrongMode(true)
    ensures Treats(f, EnsureProg())
  {
    var again, first := SetProg(true, StartProg(Done)), BootstrapProg(true, Done);
    StartTreats(Done);
    SetTreats(true, StartProg(Done));
    BootstrapTreats(f, true);
    assert Treats(f, UpdaterRunning(again, first));
  }

  lemma StartRelaunches(k: Prog)
    requires Relaunches(k)
    ensures Relaunches(StartProg(k))
  {
    assert forall m: bool :: Relaunches(EnsureBin(LaunchAndWait(m, k))) by {
      assert Relaunches(WaitReady(k));
    }
    assert forall m :: Relaunches(StartWith(m, k)) by {
      assert Relaunches(WaitReady(k)) && Relaunches(IsRunning(k, k));
    }
  }

  lemma RestartRelaunches(settings: bool)
    ensures Relaunches(RestartWith(settings, Done))
  {
    var launch := LaunchAndWait(settings, Done);
    assert Relaunches(launch) && Treats(Missing, launch);
    assert Relaunches(IsRunning(Stop(launch), launch));
    assert Relaunches(RestartTail(settings, Done));
    assert Relaunches(IsRunning(RestartTail(settings, Done), Refuse));
  }

  lemma SetRelaunches(mode: bool, previous: bool, k: Prog)
    requires Relaunches(k)
    ensures Relaunches(SetWith(mode, previous, k))
  {
    var launch := LaunchAndWait(mode, k);
    assert Relaunches(WaitReady(k)) && Relaunches(launch) && Treats(Missing, launch);
    assert Relaunches(EnsureBin(Stop(launch)));
    assert Relaunches(Rpc(mode, k));
    assert Relaunches(SetBody(mode, previous, true, k)) && Relaunches(SetBody(mode, previous, false, k));
  }

  lemma BootstrapRelaunches(mode: bool)
    ensures Relaunches(BootstrapProg(mode, Done))
  {
    var start, tail, wait := BootstrapStart(mode, Done), BootstrapTail(mode, Done), LaunchUpdater(WaitReady(Done));
    assert Relaunches(wait) && Relaunches(StopUpdater(wait));
    assert Relaunches(UpdaterRunning(StopUpdater(wait), wait));
    assert Relaunches(start) && Treats(Missing, start);
    assert Relaunches(IsRunning(Stop(start), start));
    assert Relaunches(tail);
    assert Relaunches(Probe(IsRunning(tail, Refuse), tail)) by {
      assert Relaunches(IsRunning(tail, Refuse));
    }
  }

  lemma EnsureRelaunches()
    ensures Relaunches(EnsureProg())
  {
    var again, first := SetProg(true, StartProg(Done)), BootstrapProg(true, Done);
    StartRelaunches(Done);
    SetRelaunches(true, true, StartProg(Done));
    SetRelaunches(true, false, StartProg(Done));
    BootstrapRelaunches(true);
    assert Relaunches(again);
    assert Relaunches(UpdaterRunning(again, first));
  }

  /**
   Remote-control convergence: when `p` finishes `set_remote_control_locked(mode)` successfully,
   the persisted setting is `mode`, and a managed server runs in the other mode exactly if a
   request that strayed to a foreign server, or an unlocked enable, came after the last thing
   that put the server right.
   */
  lemma RemoteControlConvergence(s: State, p: nat, mode: bool, actions: seq<Action>, last: Action)
    requires Begins(s, p, SetProg(mode, Done)) && SucceedsBy(Exec(s, actions), p, last)
    ensures var w := Step(Exec(s, actions), last).world;
            && w.settings == Some(mode)
            && (w.managed == Some(!mode) <==> Lasts(WrongMode(mode), s, p, actions))
  {
    SetAims(mode, Done, s.world.settings);
    SetTreats(mode, Done);
    SettingReached(s, p, actions, last, mode);
    FlawExactly(WrongMode(mode), s, p, actions, last);
  }

  /** `ensure_remote_control_started` leaves remote control enabled, in the file and on the server. */
  lemma EnsureStartedConvergence(s: State, p: nat, actions: seq<Action>, last: Action)
    requires Begins(s, p, EnsureProg()) && SucceedsBy(Exec(s, actions), p, last)
    ensures Outcome(s, p, actions, Step(Exec(s, actions), last).world, true)
  {
    EnsureAims(s.world.settings);
    EnsureRelaunches();
    EnsureTreats(Missing);
    EnsureTreats(WrongMode(true));
    ServerExactly(s, p, actions, last, true);
  }

  /** A bootstrap leaves its mode in the file and on the server. */
  lemma BootstrapConvergence(s: State, p: nat, mode: bool, actions: seq<Action>, last: Action)
    requires Begins(s, p, BootstrapProg(mode, Done)) && SucceedsBy(Exec(s, actions), p, last)
    ensures Outcome(s, p, actions, Step(Exec(s, actions), last).world, mode)
  {
    BootstrapAims(mode, s.world.settings);
    BootstrapRelaunches(mode);
    BootstrapTreats(Missing, mode);
    BootstrapTreats(WrongMode(mode), mode);
    ServerExactly(s, p, actions, last, mode);
  }

  /** An operation that begins by loading the settings cannot succeed when they are unreadable. */
  lemma LoadsReadable(s: State, p: nat, actions: seq<Action>, last: Action)
    requires Inv(s) && HoldsLock(s, p) && s.procs[p].prog.Load? && SucceedsBy(Exec(s, actions), p, last)
    ensures s.world.settings.Some?
  {
    if s.world.settings.None? {
      SettingReached(s, p, actions, last, true);
      SettingReached(s, p, actions, last, false);
    }
  }

  /** A restart leaves a server running in the persisted mode, which it does not change. */
  lemma RestartConvergence(s: State, p: nat, actions: seq<Action>, last: Action)
    requires Begins(s, p, RestartProg(Done)) && SucceedsBy(Exec(s, actions), p, last)
    ensures s.world.settings.Some?
    ensures Outcome(s, p, actions, Step(Exec(s, actions), last).world, s.world.settings.value)
  {
    LoadsReadable(s, p, actions, last);
    var mode := s.world.settings.value;
    RestartAims(mode);
    RestartRelaunches(true);
    RestartRelaunches(false);
    forall f: Flaw
      ensures Treats(f, RestartProg(Done))
    {
      RestartTreats(f, true);
      RestartTreats(f, false);
    }
    ServerExactly(s, p, actions, last, mode);
  }

  /**
   A start leaves the persisted mode as it is and a server running, unless that died or a foreign
   server answered for it; a server that was already there keeps its own mode.
   */
  lemma StartConvergence(s: State, p: nat, actions: seq<Action>, last: Action)
    requires Begins(s, p, StartProg(Done)) && SucceedsBy(Exec(s, actions), p, last)
    ensures s.world.settings.Some?
    ensures var w, mode := Step(Exec(s, actions), last).world, s.world.settings.value;
            var f := WrongMode(mode);
            && w.settings == Some(mode)
            && (w.managed == None <==> Lasts(Missing, s, p, actions))
            && (w.managed == Some(!mode) <==>
                  Lasts(f, s, p, actions) || (s.world.managed == Some(!mode) && !Cured(f, s, p, actions)))
  {
    LoadsReadable(s, p, actions, last);
    var mode := s.world.settings.value;
    StartAims(mode, Done);
    StartTreats(Done);
    StartRelaunches(Done);
    SettingReached(s, p, actions, last, mode);
    FlawExactly(Missing, s, p, actions, last);
    ExecKeepsInv(s, actions);
    SuccessAtDone(Exec(s, actions), p, last);
    RunFlaw(WrongMode(mode), s, p, actions);
  }

  // ---------------------------------------------------------------- undisturbed runs

  /** Nobody but the managed server is on the socket. */
  predicate OwnSocket(w: World) {
    w.socket != ByForeign && (w.socket == ByManaged ==> w.managed.Some?)
  }

  /** No server dies, no foreign server comes, and no unlocked enable overtakes a disable. */
  predicate Undisturbed(s: State, actions: seq<Action>, mode: bool)
    decreases actions
  {
    actions != [] ==>
      && !actions[0].ServerDies? && !actions[0].ForeignBinds? && (mode || !EnableLands(s, actions[0]))
      && Undisturbed(Step(s, actions[0]), actions[1..], mode)
  }

  lemma {:induction false} UndisturbedHasNoFlaw(f: Flaw, s: State, p: nat, actions: seq<Action>, mode: bool)
    requires OwnSocket(s.world) && Undisturbed(s, actions, mode) && (f == Missing || f == WrongMode(mode))
    ensures !Lasts(f, s, p, actions)
    decreases actions
  {
    if actions != [] {
      assert OwnSocket(Step(s, actions[0]).world);
      UndisturbedHasNoFlaw(f, Step(s, actions[0]), p, actions[1..], mode);
    }
  }

  /** On an undisturbed run the exact outcome is the plain promise: the mode is saved and in force. */
  lemma UndisturbedOutcome(s: State, p: nat, actions: seq<Action>, w: World, mode: bool)
    requires OwnSocket(s.world) && Undisturbed(s, actions, mode) && Outcome(s, p, actions, w, mode)
    ensures w.settings == Some(mode) && w.managed == Some(mode)
  {
    UndisturbedHasNoFlaw(Missing, s, p, actions, mode);
    UndisturbedHasNoFlaw(WrongMode(mode), s, p, actions, mode);
    ManagedCases(w, mode);
  }

  lemma ManagedCases(w: World, mode: bool)
    ensures w.managed == None || w.managed == Some(mode) || w.managed == Some(!mode)
  {
    if w.managed.Some? {
      var live := w.managed.value;
      assert live == if live == mode then mode else !mode;
    }
  }

  // ---------------------------------------------------------------- stopping

  /** Where `p` ends well, no managed server is there; `down` is what is known at the root. */
  predicate Halts(p: Prog, down: bool) {
    match p
    case Done => down
    case Refuse => true
    case Load(on, off) => Halts(on, down) && Halts(off, down)
    case Probe(up, dn) => Halts(up, down) && Halts(dn, down)
    case IsRunning(yes, no) => Halts(yes, false) && Halts(no, true)
    case Stop(next) => Halts(next, true)
    case Launch(_, next) => Halts(next, false)
    case WaitReady(next) => Halts(next, down)
    case ReadVersion(same, changed) => Halts(same, down) && Halts(changed, down)
    case Reexec => true
    case _ => false
  }

  predicate Halting(s: State, p: nat) {
    Inv(s) && HoldsLock(s, p) && Halts(s.procs[p].prog, s.world.managed.None?)
  }

  lemma {:induction false} HaltsMono(p: Prog)
    requires Halts(p, false)
    ensures Halts(p, true)
  {
    match p
    case Load(on, off) => HaltsMono(on); HaltsMono(off);
    case Probe(up, down) => HaltsMono(up); HaltsMono(down);
    case WaitReady(next) => HaltsMono(next);
    case ReadVersion(same, changed) => HaltsMono(same); HaltsMono(changed);
    case _ =>
  }

  lemma StepHalts(s: State, p: nat, a: Action)
    requires Halting(s, p) && HoldsLock(Step(s, a), p)
    ensures Halting(Step(s, a), p)
  {
    StepKeepsInv(s, a);
    if !(a.Run? && a.proc == p) {
      OthersStep(s, p, a);
      if s.world.managed.Some? { HaltsMono(s.procs[p].prog); }
    }
  }

  lemma {:induction false} RunHalts(s: State, p: nat, actions: seq<Action>)
    requires Halting(s, p) && HoldsLock(Exec(s, actions), p)
    ensures Halting(Exec(s, actions), p)
    decreases actions
  {
    if actions != [] {
      StillHolds(s, p, actions);
      StepHalts(s, p, actions[0]);
      RunHalts(Step(s, actions[0]), p, actions[1..]);
    }
  }

  /** A stop that reports success leaves no managed server, whatever else happened meanwhile. */
  lemma StopConvergence(s: State, p: nat, actions: seq<Action>, last: Action)
    requires Begins(s, p, StopProg(Done)) && SucceedsBy(Exec(s, actions), p, last)
    ensures Step(Exec(s, actions), last).world.managed == None
  {
    var body := IsRunning(Stop(Done), Probe(Refuse, Done));
    assert Halts(body, false) && Halts(body, true);
    assert Halts(StopProg(Done), s.world.managed.None?);
    RunHalts(s, p, actions);
    SuccessAtDone(Exec(s, actions), p, last);
  }

  // ---------------------------------------------------------------- the updater

  /** Touches the server only once it is told of a new version, which `told` says at the root, and never replaces itself. */
  predicate Patient(p: Prog, told: bool) {
    match p
    case Done => true
    case Refuse => true
    case Load(on, off) => Patient(on, told) && Patient(off, told)
    case Probe(up, down) => Patient(up, told) && Patient(down, told)
    case IsRunning(yes, no) => Patient(yes, told) && Patient(no, told)
    case ReadVersion(same, changed) => Patient(same, told) && Patient(changed, true)
    case Stop(next) => told && Patient(next, told)
    case Launch(_, next) => told && Patient(next, told)
    case WaitReady(next) => Patient(next, told)
    case _ => false
  }

  /** The version call of `p` reports that the managed binary is not the one the server runs. */
  predicate ToldChanged(s: State, p: nat, a: Action) {
    Calls(s, p, a) && s.procs[p].prog.ReadVersion? && a.verdict != Ok
  }

  predicate SawChange(s: State, p: nat, actions: seq<Action>)
    decreases actions
  {
    actions != [] && (ToldChanged(s, p, actions[0]) || SawChange(Step(s, actions[0]), p, actions[1..]))
  }

  lemma StepPatient(s: State, p: nat, a: Action, told: bool)
    requires Inv(s) && HoldsLock(s, p) && Patient(s.procs[p].prog, told) && HoldsLock(Step(s, a), p)
    ensures Patient(Step(s, a).procs[p].prog, told || ToldChanged(s, p, a))
  {
    if !(a.Run? && a.proc == p) { OthersStep(s, p, a); }
  }

  lemma {:induction false} RunPatient(s: State, p: nat, actions: seq<Action>, told: bool)
    requires Inv(s) && HoldsLock(s, p) && Patient(s.procs[p].prog, told) && HoldsLock(Exec(s, actions), p)
    ensures Patient(Exec(s, actions).procs[p].prog, told || SawChange(s, p, actions))
    decreases actions
  {
    if actions != [] {
      StillHolds(s, p, actions);
      StepKeepsInv(s, actions[0]);
      StepPatient(s, p, actions[0], told);
      RunPatient(Step(s, actions[0]), p, actions[1..], told || ToldChanged(s, p, actions[0]));
    }
  }

  lemma UpdaterPatient(settings: bool)
    ensures Patient(UpdaterWith(IfVersionChanged, NoRefresh, settings), false)
  {
    var launch := LaunchAndWait(settings, Done);
    assert Patient(WaitReady(Done), true) && Patient(launch, true);
    assert Patient(ReadVersion(Done, Stop(launch)), false);
    assert Patient(Probe(ReadVersion(Done, Stop(launch)), Done), false);
    assert UpdaterWith(IfVersionChanged, NoRefresh, settings)
        == IsRunning(Probe(ReadVersion(Done, Stop(launch)), Done), Probe(Refuse, Done));
  }

  lemma UpdaterHalts(settings: bool, down: bool)
    ensures Halts(UpdaterWith(Always, ReexecIfManagedBinaryChanged, settings), down)
  {
    var launch := LaunchAndWait(settings, Reexec);
    assert Halts(WaitReady(Reexec), false) && Halts(launch, true) && Halts(Stop(launch), false);
    assert Halts(Probe(ReadVersion(Stop(launch), Stop(launch)), Stop(launch)), false) by {
      assert Halts(ReadVersion(Stop(launch), Stop(launch)), false);
    }
    assert UpdaterWith(Always, ReexecIfManagedBinaryChanged, settings)
        == IsRunning(Probe(ReadVersion(Stop(launch), Stop(launch)), Stop(launch)), Probe(Refuse, Done));
  }

  /**
   What an updater's attempt comes to, wherever the run has got it, from the identities of its own
   binary and of the managed one. When they agree it touches the server only after being told of a
   new version and never replaces itself; when they differ it ends without replacing itself only
   if no managed server is left.
   */
  lemma UpdaterConvergence(s: State, p: nat, running: string, managed: string, actions: seq<Action>)
    requires var (mode, refresh) := UpdateModes(running, managed);
             Begins(s, p, UpdaterProg(mode, refresh))
    requires HoldsLock(Exec(s, actions), p)
    ensures var s' := Exec(s, actions);
            var prog := s'.procs[p].prog;
            && ((prog.Stop? || prog.Launch?) && running == managed ==> SawChange(s, p, actions))
            && (prog == Reexec ==> running != managed)
            && (prog == Done && running != managed ==> s'.world.managed == None)
  {
    if running == managed {
      UpdaterPatient(true);
      UpdaterPatient(false);
      RunPatient(s, p, actions, false);
    } else {
      UpdaterHalts(true, s.world.managed.None?);
      UpdaterHalts(false, s.world.managed.None?);
      RunHalts(s, p, actions);
    }
  }
}
