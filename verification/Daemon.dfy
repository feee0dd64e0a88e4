/**
 The app-server daemon: lifecycle commands and the updater share a file lock, a settings
 file and one managed server, and every operation can fail part way.

 An operation is a program tree whose nodes are the source's effectful calls in source
 order, branching on what they return. `Act` performs one call against the machine the
 processes share; `Step` interleaves any number of processes, their crashes, and what
 happens outside the daemon's control.
 */
module Daemon {
  import opened Basics

  // ---------------------------------------------------------------- operations

  /**
   A suspended operation. `Refuse` is an error the code decides on itself; any other call
   but a probe can also fail because its environment fails.
   */
  datatype Prog =
    | Done
    | Refuse
    | Load(on: Prog, off: Prog)
    | Save(value: bool, next: Prog)
    | Probe(up: Prog, down: Prog)
    | IsRunning(yes: Prog, no: Prog)
    | EnsureBin(next: Prog)
    | Stop(next: Prog)
    | Launch(mode: bool, next: Prog)
    | WaitReady(next: Prog)
    | Rpc(mode: bool, next: Prog)
    | UpdaterRunning(yes: Prog, no: Prog)
    | StopUpdater(next: Prog)
    | LaunchUpdater(next: Prog)
    | ReadVersion(same: Prog, changed: Prog)
    | Reexec

  datatype RestartMode = IfVersionChanged | Always
  datatype UpdaterRefreshMode = NoRefresh | ReexecIfManagedBinaryChanged
  datatype RestartDecision = NotReady | AlreadyCurrent | Restart
  datatype RestartOutcome = Busy | NotRunning | WasNotReady | WasCurrent | Restarted

  /** `sameVersion` is absent when the server did not answer the probe. */
  function Decide(mode: RestartMode, sameVersion: Option<bool>): RestartDecision {
    match (mode, sameVersion)
    case (IfVersionChanged, None) => NotReady
    case (IfVersionChanged, Some(true)) => AlreadyCurrent
    case _ => Restart
  }

  predicate ShouldReexec(refresh: UpdaterRefreshMode, outcome: RestartOutcome) {
    refresh == ReexecIfManagedBinaryChanged && outcome == Restarted
  }

  function UpdateModes(runningUpdater: string, managed: string): (RestartMode, UpdaterRefreshMode) {
    if runningUpdater == managed then (IfVersionChanged, NoRefresh) else (Always, ReexecIfManagedBinaryChanged)
  }

  function LaunchAndWait(mode: bool, k: Prog): Prog {
    Launch(mode, WaitReady(k))
  }

  function StartWith(settings: bool, k: Prog): Prog {
    Probe(IsRunning(k, k), IsRunning(WaitReady(k), EnsureBin(LaunchAndWait(settings, k))))
  }

  /** `start`, continuing at `k` on success. */
  function StartProg(k: Prog): Prog {
    Load(StartWith(true, k), StartWith(false, k))
  }

  function RestartTail(settings: bool, k: Prog): Prog {
    EnsureBin(IsRunning(Stop(LaunchAndWait(settings, k)), LaunchAndWait(settings, k)))
  }

  function RestartWith(settings: bool, k: Prog): Prog {
    Probe(IsRunning(RestartTail(settings, k), Refuse), RestartTail(settings, k))
  }

  function RestartProg(k: Prog): Prog {
    Load(RestartWith(true, k), RestartWith(false, k))
  }

  function StopProg(k: Prog): Prog {
    var body := IsRunning(Stop(k), Probe(Refuse, k));
    Load(body, body)
  }

  function UpdaterTail(mode: RestartMode, refresh: UpdaterRefreshMode, settings: bool, sameVersion: Option<bool>): Prog {
    match Decide(mode, sameVersion)
    case NotReady => Done
    case AlreadyCurrent => if ShouldReexec(refresh, WasCurrent) then Reexec else Done
    case Restart => Stop(LaunchAndWait(settings, if ShouldReexec(refresh, Restarted) then Reexec else Done))
  }

  function UpdaterWith(mode: RestartMode, refresh: UpdaterRefreshMode, settings: bool): Prog {
    IsRunning(
      Probe(
        ReadVersion(UpdaterTail(mode, refresh, settings, Some(true)), UpdaterTail(mode, refresh, settings, Some(false))),
        UpdaterTail(mode, refresh, settings, None)),
      Probe(Refuse, if ShouldReexec(refresh, NotRunning) then Reexec else Done))
  }

  /** `try_restart_if_running`, once the lock is taken. */
  function UpdaterProg(mode: RestartMode, refresh: UpdaterRefreshMode): Prog {
    Load(UpdaterWith(mode, refresh, true), UpdaterWith(mode, refresh, false))
  }

  function SetBody(mode: bool, previous: bool, running: bool, k: Prog): Prog {
    if previous == mode then
      if running then WaitReady(Rpc(mode, k)) else k
    else
      Save(mode, if running then EnsureBin(Stop(LaunchAndWait(mode, k))) else k)
  }

  function SetWith(mode: bool, previous: bool, k: Prog): Prog {
    IsRunning(SetBody(mode, previous, true, k), Probe(Refuse, SetBody(mode, previous, false, k)))
  }

  /** `set_remote_control_locked`. */
  function SetProg(mode: bool, k: Prog): Prog {
    Load(SetWith(mode, true, k), SetWith(mode, false, k))
  }

  function BootstrapStart(mode: bool, k: Prog): Prog {
    Launch(mode, UpdaterRunning(StopUpdater(LaunchUpdater(WaitReady(k))), LaunchUpdater(WaitReady(k))))
  }

  function BootstrapTail(mode: bool, k: Prog): Prog {
    Save(mode, IsRunning(Stop(BootstrapStart(mode, k)), BootstrapStart(mode, k)))
  }

  /** `bootstrap_locked`. */
  function BootstrapProg(mode: bool, k: Prog): Prog {
    EnsureBin(Probe(IsRunning(BootstrapTail(mode, k), Refuse), BootstrapTail(mode, k)))
  }

  /** `ensure_remote_control_started`, once the lock is taken. */
  function EnsureProg(): Prog {
    var body := UpdaterRunning(SetProg(true, StartProg(Done)), BootstrapProg(true, Done));
    Load(body, body)
  }

  /** `version`, which takes no lock. */
  function VersionProg(): Prog {
    var body := Probe(IsRunning(Done, Done), Refuse);
    Load(body, body)
  }

  datatype Op =
    | StartOp
    | RestartOp
    | StopOp
    | BootstrapOp(mode: bool)
    | SetOp(mode: bool)
    | EnsureOp
    | UpdaterOp(restartMode: RestartMode, refresh: UpdaterRefreshMode)
    | VersionOp
    | EnableRpcOp

  /** The second half of `ensure_remote_control_ready` runs after the lock is released. */
  predicate TakesLock(op: Op) {
    !op.VersionOp? && !op.EnableRpcOp?
  }

  function Program(op: Op): Prog {
    match op
    case StartOp => StartProg(Done)
    case RestartOp => RestartProg(Done)
    case StopOp => StopProg(Done)
    case BootstrapOp(mode) => BootstrapProg(mode, Done)
    case SetOp(mode) => SetProg(mode, Done)
    case EnsureOp => EnsureProg()
    case UpdaterOp(mode, refresh) => UpdaterProg(mode, refresh)
    case VersionOp => VersionProg()
    case EnableRpcOp => Rpc(true, Done)
  }

  // ---------------------------------------------------------------- the shared machine

  datatype Socket = Silent | ByManaged | ByForeign

  /**
   `settings` is the persisted flag, absent when a torn write left the file unreadable;
   `managed` is the managed server, starting or running, with its live mode.
   */
  datatype World = World(settings: Option<bool>, managed: Option<bool>, socket: Socket, updater: bool)

  /** What the environment lets a call return. */
  datatype Verdict = Ok | No | Fails | Torn

  function Kill(w: World): World {
    w.(managed := None, socket := if w.socket == ByManaged then Silent else w.socket)
  }

  /**
   Performing the next call of `p`: the new machine and what is left, or nothing after an error.
   A probe has no error of its own: whatever goes wrong reads as nobody answering.
   */
  function Act(w: World, p: Prog, v: Verdict): (World, Option<Prog>) {
    if v == Torn && p.Save? then (w.(settings := None), None)
    else if (v == Fails || v == Torn) && !p.Probe? then (w, None)
    else match p
    case Done => (w, None)
    case Refuse => (w, None)
    case Load(on, off) => (w, if w.settings.None? then None else Some(if w.settings.value then on else off))
    case Save(value, next) => (w.(settings := Some(value)), Some(next))
    case Probe(up, down) => (w, Some(if v == Ok && w.socket != Silent then up else down))
    case IsRunning(yes, no) => (w, Some(if w.managed.Some? then yes else no))
    case EnsureBin(next) => (w, Some(next))
    case Stop(next) => (Kill(w), Some(next))
    case Launch(mode, next) => (if w.managed.Some? then w else w.(managed := Some(mode)), Some(next))
    case WaitReady(next) => (w, if w.socket == Silent then Some(p) else Some(next))
    case Rpc(mode, next) =>
      if w.socket == Silent then (w, None)
      else (if w.socket == ByManaged && w.managed.Some? then w.(managed := Some(mode)) else w, Some(next))
    case UpdaterRunning(yes, no) => (w, Some(if w.updater then yes else no))
    case StopUpdater(next) => (w.(updater := false), Some(next))
    case LaunchUpdater(next) => (w.(updater := true), Some(next))
    case ReadVersion(same, changed) => (w, Some(if v == Ok then same else changed))
    case Reexec => (w, None)
  }

  datatype Proc = Waiting(prog: Prog) | Holding(prog: Prog) | Free(prog: Prog) | Finished(ok: bool)

  datatype State = State(world: World, procs: map<nat, Proc>, lock: Option<nat>)

  datatype Action =
    | Submit(proc: nat, op: Op)
    | Acquire(proc: nat)
    | GiveUp(proc: nat)
    | Run(proc: nat, verdict: Verdict)
    | Crash(proc: nat)
    | ServerBinds
    | ServerDies
    | ForeignBinds
    | ForeignLeaves

  /** A process that ends, well or not, drops its lock file handle and with it the lock. */
  function Finish(s: State, p: nat, ok: bool): State {
    s.(procs := s.procs[p := Finished(ok)], lock := if s.lock == Some(p) then None else s.lock)
  }

  function RunProc(s: State, p: nat, v: Verdict): State
    requires p in s.procs && (s.procs[p].Holding? || s.procs[p].Free?)
  {
    var proc := s.procs[p];
    if proc.prog.Done? then Finish(s, p, true) else
    var (w, rest) := Act(s.world, proc.prog, v);
    var s' := s.(world := w);
    if rest.None? then Finish(s', p, false)
    else s'.(procs := s.procs[p := proc.(prog := rest.value)])
  }

  function Step(s: State, a: Action): State {
    match a
    case Submit(p, op) =>
      if p in s.procs then s
      else s.(procs := s.procs[p := if TakesLock(op) then Waiting(Program(op)) else Free(Program(op))])
    case Acquire(p) =>
      if p in s.procs && s.procs[p].Waiting? && s.lock.None? then
        s.(procs := s.procs[p := Holding(s.procs[p].prog)], lock := Some(p))
      else s
    case GiveUp(p) => if p in s.procs && s.procs[p].Waiting? then Finish(s, p, false) else s
    case Run(p, v) => if p in s.procs && (s.procs[p].Holding? || s.procs[p].Free?) then RunProc(s, p, v) else s
    case Crash(p) => if p in s.procs then Finish(s, p, false) else s
    case ServerBinds =>
      if s.world.managed.Some? && s.world.socket == Silent then s.(world := s.world.(socket := ByManaged)) else s
    case ServerDies => s.(world := Kill(s.world))
    case ForeignBinds => if s.world.socket == Silent then s.(world := s.world.(socket := ByForeign)) else s
    case ForeignLeaves => if s.world.socket == ByForeign then s.(world := s.world.(socket := Silent)) else s
  }

  function Exec(s: State, actions: seq<Action>): State
    decreases actions
  {
    if actions == [] then s else Exec(Step(s, actions[0]), actions[1..])
  }

  lemma {:induction false} ExecSnoc(s: State, actions: seq<Action>, a: Action)
    ensures Exec(s, actions + [a]) == Step(Exec(s, actions), a)
    decreases actions
  {
    if actions == [] {
      assert actions + [a] == [a];
    } else {
      assert (actions + [a])[1..] == actions[1..] + [a];
      ExecSnoc(Step(s, actions[0]), actions[1..], a);
    }
  }

  /** The machine may be in any condition when the first process appears. */
  function Init(w: World): State {
    State(w, map[], None)
  }

  /** A machine on which process 0 alone runs, with the lock and `p` left to do. */
  function Alone(w: World, p: Prog): State {
    State(w, map[0 := Holding(p)], Some(0))
  }

  // ---------------------------------------------------------------- single managed server

  /** Every launch in `p` is reached with the managed server known to be down; `down` is what is known at the root. */
  predicate Guarded(p: Prog, down: bool) {
    match p
    case Done => true
    case Refuse => true
    case Load(on, off) => Guarded(on, down) && Guarded(off, down)
    case Save(_, next) => Guarded(next, down)
    case Probe(up, dn) => Guarded(up, down) && Guarded(dn, down)
    case IsRunning(yes, no) => Guarded(yes, false) && Guarded(no, true)
    case EnsureBin(next) => Guarded(next, down)
    case Stop(next) => Guarded(next, true)
    case Launch(_, next) => down && Guarded(next, false)
    case WaitReady(next) => Guarded(next, down)
    case Rpc(_, next) => Guarded(next, down)
    case UpdaterRunning(yes, no) => Guarded(yes, down) && Guarded(no, down)
    case StopUpdater(next) => Guarded(next, down)
    case LaunchUpdater(next) => Guarded(next, down)
    case ReadVersion(same, changed) => Guarded(same, down) && Guarded(changed, down)
    case Reexec => true
  }

  /**
   Programs that run without the lock change neither the settings nor whether a backend is there;
   all they may ask of it is to enable remote control.
   */
  predicate Harmless(p: Prog) {
    match p
    case Done => true
    case Refuse => true
    case Load(on, off) => Harmless(on) && Harmless(off)
    case Probe(up, down) => Harmless(up) && Harmless(down)
    case IsRunning(yes, no) => Harmless(yes) && Harmless(no)
    case Rpc(mode, next) => mode && Harmless(next)
    case _ => false
  }

  /** Knowing more only helps. */
  lemma {:induction false} GuardedMono(p: Prog)
    requires Guarded(p, false)
    ensures Guarded(p, true)
  {
    match p
    case Load(on, off) => GuardedMono(on); GuardedMono(off);
    case Save(_, next) => GuardedMono(next);
    case Probe(up, down) => GuardedMono(up); GuardedMono(down);
    case EnsureBin(next) => GuardedMono(next);
    case WaitReady(next) => GuardedMono(next);
    case Rpc(_, next) => GuardedMono(next);
    case UpdaterRunning(yes, no) => GuardedMono(yes); GuardedMono(no);
    case StopUpdater(next) => GuardedMono(next);
    case LaunchUpdater(next) => GuardedMono(next);
    case ReadVersion(same, changed) => GuardedMono(same); GuardedMono(changed);
    case _ =>
  }

  lemma LaunchGuarded(mode: bool, k: Prog)
    requires Guarded(k, false)
    ensures Guarded(LaunchAndWait(mode, k), true)
    ensures Guarded(Stop(LaunchAndWait(mode, k)), false)
  {
    assert Guarded(WaitReady(k), false);
  }

  lemma StartGuarded(settings: bool, k: Prog)
    requires Guarded(k, false)
    ensures Guarded(StartWith(settings, k), false)
  {
    GuardedMono(k);
    LaunchGuarded(settings, k);
    assert Guarded(EnsureBin(LaunchAndWait(settings, k)), true);
    assert Guarded(WaitReady(k), false);
    assert Guarded(IsRunning(k, k), false);
  }

  lemma RestartGuarded(settings: bool, k: Prog)
    requires Guarded(k, false)
    ensures Guarded(RestartWith(settings, k), false)
  {
    LaunchGuarded(settings, k);
    assert Guarded(IsRunning(Stop(LaunchAndWait(settings, k)), LaunchAndWait(settings, k)), false);
    assert Guarded(RestartTail(settings, k), false);
  }

  lemma SetGuarded(mode: bool, previous: bool, k: Prog)
    requires Guarded(k, false)
    ensures Guarded(SetWith(mode, previous, k), false)
  {
    GuardedMono(k);
    LaunchGuarded(mode, k);
    assert Guarded(EnsureBin(Stop(LaunchAndWait(mode, k))), false);
    assert Guarded(Rpc(mode, k), false);
    assert Guarded(SetBody(mode, previous, true, k), false);
    assert Guarded(SetBody(mode, previous, false, k), true);
    assert Guarded(Probe(Refuse, SetBody(mode, previous, false, k)), true);
  }

  lemma BootstrapGuarded(mode: bool, k: Prog)
    requires Guarded(k, false)
    ensures Guarded(BootstrapProg(mode, k), false)
  {
    var wait := LaunchUpdater(WaitReady(k));
    assert Guarded(WaitReady(k), false);
    assert Guarded(wait, false);
    assert Guarded(StopUpdater(wait), false);
    assert Guarded(UpdaterRunning(StopUpdater(wait), wait), false);
    var start := BootstrapStart(mode, k);
    assert Guarded(start, true);
    assert Guarded(Stop(start), false);
    assert Guarded(IsRunning(Stop(start), start), false);
    assert Guarded(BootstrapTail(mode, k), false);
    assert Guarded(IsRunning(BootstrapTail(mode, k), Refuse), false);
    assert Guarded(Probe(IsRunning(BootstrapTail(mode, k), Refuse), BootstrapTail(mode, k)), false);
  }

  lemma UpdaterTailGuarded(mode: RestartMode, refresh: UpdaterRefreshMode, settings: bool, sameVersion: Option<bool>)
    ensures Guarded(UpdaterTail(mode, refresh, settings, sameVersion), false)
  {
    LaunchGuarded(settings, if ShouldReexec(refresh, Restarted) then Reexec else Done);
  }

  lemma UpdaterGuarded(mode: RestartMode, refresh: UpdaterRefreshMode, settings: bool)
    ensures Guarded(UpdaterWith(mode, refresh, settings), false)
  {
    UpdaterTailGuarded(mode, refresh, settings, Some(true));
    UpdaterTailGuarded(mode, refresh, settings, Some(false));
    UpdaterTailGuarded(mode, refresh, settings, None);
    GuardedUpdate(UpdaterTail(mode, refresh, settings, Some(true)), UpdaterTail(mode, refresh, settings, Some(false)),
                  UpdaterTail(mode, refresh, settings, None), if ShouldReexec(refresh, NotRunning) then Reexec else Done);
  }

  lemma GuardedUpdate(same: Prog, changed: Prog, silent: Prog, idle: Prog)
    requires Guarded(same, false) && Guarded(changed, false) && Guarded(silent, false) && Guarded(idle, true)
    ensures Guarded(IsRunning(Probe(ReadVersion(same, changed), silent), Probe(Refuse, idle)), false)
  {
    assert Guarded(ReadVersion(same, changed), false);
    assert Guarded(Probe(ReadVersion(same, changed), silent), false);
  }

  lemma LoadGuarded(on: Prog, off: Prog)
    requires Guarded(on, false) && Guarded(off, false)
    ensures Guarded(Load(on, off), false)
  {
  }

  lemma StartProgGuarded(k: Prog)
    requires Guarded(k, false)
    ensures Guarded(StartProg(k), false)
  {
    StartGuarded(true, k);
    StartGuarded(false, k);
    LoadGuarded(StartWith(true, k), StartWith(false, k));
  }

  lemma RestartProgGuarded(k: Prog)
    requires Guarded(k, false)
    ensures Guarded(RestartProg(k), false)
  {
    RestartGuarded(true, k);
    RestartGuarded(false, k);
    LoadGuarded(RestartWith(true, k), RestartWith(false, k));
  }

  lemma SetProgGuarded(mode: bool, k: Prog)
    requires Guarded(k, false)
    ensures Guarded(SetProg(mode, k), false)
  {
    SetGuarded(mode, true, k);
    SetGuarded(mode, false, k);
    LoadGuarded(SetWith(mode, true, k), SetWith(mode, false, k));
  }

  lemma UpdaterProgGuarded(mode: RestartMode, refresh: UpdaterRefreshMode)
    ensures Guarded(UpdaterProg(mode, refresh), false)
  {
    UpdaterGuarded(mode, refresh, true);
    UpdaterGuarded(mode, refresh, false);
    LoadGuarded(UpdaterWith(mode, refresh, true), UpdaterWith(mode, refresh, false));
  }

  lemma EnsureProgGuarded()
    ensures Guarded(EnsureProg(), false)
  {
    StartProgGuarded(Done);
    SetProgGuarded(true, StartProg(Done));
    BootstrapGuarded(true, Done);
    var body := UpdaterRunning(SetProg(true, StartProg(Done)), BootstrapProg(true, Done));
    assert Guarded(body, false);
    LoadGuarded(body, body);
  }

  lemma UnlockedGuarded(p: Prog)
    requires Harmless(p)
    ensures Guarded(p, false) && Guarded(p, true)
  {
  }

  /** Every operation checks or stops before it launches. */
  lemma OperationsGuarded(op: Op)
    ensures Guarded(Program(op), false)
  {
    match op
    case StartOp => StartProgGuarded(Done);
    case RestartOp => RestartProgGuarded(Done);
    case StopOp => StopGuarded(Done);
    case BootstrapOp(mode) => BootstrapGuarded(mode, Done);
    case SetOp(mode) => SetProgGuarded(mode, Done);
    case EnsureOp => EnsureProgGuarded();
    case UpdaterOp(mode, refresh) => UpdaterProgGuarded(mode, refresh);
    case VersionOp => UnlockedHarmless(op); UnlockedGuarded(Program(op));
    case EnableRpcOp => UnlockedHarmless(op); UnlockedGuarded(Program(op));
  }

  lemma StopGuarded(k: Prog)
    requires Guarded(k, false)
    ensures Guarded(StopProg(k), false)
  {
    GuardedMono(k);
    var body := IsRunning(Stop(k), Probe(Refuse, k));
    assert Guarded(Stop(k), false) && Guarded(Probe(Refuse, k), true);
    LoadGuarded(body, body);
  }

  lemma UnlockedHarmless(op: Op)
    requires !TakesLock(op)
    ensures Harmless(Program(op))
  {
    var body := Probe(IsRunning(Done, Done), Refuse);
    assert Harmless(IsRunning(Done, Done));
    assert Harmless(body);
  }

  /** What is known about one process, given whether the managed server is down. */
  predicate ProcOk(p: nat, proc: Proc, lock: Option<nat>, down: bool) {
    match proc
    case Waiting(prog) => Guarded(prog, false) && lock != Some(p)
    case Holding(prog) => lock == Some(p) && Guarded(prog, down)
    case Free(prog) => Harmless(prog) && lock != Some(p)
    case Finished(_) => lock != Some(p)
  }

  predicate Inv(s: State) {
    && (forall p :: p in s.procs ==> ProcOk(p, s.procs[p], s.lock, s.world.managed.None?))
    && (s.lock.Some? ==> s.lock.value in s.procs)
  }

  /** One call keeps the remaining program guarded. */
  lemma ActKeepsGuard(w: World, p: Prog, v: Verdict)
    requires Guarded(p, w.managed.None?)
    ensures var (w', rest) := Act(w, p, v);
            rest.Some? ==> Guarded(rest.value, w'.managed.None?)
  {
  }

  lemma HarmlessAct(w: World, p: Prog, v: Verdict)
    requires Harmless(p)
    ensures var (w', rest) := Act(w, p, v);
            && w'.managed.None? == w.managed.None? && w'.settings == w.settings && w'.updater == w.updater
            && (rest.Some? ==> Harmless(rest.value))
  {
  }

  lemma RunKeepsInv(s: State, p: nat, v: Verdict)
    requires Inv(s) && p in s.procs && (s.procs[p].Holding? || s.procs[p].Free?)
    ensures Inv(RunProc(s, p, v))
  {
    var prog := s.procs[p].prog;
    assert ProcOk(p, s.procs[p], s.lock, s.world.managed.None?);
    if s.procs[p].Holding? {
      ActKeepsGuard(s.world, prog, v);
    } else {
      HarmlessAct(s.world, prog, v);
    }
  }

  lemma DyingKeepsInv(s: State)
    requires Inv(s)
    ensures Inv(s.(world := Kill(s.world)))
  {
    forall p | p in s.procs
      ensures ProcOk(p, s.procs[p], s.lock, true)
    {
      assert ProcOk(p, s.procs[p], s.lock, s.world.managed.None?);
      if s.procs[p].Holding? && !s.world.managed.None? {
        GuardedMono(s.procs[p].prog);
      }
    }
  }

  lemma StepKeepsInv(s: State, a: Action)
    requires Inv(s)
    ensures Inv(Step(s, a))
  {
    match a
    case Submit(p, op) =>
      OperationsGuarded(op);
      if !TakesLock(op) { UnlockedHarmless(op); }
    case Acquire(p) =>
      if p in s.procs && s.procs[p].Waiting? {
        assert ProcOk(p, s.procs[p], s.lock, s.world.managed.None?);
        GuardedMono(s.procs[p].prog);
      }
    case Run(p, v) => if p in s.procs && (s.procs[p].Holding? || s.procs[p].Free?) { RunKeepsInv(s, p, v); }
    case ServerDies => DyingKeepsInv(s);
    case _ =>
  }

  lemma {:induction false} ExecKeepsInv(s: State, actions: seq<Action>)
    requires Inv(s)
    ensures Inv(Exec(s, actions))
    decreases actions
  {
    if actions != [] {
      StepKeepsInv(s, actions[0]);
      ExecKeepsInv(Step(s, actions[0]), actions[1..]);
    }
  }

  /**
   Single managed server: on every interleaving of any operations, a process about to launch
   the app-server backend holds the operation lock, and no managed server is there.
   */
  lemma SingleManagedServer(w: World, actions: seq<Action>, p: nat)
    ensures var s := Exec(Init(w), actions);
            p in s.procs && !s.procs[p].Waiting? && !s.procs[p].Finished? && s.procs[p].prog.Launch? ==>
              s.procs[p].Holding? && s.lock == Some(p) && s.world.managed == None
  {
    ExecKeepsInv(Init(w), actions);
    var s := Exec(Init(w), actions);
    if p in s.procs {
      assert ProcOk(p, s.procs[p], s.lock, s.world.managed.None?);
    }
  }

  // ---------------------------------------------------------------- unmanaged-server safety

  /**
   With the socket answered by a foreign server and no managed one, `p` ends without
   saving, stopping or launching anything.
   */
  predicate Quiet(p: Prog) {
    match p
    case Done => true
    case Refuse => true
    case Load(on, off) => Quiet(on) && Quiet(off)
    case Probe(up, _) => Quiet(up)
    case IsRunning(_, no) => Quiet(no)
    case EnsureBin(next) => Quiet(next)
    case WaitReady(next) => Quiet(next)
    case Rpc(_, next) => Quiet(next)
    case UpdaterRunning(yes, no) => Quiet(yes) && Quiet(no)
    case ReadVersion(same, changed) => Quiet(same) && Quiet(changed)
    case Reexec => true
    case _ => false
  }

  lemma SetQuiet(mode: bool, k: Prog)
    ensures Quiet(SetProg(mode, k))
  {
    assert Quiet(SetWith(mode, true, k)) && Quiet(SetWith(mode, false, k));
  }

  lemma OperationsQuiet(op: Op)
    ensures Quiet(Program(op))
  {
    match op
    case StartOp => assert Quiet(StartWith(true, Done)) && Quiet(StartWith(false, Done));
    case RestartOp => assert Quiet(RestartWith(true, Done)) && Quiet(RestartWith(false, Done));
    case SetOp(mode) => SetQuiet(mode, Done);
    case EnsureOp => EnsureQuiet();
    case UpdaterOp(mode, refresh) =>
      assert Quiet(UpdaterWith(mode, refresh, true)) && Quiet(UpdaterWith(mode, refresh, false));
    case BootstrapOp(mode) =>
      assert Quiet(Probe(IsRunning(BootstrapTail(mode, Done), Refuse), BootstrapTail(mode, Done)));
    case StopOp =>
    case VersionOp =>
    case EnableRpcOp =>
  }

  lemma EnsureQuiet()
    ensures Quiet(EnsureProg())
  {
    SetQuiet(true, StartProg(Done));
    assert Quiet(BootstrapProg(true, Done)) by {
      assert Quiet(Probe(IsRunning(BootstrapTail(true, Done), Refuse), BootstrapTail(true, Done)));
    }
    assert Quiet(UpdaterRunning(SetProg(true, StartProg(Done)), BootstrapProg(true, Done)));
  }

  predicate AllQuiet(s: State) {
    forall p :: p in s.procs && !s.procs[p].Finished? ==> Quiet(s.procs[p].prog)
  }

  /** The foreign server stays, and every probe of the socket reaches it. */
  predicate Steady(s: State, a: Action) {
    && !a.ForeignLeaves?
    && (a.Run? && a.proc in s.procs && !s.procs[a.proc].Finished? && s.procs[a.proc].prog.Probe? ==> a.verdict == Ok)
  }

  predicate SteadyRun(s: State, actions: seq<Action>)
    decreases actions
  {
    actions == [] || (Steady(s, actions[0]) && SteadyRun(Step(s, actions[0]), actions[1..]))
  }

  lemma QuietAct(w: World, p: Prog, v: Verdict)
    requires w.socket == ByForeign && w.managed.None? && Quiet(p) && (p.Probe? ==> v == Ok)
    ensures var (w', rest) := Act(w, p, v);
            w' == w && (rest.Some? ==> Quiet(rest.value))
  {
  }

  lemma QuietStep(s: State, a: Action)
    requires s.world.socket == ByForeign && s.world.managed.None? && AllQuiet(s) && Steady(s, a)
    ensures Step(s, a).world == s.world && AllQuiet(Step(s, a))
  {
    match a
    case Submit(_, op) => OperationsQuiet(op);
    case Run(p, v) =>
      if p in s.procs && (s.procs[p].Holding? || s.procs[p].Free?) { QuietAct(s.world, s.procs[p].prog, v); }
    case _ =>
  }

  lemma {:induction false} QuietRun(s: State, actions: seq<Action>)
    requires s.world.socket == ByForeign && s.world.managed.None? && AllQuiet(s) && SteadyRun(s, actions)
    ensures Exec(s, actions).world == s.world
    decreases actions
  {
    if actions != [] {
      QuietStep(s, actions[0]);
      QuietRun(Step(s, actions[0]), actions[1..]);
    }
  }

  /**
   Unmanaged-server safety: while a server that is not the managed backend keeps answering
   the socket, no interleaving of operations changes the machine at all: the settings, the
   absence of a managed server and the foreign server stay as they were.
   */
  lemma UnmanagedServerSafety(w: World, actions: seq<Action>)
    requires w.socket == ByForeign && w.managed.None?
    requires SteadyRun(Init(w), actions)
    ensures Exec(Init(w), actions).world == w
  {
    QuietRun(Init(w), actions);
  }
}
