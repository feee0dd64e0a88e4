/**
 The daemon's operations as the code writes them, one method each, acting on one machine.
 A ghost program counter walks the tree of the operation, so a method that made its calls in
 another order, or took another branch, would not verify. `SoloRunIsInterleaving` places every
 such run inside the interleaving model, so that what holds of all interleavings holds of the
 methods: what they promise about the settings and the managed server comes from there.
 */
module DaemonHost {
  import opened Basics
  import opened Daemon
  import opened DaemonOutcomes

  /** What happens outside the daemon before a call, and what that call then meets. */
  datatype Turn = Turn(moves: seq<Action>, verdict: Verdict)

  predicate IsOutside(a: Action) {
    a.ServerBinds? || a.ServerDies? || a.ForeignBinds? || a.ForeignLeaves?
  }

  datatype Event = Perform(verdict: Verdict) | Outside(action: Action)

  function OutsideStep(w: World, a: Action): World {
    Step(State(w, map[], None), a).world
  }

  /** The machine, and what is left of the program, unless it failed. */
  datatype Solo = Solo(world: World, pc: Option<Prog>)

  function SoloStep(s: Solo, e: Event): Solo {
    match e
    case Outside(a) => if IsOutside(a) then s.(world := OutsideStep(s.world, a)) else s
    case Perform(v) =>
      if s.pc.None? then s else
      var (w, rest) := Act(s.world, s.pc.value, v);
      Solo(w, rest)
  }

  function Replay(s: Solo, trail: seq<Event>): Solo {
    if trail == [] then s else SoloStep(Replay(s, trail[..|trail| - 1]), trail[|trail| - 1])
  }

  lemma ReplaySnoc(s: Solo, trail: seq<Event>, e: Event)
    ensures Replay(s, trail + [e]) == SoloStep(Replay(s, trail), e)
  {
    assert (trail + [e])[..|trail|] == trail;
  }

  /** The same event seen from the interleaving model, where process `p` performs the calls. */
  function Lift(p: nat, e: Event): Action {
    match e
    case Perform(v) => Run(p, v)
    case Outside(a) => a
  }

  predicate Allowed(e: Event) {
    e.Outside? ==> IsOutside(e.action)
  }

  /** Process `p` of `s` is where the solo run is. */
  predicate Mirrors(s: State, p: nat, solo: Solo) {
    && s.world == solo.world && p in s.procs
    && if solo.pc.Some? then s.procs[p] == Holding(solo.pc.value) else s.procs[p].Finished?
  }

  lemma StepMirrors(s: State, p: nat, solo: Solo, e: Event)
    requires Mirrors(s, p, solo) && Allowed(e)
    requires e.Perform? && solo.pc.Some? ==> !solo.pc.value.Done?
    ensures Mirrors(Step(s, Lift(p, e)), p, SoloStep(solo, e))
  {
  }

  /** No call is made past the end of the program. */
  predicate WithinProgram(s: Solo, trail: seq<Event>) {
    forall i :: 0 <= i < |trail| && trail[i].Perform? && Replay(s, trail[..i]).pc.Some? ==>
                  !Replay(s, trail[..i]).pc.value.Done?
  }

  function LiftAll(p: nat, trail: seq<Event>): seq<Action> {
    seq(|trail|, i requires 0 <= i < |trail| => Lift(p, trail[i]))
  }

  /** A run of one operation is a run of the interleaving model. */
  lemma {:induction false} SoloRunIsInterleaving(s: State, p: nat, solo: Solo, trail: seq<Event>)
    requires Mirrors(s, p, solo) && WithinProgram(solo, trail)
    requires forall e :: e in trail ==> Allowed(e)
    ensures Mirrors(Exec(s, LiftAll(p, trail)), p, Replay(solo, trail))
    decreases trail
  {
    if trail != [] {
      var front, last := trail[..|trail| - 1], trail[|trail| - 1];
      assert forall i :: 0 <= i <= |front| ==> front[..i] == trail[..i];
      SoloRunIsInterleaving(s, p, solo, front);
      StepMirrors(Exec(s, LiftAll(p, front)), p, Replay(solo, front), last);
      assert LiftAll(p, trail) == LiftAll(p, front) + [Lift(p, last)];
      ExecSnoc(s, LiftAll(p, front), Lift(p, last));
    }
  }

  /** The trail takes `program`, begun on the machine `w`, to its end and leaves `w'`. */
  predicate Concludes(w: World, program: Prog, trail: seq<Event>, w': World) {
    var solo := Solo(w, Some(program));
    && WithinProgram(solo, trail)
    && (forall e :: e in trail ==> Allowed(e))
    && Replay(solo, trail) == Solo(w', Some(Done))
  }

  /** An operation that reaches its end by itself succeeds in the interleaving model too. */
  lemma SoloSucceeds(w: World, op: Op, trail: seq<Event>, w': World)
    requires Concludes(w, Program(op), trail, w')
    ensures var s := Alone(w, Program(op));
            var s' := Exec(s, LiftAll(0, trail));
            Begins(s, 0, Program(op)) && SucceedsBy(s', 0, Run(0, Ok)) && Step(s', Run(0, Ok)).world == w'
  {
    OperationsGuarded(op);
    if w.managed.None? { GuardedMono(Program(op)); }
    SoloRunIsInterleaving(Alone(w, Program(op)), 0, Solo(w, Some(Program(op))), trail);
  }

  /** What the world outside can do to the machine by itself: end the managed server, change who answers. */
  predicate OnlyWeather(w: World, w': World) {
    w'.settings == w.settings && w'.updater == w.updater && (w'.managed == w.managed || w'.managed == None)
  }

  /** The managed server, if any, has the given mode. */
  predicate InMode(w: World, mode: bool) {
    w.managed == None || w.managed == Some(mode)
  }

  /** The machine after what happens outside; moves that are the daemon's own do not count. */
  function AfterMoves(w: World, moves: seq<Action>): World {
    if moves == [] then w else
    var before := AfterMoves(w, moves[..|moves| - 1]);
    if IsOutside(moves[|moves| - 1]) then OutsideStep(before, moves[|moves| - 1]) else before
  }

  class DaemonHost {
    ghost const start: Solo
    var world: World
    var script: seq<Turn>
    ghost var pc: Option<Prog>
    ghost var trail: seq<Event>

    ghost predicate Valid()
      reads this
    {
      && Solo(world, pc) == Replay(start, trail)
      && WithinProgram(start, trail)
      && forall e :: e in trail ==> Allowed(e)
    }

    /** The next call of the program is of the kind its caller expects. */
    ghost predicate At(p: Prog)
      reads this
    {
      Valid() && pc == Some(p)
    }

    constructor (w: World, turns: seq<Turn>, ghost program: Prog)
      ensures At(program) && world == w && trail == []
    {
      start := Solo(w, Some(program));
      world, script := w, turns;
      pc, trail := Some(program), [];
    }

    ghost method Record(e: Event)
      requires Valid() && Allowed(e)
      requires e.Perform? ==> pc.Some? && !pc.value.Done?
      modifies this`trail
      ensures trail == old(trail) + [e]
      ensures Replay(start, trail) == SoloStep(Solo(world, pc), e)
      ensures WithinProgram(start, trail) && forall x :: x in trail ==> Allowed(x)
    {
      ReplaySnoc(start, trail, e);
      forall i | 0 <= i <= |trail|
        ensures (trail + [e])[..i] == trail[..i]
      {
      }
      assert trail[..|trail|] == trail;
      trail := trail + [e];
    }

    /** Lets the outside world act and returns what the next call will meet. */
    method NextVerdict() returns (v: Verdict)
      requires Valid()
      modifies this`world, this`script, this`trail
      ensures Valid() && old(trail) <= trail
      ensures if old(script) == [] then v == Fails && world == old(world) && script == []
              else v == old(script)[0].verdict && script == old(script)[1..] && world == AfterMoves(old(world), old(script)[0].moves)
      ensures OnlyWeather(old(world), world)
    {
      if script == [] {
        return Fails;
      }
      var turn := script[0];
      script := script[1..];
      for i := 0 to |turn.moves|
        invariant Valid() && old(trail) <= trail && script == old(script)[1..]
        invariant OnlyWeather(old(world), world) && world == AfterMoves(old(world), turn.moves[..i])
      {
        assert turn.moves[..i + 1][..i] == turn.moves[..i];
        if IsOutside(turn.moves[i]) {
          Record(Outside(turn.moves[i]));
          world := OutsideStep(world, turn.moves[i]);
        }
      }
      assert turn.moves[..|turn.moves|] == turn.moves;
      v := turn.verdict;
    }

    // The effectful calls. `None`, or `false` for `ok`, is the error return.

    method LoadSettings() returns (r: Option<bool>)
      requires Valid() && pc.Some? && pc.value.Load?
      modifies this
      ensures Valid() && old(trail) <= trail
      ensures pc == if r.None? then None else Some(if r.value then old(pc).value.on else old(pc).value.off)
      ensures OnlyWeather(old(world), world)
      ensures r.Some? ==> r == world.settings
    {
      var v := NextVerdict();
      Record(Perform(v));
      if v == Fails || v == Torn || world.settings.None? {
        pc := None;
        return None;
      }
      r := world.settings;
      pc := Some(if r.value then pc.value.on else pc.value.off);
    }

    method SaveSettings(value: bool) returns (ok: bool)
      requires Valid() && pc.Some? && pc.value.Save? && pc.value.value == value
      modifies this
      ensures Valid() && old(trail) <= trail
      ensures pc == if ok then Some(old(pc).value.next) else None
      ensures OnlyWeather(old(world), world.(settings := old(world.settings)))
      ensures ok ==> world.settings == Some(value)
    {
      var v := NextVerdict();
      Record(Perform(v));
      if v == Fails || v == Torn {
        if v == Torn { world := world.(settings := None); }
        pc := None;
        return false;
      }
      world := world.(settings := Some(value));
      pc := Some(pc.value.next);
      ok := true;
    }

    /** Whether anybody answers on the socket; a failing probe reads as nobody. */
    method ProbeSocket() returns (up: bool)
      requires Valid() && pc.Some? && pc.value.Probe?
      modifies this
      ensures Valid() && old(trail) <= trail
      ensures pc == Some(if up then old(pc).value.up else old(pc).value.down)
      ensures OnlyWeather(old(world), world)
      ensures up ==> world.socket != Silent
    {
      var v := NextVerdict();
      Record(Perform(v));
      up := v == Ok && world.socket != Silent;
      pc := Some(if up then pc.value.up else pc.value.down);
    }

    method IsStartingOrRunning() returns (ok: bool, running: bool)
      requires Valid() && pc.Some? && pc.value.IsRunning?
      modifies this
      ensures Valid() && old(trail) <= trail
      ensures pc == if !ok then None else Some(if running then old(pc).value.yes else old(pc).value.no)
      ensures OnlyWeather(old(world), world)
      ensures ok ==> running == world.managed.Some?
    {
      var v := NextVerdict();
      Record(Perform(v));
      if v == Fails || v == Torn {
        pc := None;
        return false, false;
      }
      ok, running := true, world.managed.Some?;
      pc := Some(if running then pc.value.yes else pc.value.no);
    }

    method EnsureManagedCodexBin() returns (ok: bool)
      requires Valid() && pc.Some? && pc.value.EnsureBin?
      modifies this
      ensures Valid() && old(trail) <= trail
      ensures pc == if ok then Some(old(pc).value.next) else None
      ensures OnlyWeather(old(world), world)
    {
      var v := NextVerdict();
      Record(Perform(v));
      ok := v != Fails && v != Torn;
      pc := if ok then Some(pc.value.next) else None;
    }

    method StopBackend() returns (ok: bool)
      requires Valid() && pc.Some? && pc.value.Stop?
      modifies this
      ensures Valid() && old(trail) <= trail
      ensures pc == if ok then Some(old(pc).value.next) else None
      ensures OnlyWeather(old(world), world)
      ensures ok ==> world.managed == None
    {
      var v := NextVerdict();
      Record(Perform(v));
      ok := v != Fails && v != Torn;
      if ok {
        world := world.(managed := None, socket := if world.socket == ByManaged then Silent else world.socket);
      }
      pc := if ok then Some(pc.value.next) else None;
    }

    method StartBackend(mode: bool) returns (ok: bool)
      requires Valid() && pc.Some? && pc.value.Launch? && pc.value.mode == mode
      modifies this
      ensures Valid() && old(trail) <= trail
      ensures pc == if ok then Some(old(pc).value.next) else None
      ensures OnlyWeather(old(world), world.(managed := old(world.managed)))
      ensures old(world.managed) == None && ok ==> world.managed == Some(mode)
      ensures old(world.managed) == None && !ok ==> world.managed == None
    {
      var v := NextVerdict();
      Record(Perform(v));
      ok := v != Fails && v != Torn;
      if ok && world.managed.None? {
        world := world.(managed := Some(mode));
      }
      pc := if ok then Some(pc.value.next) else None;
    }

    /** One poll of the socket: an answer, an error, or nothing yet. */
    method PollReady() returns (decided: bool, ok: bool)
      requires Valid() && pc.Some? && pc.value.WaitReady? && script != []
      modifies this
      ensures Valid() && old(trail) <= trail && |script| < |old(script)|
      ensures pc == if !decided then old(pc) else if ok then Some(old(pc).value.next) else None
      ensures OnlyWeather(old(world), world)
      ensures ok ==> world.socket != Silent
    {
      var v := NextVerdict();
      Record(Perform(v));
      decided, ok := false, false;
      if v == Fails || v == Torn {
        pc, decided := None, true;
      } else if world.socket != Silent {
        pc, decided, ok := Some(pc.value.next), true, true;
      }
    }

    /** Polls the socket until it answers or the deadline, here the end of the script, passes. */
    method WaitUntilReady() returns (ok: bool)
      requires Valid() && pc.Some? && pc.value.WaitReady?
      modifies this
      ensures Valid() && old(trail) <= trail
      ensures pc == if ok then Some(old(pc).value.next) else None
      ensures OnlyWeather(old(world), world)
      ensures ok ==> world.socket != Silent
    {
      while script != []
        invariant Valid() && old(trail) <= trail && pc == old(pc) && OnlyWeather(old(world), world)
        decreases |script|
      {
        var decided;
        decided, ok := PollReady();
        if decided { return; }
      }
      Record(Perform(Fails));
      pc := None;
      ok := false;
    }

    method SetModeOnSocket(mode: bool) returns (ok: bool)
      requires Valid() && pc.Some? && pc.value.Rpc? && pc.value.mode == mode
      modifies this
      ensures Valid() && old(trail) <= trail
      ensures pc == if ok then Some(old(pc).value.next) else None
      ensures OnlyWeather(old(world), world.(managed := old(world.managed)))
      ensures ok ==> world.socket != Silent
      ensures ok && world.socket == ByManaged ==> InMode(world, mode)
    {
      var v := NextVerdict();
      Record(Perform(v));
      ok := v != Fails && v != Torn && world.socket != Silent;
      if ok && world.socket == ByManaged && world.managed.Some? {
        world := world.(managed := Some(mode));
      }
      pc := if ok then Some(pc.value.next) else None;
    }

    // The operations. `k` is where the caller goes on after success.

    method LaunchAndAwait(mode: bool, ghost k: Prog) returns (ok: bool)
      requires At(LaunchAndWait(mode, k))
      modifies this
      ensures Valid() && old(trail) <= trail
      ensures pc == if ok then Some(k) else None
      ensures OnlyWeather(old(world), world.(managed := old(world.managed)))
      ensures old(world.managed) == None ==> InMode(world, mode)
      ensures ok ==> world.socket != Silent
    {
      ok := StartBackend(mode);
      if ok {
        ok := WaitUntilReady();
      }
    }

    method StartServer(ghost k: Prog) returns (ok: bool)
      requires At(StartProg(k))
      modifies this
      ensures Valid() && old(trail) <= trail
      ensures pc == if ok then Some(k) else None
      ensures OnlyWeather(old(world), world.(managed := old(world.managed)))
      ensures world.managed == None || world.managed == old(world.managed) || world.managed == world.settings
    {
      var settings := LoadSettings();
      if settings.None? { return false; }
      var up, running;
      up := ProbeSocket();
      if up {
        ok, running := IsStartingOrRunning();
        return;
      }
      ok, running := IsStartingOrRunning();
      if !ok { return; }
      if running {
        ok := WaitUntilReady();
        return;
      }
      ok := EnsureManagedCodexBin();
      if !ok { return; }
      ok := LaunchAndAwait(settings.value, k);
    }

    /** The second half of a restart: the running server, if any, gives way to a new one. */
    method ReplaceServer(mode: bool, ghost k: Prog) returns (ok: bool)
      requires At(RestartTail(mode, k))
      modifies this
      ensures Valid() && old(trail) <= trail
      ensures pc == if ok then Some(k) else None
      ensures OnlyWeather(old(world), world.(managed := old(world.managed)))
      ensures ok ==> world.socket != Silent && InMode(world, mode)
    {
      ok := EnsureManagedCodexBin();
      if !ok { return; }
      var running;
      ok, running := IsStartingOrRunning();
      if !ok { return; }
      if running {
        ok := StopBackend();
        if !ok { return; }
      }
      ok := LaunchAndAwait(mode, k);
    }

    method RestartServer(ghost k: Prog) returns (ok: bool)
      requires At(RestartProg(k))
      modifies this
      ensures Valid() && old(trail) <= trail
      ensures ok ==> pc == Some(k)
      ensures !ok ==> pc == None || pc == Some(Refuse)
      ensures OnlyWeather(old(world), world.(managed := old(world.managed)))
      ensures ok ==> world.socket != Silent && world.settings.Some? && InMode(world, world.settings.value)
    {
      var settings := LoadSettings();
      if settings.None? { return false; }
      var up := ProbeSocket();
      if up {
        var running;
        ok, running := IsStartingOrRunning();
        if !ok { return; }
        if !running { return false; }
      }
      ok := ReplaceServer(settings.value, k);
    }

    method StopServer(ghost k: Prog) returns (ok: bool)
      requires At(StopProg(k))
      modifies this
      ensures Valid() && old(trail) <= trail
      ensures ok ==> pc == Some(k)
      ensures !ok ==> pc == None || pc == Some(Refuse)
      ensures OnlyWeather(old(world), world)
      ensures ok ==> world.managed == None
    {
      var settings := LoadSettings();
      if settings.None? { return false; }
      var up, running;
      ok, running := IsStartingOrRunning();
      if !ok { return; }
      if running {
        ok := StopBackend();
        return;
      }
      up := ProbeSocket();
      ok := !up;
    }

    method SetRemoteControlLocked(mode: bool, ghost k: Prog) returns (ok: bool)
      requires At(SetProg(mode, k))
      modifies this
      ensures Valid() && old(trail) <= trail
      ensures ok ==> pc == Some(k)
      ensures !ok ==> pc == None || pc == Some(Refuse)
      ensures ok ==> world.settings == Some(mode)
    {
      var previous := LoadSettings();
      if previous.None? { return false; }
      var up, running;
      ok, running := IsStartingOrRunning();
      if !ok { return; }
      if !running {
        up := ProbeSocket();
        if up { return false; }
      }
      if previous.value == mode {
        if running {
          ok := WaitUntilReady();
          if !ok { return; }
          ok := SetModeOnSocket(mode);
        }
        return;
      }
      ok := SaveSettings(mode);
      if !ok || !running { return; }
      ok := EnsureManagedCodexBin();
      if !ok { return; }
      ok := StopBackend();
      if !ok { return; }
      ok := LaunchAndAwait(mode, k);
    }

    method IsUpdaterRunning() returns (ok: bool, running: bool)
      requires Valid() && pc.Some? && pc.value.UpdaterRunning?
      modifies this
      ensures Valid() && old(trail) <= trail
      ensures pc == if !ok then None else Some(if running then old(pc).value.yes else old(pc).value.no)
      ensures OnlyWeather(old(world), world)
      ensures ok ==> running == world.updater
    {
      var v := NextVerdict();
      Record(Perform(v));
      if v == Fails || v == Torn {
        pc := None;
        return false, false;
      }
      ok, running := true, world.updater;
      pc := Some(if running then pc.value.yes else pc.value.no);
    }

    method SwitchUpdater(on: bool) returns (ok: bool)
      requires Valid() && pc.Some? && if on then pc.value.LaunchUpdater? else pc.value.StopUpdater?
      modifies this
      ensures Valid() && old(trail) <= trail
      ensures pc == if ok then Some(old(pc).value.next) else None
      ensures OnlyWeather(old(world), world.(updater := old(world.updater)))
      ensures ok ==> world.updater == on
    {
      var v := NextVerdict();
      Record(Perform(v));
      ok := v != Fails && v != Torn;
      if ok {
        world := world.(updater := on);
      }
      pc := if ok then Some(pc.value.next) else None;
    }

    /** The launches at the end of a bootstrap: the server, then a fresh updater. */
    method StartBackendAndUpdater(mode: bool, ghost k: Prog) returns (ok: bool)
      requires At(BootstrapStart(mode, k))
      modifies this
      ensures Valid() && old(trail) <= trail
      ensures pc == if ok then Some(k) else None
      ensures world.settings == old(world.settings)
      ensures old(world.managed) == None ==> InMode(world, mode)
      ensures ok ==> world.socket != Silent && world.updater
    {
      ok := StartBackend(mode);
      if !ok { return; }
      var running;
      ok, running := IsUpdaterRunning();
      if !ok { return; }
      if running {
        ok := SwitchUpdater(false);
        if !ok { return; }
      }
      ok := SwitchUpdater(true);
      if !ok { return; }
      ok := WaitUntilReady();
    }

    method BootstrapLocked(mode: bool, ghost k: Prog) returns (ok: bool)
      requires At(BootstrapProg(mode, k))
      modifies this
      ensures Valid() && old(trail) <= trail
      ensures ok ==> pc == Some(k)
      ensures !ok ==> pc == None || pc == Some(Refuse)
      ensures ok ==> world.settings == Some(mode) && InMode(world, mode) && world.socket != Silent && world.updater
    {
      ok := EnsureManagedCodexBin();
      if !ok { return; }
      var running;
      var up := ProbeSocket();
      if up {
        ok, running := IsStartingOrRunning();
        if !ok { return; }
        if !running { return false; }
      }
      ok := SaveSettings(mode);
      if !ok { return; }
      ok, running := IsStartingOrRunning();
      if !ok { return; }
      if running {
        ok := StopBackend();
        if !ok { return; }
      }
      ok := StartBackendAndUpdater(mode, k);
    }

    method EnsureRemoteControlStarted() returns (ok: bool)
      requires At(EnsureProg())
      modifies this
      ensures Valid() && old(trail) <= trail
      ensures ok ==> pc == Some(Done)
      ensures !ok ==> pc == None || pc == Some(Refuse)
      ensures ok ==> world.settings == Some(true)
    {
      var settings := LoadSettings();
      if settings.None? { return false; }
      var bootstrapped;
      ok, bootstrapped := IsUpdaterRunning();
      if !ok { return; }
      if bootstrapped {
        ok := SetRemoteControlLocked(true, StartProg(Done));
        if !ok { return; }
        ok := StartServer(Done);
        return;
      }
      ok := BootstrapLocked(true, Done);
    }

    /** Whether the managed binary has the version the server reported. */
    method ManagedVersionIsCurrent() returns (ok: bool, same: bool)
      requires Valid() && pc.Some? && pc.value.ReadVersion?
      modifies this
      ensures Valid() && old(trail) <= trail
      ensures pc == if !ok then None else Some(if same then old(pc).value.same else old(pc).value.changed)
      ensures OnlyWeather(old(world), world)
    {
      var v := NextVerdict();
      Record(Perform(v));
      if v == Fails || v == Torn {
        pc := None;
        return false, false;
      }
      ok, same := true, v == Ok;
      pc := Some(if same then pc.value.same else pc.value.changed);
    }

    method RestartAsDecided(mode: RestartMode, refresh: UpdaterRefreshMode, settings: bool, version: Option<bool>)
      returns (ok: bool, outcome: RestartOutcome)
      requires At(UpdaterTail(mode, refresh, settings, version))
      modifies this
      ensures Valid() && old(trail) <= trail
      ensures pc == if ok then Some(if ShouldReexec(refresh, outcome) then Reexec else Done) else None
      ensures outcome == WasNotReady || outcome == WasCurrent || outcome == Restarted
      ensures OnlyWeather(old(world), world.(managed := old(world.managed)))
      ensures outcome != Restarted ==> ok && world == old(world)
      ensures ok && outcome == Restarted ==> world.socket != Silent && InMode(world, settings)
    {
      ok := true;
      match Decide(mode, version)
      case NotReady => outcome := WasNotReady;
      case AlreadyCurrent => outcome := WasCurrent;
      case Restart =>
        outcome := Restarted;
        ok := StopBackend();
        if !ok { return; }
        ok := LaunchAndAwait(settings, if ShouldReexec(refresh, Restarted) then Reexec else Done);
    }

    /** The updater's attempt, once it has the lock; `outcome` is what it reports. */
    method TryRestartIfRunning(mode: RestartMode, refresh: UpdaterRefreshMode) returns (ok: bool, outcome: RestartOutcome)
      requires At(UpdaterProg(mode, refresh))
      modifies this
      ensures Valid() && old(trail) <= trail
      ensures ok ==> pc == Some(if ShouldReexec(refresh, outcome) then Reexec else Done)
      ensures !ok ==> pc == None || pc == Some(Refuse)
      ensures ok ==> outcome != Busy
      ensures OnlyWeather(old(world), world.(managed := old(world.managed)))
      ensures ok && outcome == NotRunning ==> world.managed == None
      ensures ok && (outcome == WasNotReady || outcome == WasCurrent) ==> OnlyWeather(old(world), world)
      ensures ok && outcome == Restarted ==> world.socket != Silent && world.settings.Some? && InMode(world, world.settings.value)
    {
      outcome := NotRunning;
      var settings := LoadSettings();
      if settings.None? { return false, outcome; }
      var running, same;
      ok, running := IsStartingOrRunning();
      if !ok { return; }
      if !running {
        var up := ProbeSocket();
        return !up, outcome;
      }
      var info := ProbeSocket();
      var version: Option<bool> := None;
      if info {
        ok, same := ManagedVersionIsCurrent();
        if !ok { return; }
        version := Some(same);
      }
      ok, outcome := RestartAsDecided(mode, refresh, settings.value, version);
    }

    // The entry points, which take the lock and run one operation to its end.

    /** `op` began on the machine `w` and has reported success. */
    ghost predicate Concluded(w: World, op: Op)
      reads this
    {
      Concludes(w, Program(op), trail, world)
    }

    method RunStart() returns (ok: bool)
      requires At(StartProg(Done)) && trail == []
      modifies this
      ensures Valid() && (ok ==> Concluded(old(world), StartOp))
      ensures ok ==>
                (world.managed == None <==> Lasts(Missing, Alone(old(world), StartProg(Done)), 0, LiftAll(0, trail)))
    {
      ghost var w := world;
      ok := StartServer(Done);
      if ok {
        SoloSucceeds(w, StartOp, trail, world);
        StartConvergence(Alone(w, StartProg(Done)), 0, LiftAll(0, trail), Run(0, Ok));
      }
    }

    method RunRestart() returns (ok: bool)
      requires At(RestartProg(Done)) && trail == []
      modifies this
      ensures Valid() && (ok ==> Concluded(old(world), RestartOp) && world.settings.Some?)
      ensures ok ==>
                Outcome(Alone(old(world), RestartProg(Done)), 0, LiftAll(0, trail), world, world.settings.value)
    {
      ghost var w := world;
      ok := RestartServer(Done);
      if ok {
        SoloSucceeds(w, RestartOp, trail, world);
        RestartConvergence(Alone(w, RestartProg(Done)), 0, LiftAll(0, trail), Run(0, Ok));
      }
    }

    method RunBootstrap(mode: bool) returns (ok: bool)
      requires At(BootstrapProg(mode, Done)) && trail == []
      modifies this
      ensures Valid() && (ok ==> Concluded(old(world), BootstrapOp(mode)))
      ensures ok ==>
                Outcome(Alone(old(world), BootstrapProg(mode, Done)), 0, LiftAll(0, trail), world, mode)
    {
      ghost var w := world;
      ok := BootstrapLocked(mode, Done);
      if ok {
        SoloSucceeds(w, BootstrapOp(mode), trail, world);
        BootstrapConvergence(Alone(w, BootstrapProg(mode, Done)), 0, mode, LiftAll(0, trail), Run(0, Ok));
      }
    }

    method RunSetRemoteControl(mode: bool) returns (ok: bool)
      requires At(SetProg(mode, Done)) && trail == []
      modifies this
      ensures Valid() && (ok ==> Concluded(old(world), SetOp(mode)) && world.settings == Some(mode))
      ensures ok ==>
                (world.managed == Some(!mode) <==>
                   Lasts(WrongMode(mode), Alone(old(world), SetProg(mode, Done)), 0, LiftAll(0, trail)))
    {
      ghost var w := world;
      ok := SetRemoteControlLocked(mode, Done);
      if ok {
        SoloSucceeds(w, SetOp(mode), trail, world);
        RemoteControlConvergence(Alone(w, SetProg(mode, Done)), 0, mode, LiftAll(0, trail), Run(0, Ok));
      }
    }

    method RunEnsureStarted() returns (ok: bool)
      requires At(EnsureProg()) && trail == []
      modifies this
      ensures Valid() && (ok ==> Concluded(old(world), EnsureOp))
      ensures ok ==> Outcome(Alone(old(world), EnsureProg()), 0, LiftAll(0, trail), world, true)
    {
      ghost var w := world;
      ok := EnsureRemoteControlStarted();
      if ok {
        SoloSucceeds(w, EnsureOp, trail, world);
        EnsureStartedConvergence(Alone(w, EnsureProg()), 0, LiftAll(0, trail), Run(0, Ok));
      }
    }
  }
}
