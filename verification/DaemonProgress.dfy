/**
 What an operation comes to when nothing hinders it: the tables of this module say, for every machine
 it may find, where it ends and what it leaves behind. And why an operation may refuse.
 */
module DaemonProgress {
  import opened Basics
  import opened Daemon
  import opened DaemonOutcomes

  // ---------------------------------------------------------------- unhindered runs

  /** What calls may find out even if none fails: whether probes get through, and whether versions agree. */
  datatype Luck = Luck(probed: bool, sameVersion: bool)

  function VerdictFor(l: Luck, p: Prog): Verdict {
    if p.Probe? then (if l.probed then Ok else No)
    else if p.ReadVersion? then (if l.sameVersion then Ok else No)
    else Ok
  }

  /** A managed server has bound its socket if that was free. */
  function Bound(w: World): World {
    if w.managed.Some? && w.socket == Silent then w.(socket := ByManaged) else w
  }

  /** The server binds, then `p` makes its next call. */
  function FairTurn(s: State, p: nat, l: Luck): seq<Action> {
    [ServerBinds, Run(p, if HoldsLock(s, p) then VerdictFor(l, s.procs[p].prog) else Ok)]
  }

  /** `n` such turns. */
  function FairRun(s: State, p: nat, l: Luck, n: nat): seq<Action>
    decreases n
  {
    if n == 0 then [] else FairTurn(s, p, l) + FairRun(Exec(s, FairTurn(s, p, l)), p, l, n - 1)
  }

  /** Where a program ends without hindrance, and the machine it leaves; nothing if a call has to fail. */
  function Finale(p: Prog, w: World, l: Luck): (World, Option<Prog>) {
    var b := Bound(w);
    match p
    case Done => (w, Some(p))
    case Refuse => (w, Some(p))
    case Reexec => (w, Some(p))
    case Load(on, off) => if w.settings.None? then (b, None) else Finale(if w.settings.value then on else off, b, l)
    case Save(value, next) => Finale(next, b.(settings := Some(value)), l)
    case Probe(up, down) => Finale(if l.probed && b.socket != Silent then up else down, b, l)
    case IsRunning(yes, no) => Finale(if b.managed.Some? then yes else no, b, l)
    case EnsureBin(next) => Finale(next, b, l)
    case Stop(next) => Finale(next, Kill(b), l)
    case Launch(mode, next) => Finale(next, if b.managed.Some? then b else b.(managed := Some(mode)), l)
    case WaitReady(next) => if b.socket == Silent then (b, None) else Finale(next, b, l)
    case Rpc(mode, next) =>
      if b.socket == Silent then (b, None)
      else Finale(next, if b.socket == ByManaged && b.managed.Some? then b.(managed := Some(mode)) else b, l)
    case UpdaterRunning(yes, no) => Finale(if b.updater then yes else no, b, l)
    case StopUpdater(next) => Finale(next, b.(updater := false), l)
    case LaunchUpdater(next) => Finale(next, b.(updater := true), l)
    case ReadVersion(same, changed) => Finale(if l.sameVersion then same else changed, b, l)
  }

  predicate Arrives(s: State, p: nat, leaf: Prog, w: World) {
    p in s.procs && s.procs[p] == Holding(leaf) && s.world == w
  }

  lemma {:induction false} ExecConcat(s: State, a: seq<Action>, b: seq<Action>)
    ensures Exec(s, a + b) == Exec(Exec(s, a), b)
    decreases a
  {
    if a == [] {
      assert a + b == b;
    } else {
      assert (a + b)[1..] == a[1..] + b;
      ExecConcat(Step(s, a[0]), a[1..], b);
    }
  }

  predicate IsLeaf(p: Prog) {
    p.Done? || p.Refuse? || p.Reexec?
  }

  /** One turn takes a process one call on. */
  lemma FairTurnActs(s: State, p: nat, l: Luck)
    requires HoldsLock(s, p) && !IsLeaf(s.procs[p].prog)
    ensures var s' := Exec(s, FairTurn(s, p, l));
            var (w, rest) := Act(Bound(s.world), s.procs[p].prog, VerdictFor(l, s.procs[p].prog));
            rest.Some? ==> Arrives(s', p, rest.value, w)
  {
    var turn := FairTurn(s, p, l);
    var s1 := Step(s, ServerBinds);
    assert turn[1..] == [turn[1]];
    assert Exec(s1, [turn[1]]) == Exec(Step(s1, turn[1]), []);
  }

  /** `Finale` follows the program call by call. */
  lemma FinaleUnfolds(p: Prog, w: World, l: Luck)
    requires !IsLeaf(p) && Finale(p, w, l).1.Some?
    ensures var (w', rest) := Act(Bound(w), p, VerdictFor(l, p));
            rest.Some? && rest.value < p && Finale(rest.value, w', l) == Finale(p, w, l)
  {
  }

  /** A process that nothing hinders arrives where `Finale` says. */
  lemma {:induction false} FairRunArrives(s: State, p: nat, l: Luck, prog: Prog) returns (n: nat)
    requires HoldsLock(s, p) && s.procs[p].prog == prog && Finale(prog, s.world, l).1.Some?
    ensures var (w, leaf) := Finale(prog, s.world, l);
            Arrives(Exec(s, FairRun(s, p, l, n)), p, leaf.value, w)
    decreases prog
  {
    if IsLeaf(prog) {
      n := 0;
    } else {
      FinaleUnfolds(prog, s.world, l);
      FairTurnActs(s, p, l);
      var s' := Exec(s, FairTurn(s, p, l));
      var m := FairRunArrives(s', p, l, s'.procs[p].prog);
      n := m + 1;
      ExecConcat(s, FairTurn(s, p, l), FairRun(s', p, l, m));
    }
  }

  // ---------------------------------------------------------------- the tables

  /** Somebody answers a probe although nothing is managed. */
  predicate Occupied(w: World, l: Luck) {
    l.probed && w.managed == None && w.socket != Silent
  }

  /** A server launched in `mode` on what was left after stopping the old one, with its socket bound. */
  function Relaunched(w: World, mode: bool): World {
    World(w.settings, Some(mode), if w.socket == ByForeign then ByForeign else ByManaged, w.updater)
  }

  function Stopped(w: World): World {
    World(w.settings, None, if w.socket == ByForeign then ByForeign else Silent, w.updater)
  }

  lemma ProbeFinale(up: Prog, down: Prog, w: World, l: Luck)
    requires w == Bound(w)
    ensures Finale(Probe(up, down), w, l) == Finale(if l.probed && w.socket != Silent then up else down, w, l)
  {
  }

  lemma RefuseFinale(w: World, l: Luck)
    ensures Finale(Refuse, w, l) == (w, Some(Refuse))
  {
  }

  /** With a server to wait for, waiting ends. */
  lemma WaitFinale(k: Prog, w: World, l: Luck)
    requires w.managed.Some?
    ensures Finale(WaitReady(k), w, l) == Finale(k, Bound(w), l)
  {
  }

  lemma LaunchFinale(mode: bool, k: Prog, w: World, l: Luck)
    requires w.managed.None?
    ensures Finale(LaunchAndWait(mode, k), w, l) == Finale(k, Bound(w.(managed := Some(mode))), l)
  {
    WaitFinale(k, w.(managed := Some(mode)), l);
  }

  lemma ReplaceFinale(mode: bool, k: Prog, w: World, l: Luck)
    requires w.managed.Some?
    ensures Finale(Stop(LaunchAndWait(mode, k)), w, l) == Finale(k, Relaunched(w, mode), l)
  {
    LaunchFinale(mode, k, Kill(Bound(w)), l);
  }

  lemma BoundTwice(w: World)
    ensures Bound(Bound(w)) == Bound(w)
  {
  }

  /** A start succeeds whenever the settings are readable, and launches only if nothing runs and nobody answers. */
  lemma StartFinale(k: Prog, w: World, l: Luck)
    ensures Finale(StartProg(k), w, l) ==
              if w.settings.None? then (Bound(w), None)
              else if w.managed.Some? || Occupied(w, l) then Finale(k, Bound(w), l)
              else Finale(k, Bound(w.(managed := w.settings)), l)
  {
    if w.settings.Some? {
      BoundTwice(w);
      assert Finale(StartProg(k), w, l) == Finale(StartWith(w.settings.value, k), Bound(w), l);
      StartWithFinale(w.settings.value, k, Bound(w), l);
    }
  }

  lemma StartWithFinale(mode: bool, k: Prog, w: World, l: Luck)
    requires w == Bound(w)
    ensures Finale(StartWith(mode, k), w, l) ==
              if w.managed.Some? || Occupied(w, l) then Finale(k, w, l) else Finale(k, Bound(w.(managed := Some(mode))), l)
  {
    var check := IsRunning(WaitReady(k), EnsureBin(LaunchAndWait(mode, k)));
    ProbeFinale(IsRunning(k, k), check, w, l);
    CheckFinale(k, k, w, l);
    CheckFinale(WaitReady(k), EnsureBin(LaunchAndWait(mode, k)), w, l);
    if w.managed.Some? {
      WaitFinale(k, w, l);
    } else {
      BinFinale(LaunchAndWait(mode, k), w, l);
      LaunchFinale(mode, k, w, l);
    }
  }

  lemma CheckFinale(yes: Prog, no: Prog, w: World, l: Luck)
    requires w == Bound(w)
    ensures Finale(IsRunning(yes, no), w, l) == Finale(if w.managed.Some? then yes else no, w, l)
  {
  }

  lemma BinFinale(next: Prog, w: World, l: Luck)
    requires w == Bound(w)
    ensures Finale(EnsureBin(next), w, l) == Finale(next, w, l)
  {
  }

  /** A restart refuses exactly if somebody answers and nothing is managed; otherwise a new server runs in the persisted mode. */
  lemma RestartFinale(w: World, l: Luck)
    ensures Finale(RestartProg(Done), w, l) ==
              if w.settings.None? then (Bound(w), None)
              else if Occupied(w, l) then (w, Some(Refuse))
              else (Relaunched(w, w.settings.value), Some(Done))
  {
    if w.settings.Some? {
      var mode, b := w.settings.value, Bound(w);
      var tail := RestartTail(mode, Done);
      RestartTailFinale(mode, b, l);
      assert Finale(RestartProg(Done), w, l) == Finale(RestartWith(mode, Done), b, l);
      if l.probed && b.socket != Silent {
        assert Finale(RestartWith(mode, Done), b, l) == Finale(IsRunning(tail, Refuse), b, l);
        BoundTwice(w);
      }
    }
  }

  lemma RestartTailFinale(mode: bool, w: World, l: Luck)
    requires w == Bound(w)
    ensures Finale(RestartTail(mode, Done), w, l) == (Relaunched(w, mode), Some(Done))
  {
    var launch := LaunchAndWait(mode, Done);
    assert Finale(RestartTail(mode, Done), w, l) == Finale(IsRunning(Stop(launch), launch), w, l);
    if w.managed.Some? {
      ReplaceFinale(mode, Done, w, l);
    } else {
      LaunchFinale(mode, Done, w, l);
    }
  }

  /** A stop stops what is managed, and refuses exactly if somebody answers and nothing is. */
  lemma StopFinale(w: World, l: Luck)
    ensures Finale(StopProg(Done), w, l) ==
              if w.settings.None? then (Bound(w), None)
              else if w.managed.Some? then (Stopped(w), Some(Done))
              else (w, Some(if Occupied(w, l) then Refuse else Done))
  {
    if w.settings.Some? {
      var body := IsRunning(Stop(Done), Probe(Refuse, Done));
      assert Finale(StopProg(Done), w, l) == Finale(body, Bound(w), l);
      BoundTwice(w);
      if w.managed.Some? {
        assert Finale(body, Bound(w), l) == Finale(Stop(Done), Bound(w), l);
        assert Finale(Stop(Done), Bound(w), l) == Finale(Done, Kill(Bound(w)), l) == (Stopped(w), Some(Done));
      } else {
        assert Finale(body, Bound(w), l) == Finale(Probe(Refuse, Done), w, l);
        ProbeFinale(Refuse, Done, w, l);
        RefuseFinale(w, l);
      }
    }
  }

  /** The machine after the mode was set on a running server. */
  function Switched(w: World, mode: bool): World {
    if w.settings != Some(mode) then Relaunched(w.(settings := Some(mode)), mode)
    else if w.socket == ByForeign then w
    else World(w.settings, Some(mode), ByManaged, w.updater)
  }

  /** Setting the mode saves it and brings a running server to it, and refuses exactly if somebody answers and nothing is managed. */
  lemma SetFinale(mode: bool, k: Prog, w: World, l: Luck)
    ensures Finale(SetProg(mode, k), w, l) ==
              if w.settings.None? then (Bound(w), None)
              else if Occupied(w, l) then (w, Some(Refuse))
              else if w.managed.Some? then Finale(k, Switched(w, mode), l)
              else Finale(k, w.(settings := Some(mode)), l)
  {
    if w.settings.Some? {
      var previous, b := w.settings.value, Bound(w);
      BoundTwice(w);
      assert Finale(SetProg(mode, k), w, l) == Finale(SetWith(mode, previous, k), b, l);
      CheckFinale(SetBody(mode, previous, true, k), Probe(Refuse, SetBody(mode, previous, false, k)), b, l);
      if w.managed.Some? {
        SetRunningFinale(mode, previous, k, b, l);
      } else {
        SetIdleFinale(mode, previous, k, w, l);
      }
    }
  }

  lemma SetIdleFinale(mode: bool, previous: bool, k: Prog, w: World, l: Luck)
    requires w.settings == Some(previous) && w.managed.None?
    ensures Finale(Probe(Refuse, SetBody(mode, previous, false, k)), w, l) ==
              if Occupied(w, l) then (w, Some(Refuse)) else Finale(k, w.(settings := Some(mode)), l)
  {
    var body := SetBody(mode, previous, false, k);
    ProbeFinale(Refuse, body, w, l);
    RefuseFinale(w, l);
    if previous != mode { assert Finale(body, w, l) == Finale(k, w.(settings := Some(mode)), l); }
  }

  lemma SetRunningFinale(mode: bool, previous: bool, k: Prog, w: World, l: Luck)
    requires w.settings == Some(previous) && w.managed.Some? && w == Bound(w)
    ensures Finale(SetBody(mode, previous, true, k), w, l) == Finale(k, Switched(w, mode), l)
  {
    if previous == mode {
      WaitFinale(Rpc(mode, k), w, l);
    } else {
      var saved, replace := w.(settings := Some(mode)), Stop(LaunchAndWait(mode, k));
      assert SetBody(mode, previous, true, k) == Save(mode, EnsureBin(replace));
      assert Finale(SetBody(mode, previous, true, k), w, l) == Finale(EnsureBin(replace), saved, l);
      assert Finale(EnsureBin(replace), saved, l) == Finale(replace, saved, l);
      ReplaceFinale(mode, k, saved, l);
    }
  }

  /** A bootstrap needs no readable settings; it saves its mode, renews server and updater, and refuses like a restart. */
  lemma BootstrapFinale(mode: bool, w: World, l: Luck)
    ensures Finale(BootstrapProg(mode, Done), w, l) ==
              if Occupied(w, l) then (w, Some(Refuse))
              else (Relaunched(w.(settings := Some(mode), updater := true), mode), Some(Done))
  {
    var b, tail := Bound(w), BootstrapTail(mode, Done);
    var check := Probe(IsRunning(tail, Refuse), tail);
    BoundTwice(w);
    BootstrapTailFinale(mode, b, l);
    assert Finale(BootstrapProg(mode, Done), w, l) == Finale(check, b, l);
    ProbeFinale(IsRunning(tail, Refuse), tail, b, l);
    RefuseFinale(b, l);
  }

  lemma BootstrapTailFinale(mode: bool, w: World, l: Luck)
    requires w == Bound(w)
    ensures Finale(BootstrapTail(mode, Done), w, l) == (Relaunched(w.(settings := Some(mode), updater := true), mode), Some(Done))
  {
    var saved, start := w.(settings := Some(mode)), BootstrapStart(mode, Done);
    assert Finale(BootstrapTail(mode, Done), w, l) == Finale(IsRunning(Stop(start), start), saved, l);
    if w.managed.Some? {
      assert Finale(IsRunning(Stop(start), start), saved, l) == Finale(Stop(start), saved, l);
      assert Finale(Stop(start), saved, l) == Finale(start, Kill(saved), l);
      BootstrapStartFinale(mode, Kill(saved), l);
    } else {
      BootstrapStartFinale(mode, saved, l);
    }
  }

  lemma BootstrapStartFinale(mode: bool, w: World, l: Luck)
    requires w.managed.None?
    ensures Finale(BootstrapStart(mode, Done), w, l) == (Relaunched(w.(updater := true), mode), Some(Done))
  {
    var begun, wait := w.(managed := Some(mode)), LaunchUpdater(WaitReady(Done));
    var b := Bound(begun);
    assert Finale(BootstrapStart(mode, Done), w, l) == Finale(UpdaterRunning(StopUpdater(wait), wait), begun, l);
    UpdaterFinale(begun, l);
  }

  lemma UpdaterFinale(w: World, l: Luck)
    requires w.managed.Some?
    ensures var wait := LaunchUpdater(WaitReady(Done));
            Finale(UpdaterRunning(StopUpdater(wait), wait), w, l) == (Bound(w).(updater := true), Some(Done))
  {
    var b, wait := Bound(w), LaunchUpdater(WaitReady(Done));
    BoundTwice(w);
    WaitFinale(Done, b.(updater := true), l);
    assert Finale(wait, b, l) == (b.(updater := true), Some(Done));
    assert Finale(wait, b.(updater := false), l) == (b.(updater := true), Some(Done));
  }

  /**
   Ensuring: on a machine with an updater the mode is set and a server started if none runs, otherwise
   everything is bootstrapped.
   */
  lemma EnsureFinale(w: World, l: Luck)
    ensures Finale(EnsureProg(), w, l) ==
              if w.settings.None? then (Bound(w), None)
              else if Occupied(w, l) then (w, Some(Refuse))
              else if !w.updater then (Relaunched(w.(settings := Some(true), updater := true), true), Some(Done))
              else if w.managed.Some? then (Switched(w, true), Some(Done))
              else (Relaunched(w.(settings := Some(true)), true), Some(Done))
  {
    if w.settings.Some? {
      var again, first, b := SetProg(true, StartProg(Done)), BootstrapProg(true, Done), Bound(w);
      BoundTwice(w);
      assert Finale(EnsureProg(), w, l) == Finale(UpdaterRunning(again, first), b, l);
      if w.updater {
        assert Finale(EnsureProg(), w, l) == Finale(again, b, l);
        SetFinale(true, StartProg(Done), b, l);
        StartFinale(Done, Switched(b, true), l);
        StartFinale(Done, w.(settings := Some(true)), l);
      } else {
        assert Finale(EnsureProg(), w, l) == Finale(first, b, l);
        BootstrapFinale(true, b, l);
      }
    }
  }

  /**
   The updater's attempt, from the identities of its own binary and the managed one: a running server is
   replaced, in the persisted mode, exactly if the binaries differ or the version was read and is
   another; the updater then replaces itself exactly if the binaries differ.
   */
  lemma UpdaterAttempt(running: string, managed: string, w: World, l: Luck)
    ensures var (mode, refresh) := UpdateModes(running, managed);
            Finale(UpdaterProg(mode, refresh), w, l) ==
              if w.settings.None? then (Bound(w), None)
              else if w.managed.None? then (w, Some(if Occupied(w, l) then Refuse else Done))
              else if running != managed then (Relaunched(w, w.settings.value), Some(Reexec))
              else if l.probed && !l.sameVersion then (Relaunched(w, w.settings.value), Some(Done))
              else (Bound(w), Some(Done))
  {
    if w.settings.Some? {
      var (mode, refresh) := UpdateModes(running, managed);
      var settings, b := w.settings.value, Bound(w);
      BoundTwice(w);
      assert Finale(UpdaterProg(mode, refresh), w, l) == Finale(UpdaterWith(mode, refresh, settings), b, l);
      if w.managed.Some? {
        ReplaceFinale(settings, Done, b, l);
        ReplaceFinale(settings, Reexec, b, l);
        UpdaterRunningFinale(mode, refresh, settings, b, l);
      } else {
        assert Finale(UpdaterWith(mode, refresh, settings), w, l) == Finale(Probe(Refuse, Done), w, l);
        ProbeFinale(Refuse, Done, w, l);
        RefuseFinale(w, l);
      }
    }
  }

  lemma UpdaterRunningFinale(mode: RestartMode, refresh: UpdaterRefreshMode, settings: bool, w: World, l: Luck)
    requires w.managed.Some? && w == Bound(w)
    ensures Finale(UpdaterWith(mode, refresh, settings), w, l) ==
            Finale(UpdaterTail(mode, refresh, settings, if l.probed then Some(l.sameVersion) else None), w, l)
  {
    var same := UpdaterTail(mode, refresh, settings, Some(true));
    var changed, silent := UpdaterTail(mode, refresh, settings, Some(false)), UpdaterTail(mode, refresh, settings, None);
    var probe := Probe(ReadVersion(same, changed), silent);
    assert Finale(UpdaterWith(mode, refresh, settings), w, l) == Finale(probe, w, l);
    if l.probed {
      assert Finale(probe, w, l) == Finale(ReadVersion(same, changed), w, l);
    }
  }

  /** The version command changes nothing and succeeds exactly if somebody answers. */
  lemma VersionFinale(w: World, l: Luck)
    ensures Finale(Program(VersionOp), w, l) ==
              if w.settings.None? then (Bound(w), None)
              else (Bound(w), Some(if l.probed && Bound(w).socket != Silent then Done else Refuse))
  {
    if w.settings.Some? {
      var body := Probe(IsRunning(Done, Done), Refuse);
      BoundTwice(w);
      assert Finale(Program(VersionOp), w, l) == Finale(body, Bound(w), l);
      ProbeFinale(IsRunning(Done, Done), Refuse, Bound(w), l);
      RefuseFinale(Bound(w), l);
    }
  }

  /** The unlocked request enables the managed server if that is the one that answers. */
  lemma EnableFinale(w: World, l: Luck)
    ensures Finale(Program(EnableRpcOp), w, l) ==
              if w.managed.None? && w.socket == Silent then (w, None)
              else if w.managed.Some? && w.socket != ByForeign then (World(w.settings, Some(true), ByManaged, w.updater), Some(Done))
              else (w, Some(Done))
  {
  }

  // ---------------------------------------------------------------- operations that nothing hinders

  /** Process `p` makes `n` unhindered turns and then reports success, leaving the machine `w`. */
  predicate SucceedsWith(s: State, p: nat, l: Luck, n: nat, w: World) {
    var s' := Exec(s, FairRun(s, p, l, n) + [Run(p, Ok)]);
    p in s'.procs && s'.procs[p] == Finished(true) && s'.world == w
  }

  lemma ArrivalSucceeds(s: State, p: nat, l: Luck, n: nat, w: World)
    requires Arrives(Exec(s, FairRun(s, p, l, n)), p, Done, w)
    ensures SucceedsWith(s, p, l, n, w)
  {
    ExecSnoc(s, FairRun(s, p, l, n), Run(p, Ok));
  }

  /** What a healthy machine looks like after an operation: the settings, the server and the updater it asks for. */
  function Intended(op: Op, w: World): World
    requires w.settings.Some? || op.BootstrapOp?
  {
    match op
    case StartOp => if w.managed.Some? then Bound(w) else World(w.settings, w.settings, ByManaged, w.updater)
    case RestartOp => World(w.settings, w.settings, ByManaged, w.updater)
    case StopOp => World(w.settings, None, Silent, w.updater)
    case BootstrapOp(mode) => World(Some(mode), Some(mode), ByManaged, true)
    case SetOp(mode) =>
      if w.managed.Some? then World(Some(mode), Some(mode), ByManaged, w.updater) else w.(settings := Some(mode))
    case EnsureOp => World(Some(true), Some(true), ByManaged, true)
    case _ => w
  }

  lemma IntendedFinale(op: Op, w: World, sameVersion: bool)
    requires OwnSocket(w) && (w.settings.Some? || op.BootstrapOp?)
    requires !op.UpdaterOp? && TakesLock(op)
    ensures Finale(Program(op), w, Luck(true, sameVersion)) == (Intended(op, w), Some(Done))
  {
    var l := Luck(true, sameVersion);
    match op
    case StartOp => StartFinale(Done, w, l);
    case RestartOp => RestartFinale(w, l);
    case StopOp => StopFinale(w, l);
    case BootstrapOp(mode) => BootstrapFinale(mode, w, l);
    case SetOp(mode) => SetFinale(mode, Done, w, l);
    case EnsureOp => EnsureFinale(w, l);
  }

  /**
   Operations do what they are for: from any state in which a process has the lock with an operation to
   do, on a machine with readable settings where only the managed server is on its socket, a run in
   which no call fails and the server binds brings the operation to success and the machine to exactly
   what was asked for.
   */
  lemma HealthyOperationSucceeds(s: State, p: nat, op: Op, sameVersion: bool)
    requires p in s.procs && s.procs[p] == Holding(Program(op))
    requires OwnSocket(s.world) && (s.world.settings.Some? || op.BootstrapOp?)
    requires !op.UpdaterOp? && TakesLock(op)
    ensures exists n: nat :: SucceedsWith(s, p, Luck(true, sameVersion), n, Intended(op, s.world))
  {
    var l := Luck(true, sameVersion);
    IntendedFinale(op, s.world, sameVersion);
    var n := FairRunArrives(s, p, l, Program(op));
    ArrivalSucceeds(s, p, l, n, Intended(op, s.world));
  }

  /** An updater whose binary is the managed one restarts a server of another version, and succeeds. */
  lemma ChangedVersionRestarts(s: State, p: nat, binary: string)
    requires var (mode, refresh) := UpdateModes(binary, binary);
             p in s.procs && s.procs[p] == Holding(UpdaterProg(mode, refresh))
    requires OwnSocket(s.world) && s.world.settings.Some? && s.world.managed.Some?
    ensures var w := World(s.world.settings, s.world.settings, ByManaged, s.world.updater);
            exists n: nat :: SucceedsWith(s, p, Luck(true, false), n, w)
  {
    var (mode, refresh) := UpdateModes(binary, binary);
    var l, w := Luck(true, false), World(s.world.settings, s.world.settings, ByManaged, s.world.updater);
    UpdaterAttempt(binary, binary, s.world, l);
    var n := FairRunArrives(s, p, l, UpdaterProg(mode, refresh));
    ArrivalSucceeds(s, p, l, n, w);
  }

  // ---------------------------------------------------------------- why an operation refuses

  /**
   `p` refuses only after a probe was answered since it last stopped a server, and with nothing managed;
   `answered` and `down` are what is known at the root.
   */
  predicate Careful(p: Prog, answered: bool, down: bool) {
    match p
    case Done => true
    case Refuse => answered && down
    case Load(on, off) => Careful(on, answered, down) && Careful(off, answered, down)
    case Save(_, next) => Careful(next, answered, down)
    case Probe(up, dn) => Careful(up, true, down) && Careful(dn, answered, down)
    case IsRunning(yes, no) => Careful(yes, answered, false) && Careful(no, answered, true)
    case EnsureBin(next) => Careful(next, answered, down)
    case Stop(next) => Careful(next, false, true)
    case Launch(_, next) => Careful(next, answered, false)
    case WaitReady(next) => Careful(next, answered, down)
    case Rpc(_, next) => Careful(next, answered, down)
    case UpdaterRunning(yes, no) => Careful(yes, answered, down) && Careful(no, answered, down)
    case StopUpdater(next) => Careful(next, answered, down)
    case LaunchUpdater(next) => Careful(next, answered, down)
    case ReadVersion(same, changed) => Careful(same, answered, down) && Careful(changed, answered, down)
    case Reexec => true
  }

  /** Knowing more only helps. */
  lemma {:induction false} CarefulMono(p: Prog, answered: bool, down: bool, answered': bool, down': bool)
    requires Careful(p, answered, down) && (answered ==> answered') && (down ==> down')
    ensures Careful(p, answered', down')
  {
    match p
    case Load(on, off) => CarefulMono(on, answered, down, answered', down'); CarefulMono(off, answered, down, answered', down');
    case Save(_, next) => CarefulMono(next, answered, down, answered', down');
    case Probe(up, dn) => CarefulMono(up, true, down, true, down'); CarefulMono(dn, answered, down, answered', down');
    case IsRunning(yes, no) => CarefulMono(yes, answered, false, answered', false); CarefulMono(no, answered, true, answered', true);
    case EnsureBin(next) => CarefulMono(next, answered, down, answered', down');
    case Launch(_, next) => CarefulMono(next, answered, false, answered', false);
    case WaitReady(next) => CarefulMono(next, answered, down, answered', down');
    case Rpc(_, next) => CarefulMono(next, answered, down, answered', down');
    case UpdaterRunning(yes, no) => CarefulMono(yes, answered, down, answered', down'); CarefulMono(no, answered, down, answered', down');
    case StopUpdater(next) => CarefulMono(next, answered, down, answered', down');
    case LaunchUpdater(next) => CarefulMono(next, answered, down, answered', down');
    case ReadVersion(same, changed) => CarefulMono(same, answered, down, answered', down'); CarefulMono(changed, answered, down, answered', down');
    case _ =>
  }

  lemma LaunchCareful(mode: bool, k: Prog, answered: bool, down: bool)
    requires Careful(k, false, false)
    ensures Careful(LaunchAndWait(mode, k), answered, down) && Careful(Stop(LaunchAndWait(mode, k)), answered, down)
  {
    CarefulMono(k, false, false, answered, false);
    assert Careful(WaitReady(k), answered, false) && Careful(WaitReady(k), false, false);
    assert Careful(LaunchAndWait(mode, k), false, true);
  }

  lemma StartCareful(settings: bool, k: Prog)
    requires Careful(k, false, false)
    ensures Careful(StartWith(settings, k), false, false)
  {
    CarefulMono(k, false, false, true, false);
    CarefulMono(k, false, false, true, true);
    LaunchCareful(settings, k, false, true);
    assert Careful(IsRunning(k, k), true, false);
    assert Careful(WaitReady(k), false, false) && Careful(EnsureBin(LaunchAndWait(settings, k)), false, true);
  }

  lemma RestartCareful(settings: bool)
    ensures Careful(RestartWith(settings, Done), false, false)
  {
    var launch, tail := LaunchAndWait(settings, Done), RestartTail(settings, Done);
    forall answered: bool, down: bool
      ensures Careful(tail, answered, down)
    {
      LaunchCareful(settings, Done, answered, true);
      LaunchCareful(settings, Done, answered, false);
      assert Careful(IsRunning(Stop(launch), launch), answered, down);
    }
    assert Careful(IsRunning(tail, Refuse), true, false);
  }

  lemma SetCareful(mode: bool, previous: bool, k: Prog)
    requires Careful(k, false, false)
    ensures Careful(SetWith(mode, previous, k), false, false)
  {
    CarefulMono(k, false, false, false, true);
    LaunchCareful(mode, k, false, false);
    assert Careful(Rpc(mode, k), false, false);
    assert Careful(EnsureBin(Stop(LaunchAndWait(mode, k))), false, false);
    assert Careful(SetBody(mode, previous, true, k), false, false) && Careful(SetBody(mode, previous, false, k), false, true);
    assert Careful(Probe(Refuse, SetBody(mode, previous, false, k)), false, true);
  }

  lemma BootstrapTailCareful(mode: bool, answered: bool, down: bool)
    ensures Careful(BootstrapTail(mode, Done), answered, down)
  {
    var start := BootstrapStart(mode, Done);
    BootstrapStartCareful(mode, false, true);
    BootstrapStartCareful(mode, answered, true);
    assert Careful(Stop(start), answered, false);
    assert Careful(IsRunning(Stop(start), start), answered, down);
  }

  lemma BootstrapStartCareful(mode: bool, answered: bool, down: bool)
    ensures Careful(BootstrapStart(mode, Done), answered, down)
  {
    var wait := LaunchUpdater(WaitReady(Done));
    assert Careful(WaitReady(Done), answered, false);
    assert Careful(wait, answered, false) && Careful(StopUpdater(wait), answered, false);
    assert Careful(UpdaterRunning(StopUpdater(wait), wait), answered, false);
  }

  lemma BootstrapCareful(mode: bool)
    ensures Careful(BootstrapProg(mode, Done), false, false)
  {
    var tail := BootstrapTail(mode, Done);
    BootstrapTailCareful(mode, true, false);
    BootstrapTailCareful(mode, false, false);
    assert Careful(IsRunning(tail, Refuse), true, false);
    assert Careful(Probe(IsRunning(tail, Refuse), tail), false, false);
  }

  lemma UpdaterCareful(mode: RestartMode, refresh: UpdaterRefreshMode, settings: bool)
    ensures Careful(UpdaterWith(mode, refresh, settings), false, false)
  {
    var same := UpdaterTail(mode, refresh, settings, Some(true));
    var changed, silent := UpdaterTail(mode, refresh, settings, Some(false)), UpdaterTail(mode, refresh, settings, None);
    var idle := if ShouldReexec(refresh, NotRunning) then Reexec else Done;
    LaunchCareful(settings, if ShouldReexec(refresh, Restarted) then Reexec else Done, false, false);
    assert Careful(same, false, false) && Careful(changed, false, false) && Careful(silent, false, false);
    CarefulMono(same, false, false, true, false);
    CarefulMono(changed, false, false, true, false);
    assert Careful(ReadVersion(same, changed), true, false);
    assert Careful(Probe(ReadVersion(same, changed), silent), false, false);
    assert Careful(Probe(Refuse, idle), false, true);
  }

  lemma StartProgCareful()
    ensures Careful(StartProg(Done), false, false)
  {
    StartCareful(true, Done);
    StartCareful(false, Done);
  }

  lemma SetProgCareful(mode: bool, k: Prog)
    requires Careful(k, false, false)
    ensures Careful(SetProg(mode, k), false, false)
  {
    SetCareful(mode, true, k);
    SetCareful(mode, false, k);
  }

  lemma EnsureCareful()
    ensures Careful(EnsureProg(), false, false)
  {
    var again, first := SetProg(true, StartProg(Done)), BootstrapProg(true, Done);
    StartProgCareful();
    SetProgCareful(true, StartProg(Done));
    BootstrapCareful(true);
    assert Careful(UpdaterRunning(again, first), false, false);
  }

  lemma OperationsCareful(op: Op)
    requires TakesLock(op)
    ensures Careful(Program(op), false, false)
  {
    match op
    case StartOp => StartProgCareful();
    case RestartOp => RestartCareful(true); RestartCareful(false);
    case StopOp =>
      var body := IsRunning(Stop(Done), Probe(Refuse, Done));
      assert Careful(Probe(Refuse, Done), false, true);
      assert Careful(body, false, false);
    case BootstrapOp(mode) => BootstrapCareful(mode);
    case SetOp(mode) => SetProgCareful(mode, Done);
    case EnsureOp => EnsureCareful();
    case UpdaterOp(mode, refresh) => UpdaterCareful(mode, refresh, true); UpdaterCareful(mode, refresh, false);
  }

  /** The probe of `p` gets an answer. */
  predicate ProbeAnswered(s: State, p: nat, a: Action) {
    Calls(s, p, a) && s.procs[p].prog.Probe? && a.verdict == Ok && s.world.socket != Silent
  }

  /** Whether `p` still has an answer in hand: one it got since it last stopped a server. */
  predicate AnsweredAfter(s: State, p: nat, a: Action, answered: bool) {
    !StopsServer(s, p, a) && (answered || ProbeAnswered(s, p, a))
  }

  /** The run gives `p` a reason to refuse: a probe answered with nothing managed, or a death after an answered probe. */
  predicate HasReason(s: State, p: nat, actions: seq<Action>, answered: bool)
    decreases actions
  {
    actions != [] &&
    (|| ProbeFooled(s, p, actions[0])
     || (answered && Dies(s, actions[0]))
     || HasReason(Step(s, actions[0]), p, actions[1..], AnsweredAfter(s, p, actions[0], answered)))
  }

  lemma ActCareful(s: State, p: nat, v: Verdict, answered: bool)
    requires HoldsLock(s, p) && Careful(s.procs[p].prog, answered, s.world.managed.None?)
    ensures var (w, rest) := Act(s.world, s.procs[p].prog, v);
            rest.Some? ==> Careful(rest.value, AnsweredAfter(s, p, Run(p, v), answered), w.managed.None?)
  {
  }

  lemma StepCareful(s: State, p: nat, a: Action, answered: bool)
    requires Inv(s) && HoldsLock(s, p) && Careful(s.procs[p].prog, answered, s.world.managed.None?) && HoldsLock(Step(s, a), p)
    ensures Careful(Step(s, a).procs[p].prog, AnsweredAfter(s, p, a, answered), Step(s, a).world.managed.None?)
  {
    if a.Run? && a.proc == p {
      ActCareful(s, p, a.verdict, answered);
    } else {
      OthersStep(s, p, a);
      CarefulMono(s.procs[p].prog, answered, s.world.managed.None?, answered, Step(s, a).world.managed.None?);
    }
  }

  lemma ReasonsKept(s: State, p: nat, a: Action, answered: bool)
    requires Inv(s) && HoldsLock(s, p) && HoldsLock(Step(s, a), p)
    requires AnsweredAfter(s, p, a, answered) && Step(s, a).world.managed.None?
    ensures (answered && s.world.managed.None?) || ProbeFooled(s, p, a) || (answered && Dies(s, a))
  {
    if !(a.Run? && a.proc == p) { OthersStep(s, p, a); }
  }

  lemma {:induction false} RefusalHasReason(s: State, p: nat, actions: seq<Action>, answered: bool)
    requires Inv(s) && HoldsLock(s, p) && Careful(s.procs[p].prog, answered, s.world.managed.None?)
    requires HoldsLock(Exec(s, actions), p) && Exec(s, actions).procs[p].prog == Refuse
    ensures Exec(s, actions).world.managed == None
    ensures HasReason(s, p, actions, answered) || (answered && s.world.managed.None?)
    decreases actions
  {
    if actions != [] {
      var s', answered' := Step(s, actions[0]), AnsweredAfter(s, p, actions[0], answered);
      StillHolds(s, p, actions);
      StepKeepsInv(s, actions[0]);
      StepCareful(s, p, actions[0], answered);
      RefusalHasReason(s', p, actions[1..], answered');
      if !HasReason(s', p, actions[1..], answered') { ReasonsKept(s, p, actions[0], answered); }
    }
  }

  /**
   Why an operation refuses, on every interleaving: nothing is managed when it does, and before that a
   probe of its own was answered, either with nothing managed already, or by a server that then died.
   */
  lemma RefusesForReason(s: State, p: nat, op: Op, actions: seq<Action>)
    requires Begins(s, p, Program(op)) && TakesLock(op)
    requires HoldsLock(Exec(s, actions), p) && Exec(s, actions).procs[p].prog == Refuse
    ensures Exec(s, actions).world.managed == None && HasReason(s, p, actions, false)
  {
    OperationsCareful(op);
    CarefulMono(Program(op), false, false, false, s.world.managed.None?);
    RefusalHasReason(s, p, actions, false);
  }

  // ---------------------------------------------------------------- operations that must refuse

  /** With nothing managed, `p` can only refuse. */
  predicate Doomed(p: Prog) {
    match p
    case Refuse => true
    case IsRunning(_, no) => Doomed(no)
    case _ => false
  }

  /** Every probe of `p` that is answered with nothing managed dooms it. */
  predicate Stern(p: Prog) {
    match p
    case Load(on, off) => Stern(on) && Stern(off)
    case Save(_, next) => Stern(next)
    case Probe(up, down) => Doomed(up) && Stern(up) && Stern(down)
    case IsRunning(yes, no) => Stern(yes) && Stern(no)
    case EnsureBin(next) => Stern(next)
    case Stop(next) => Stern(next)
    case Launch(_, next) => Stern(next)
    case WaitReady(next) => Stern(next)
    case Rpc(_, next) => Stern(next)
    case UpdaterRunning(yes, no) => Stern(yes) && Stern(no)
    case StopUpdater(next) => Stern(next)
    case LaunchUpdater(next) => Stern(next)
    case ReadVersion(same, changed) => Stern(same) && Stern(changed)
    case _ => true
  }

  predicate EverFooled(s: State, p: nat, actions: seq<Action>)
    decreases actions
  {
    actions != [] && (ProbeFooled(s, p, actions[0]) || EverFooled(Step(s, actions[0]), p, actions[1..]))
  }

  lemma {:induction false} DoomedRun(s: State, p: nat, actions: seq<Action>)
    requires Inv(s) && HoldsLock(s, p) && Doomed(s.procs[p].prog) && s.world.managed.None?
    ensures !Completes(s, p, actions)
    decreases actions
  {
    if actions != [] && HoldsLock(Exec(s, actions), p) {
      StillHolds(s, p, actions);
      StepKeepsInv(s, actions[0]);
      DoomedStep(s, p, actions[0]);
      DoomedRun(Step(s, actions[0]), p, actions[1..]);
    }
  }

  lemma DoomedStep(s: State, p: nat, a: Action)
    requires Inv(s) && HoldsLock(s, p) && Doomed(s.procs[p].prog) && s.world.managed.None? && HoldsLock(Step(s, a), p)
    ensures Doomed(Step(s, a).procs[p].prog) && Step(s, a).world.managed.None?
  {
    if !(a.Run? && a.proc == p) { OthersStep(s, p, a); }
  }

  lemma SternStep(s: State, p: nat, a: Action)
    requires Inv(s) && HoldsLock(s, p) && Stern(s.procs[p].prog) && HoldsLock(Step(s, a), p)
    ensures Stern(Step(s, a).procs[p].prog)
    ensures ProbeFooled(s, p, a) ==> Doomed(Step(s, a).procs[p].prog) && Step(s, a).world.managed.None?
  {
    if !(a.Run? && a.proc == p) { OthersStep(s, p, a); }
  }

  lemma {:induction false} SternRun(s: State, p: nat, actions: seq<Action>)
    requires Inv(s) && HoldsLock(s, p) && Stern(s.procs[p].prog) && EverFooled(s, p, actions)
    ensures !Completes(s, p, actions)
    decreases actions
  {
    if HoldsLock(Exec(s, actions), p) {
      var s', rest := Step(s, actions[0]), actions[1..];
      StillHolds(s, p, actions);
      StepKeepsInv(s, actions[0]);
      SternStep(s, p, actions[0]);
      if ProbeFooled(s, p, actions[0]) {
        DoomedRun(s', p, rest);
      } else {
        SternRun(s', p, rest);
      }
    }
  }

  lemma OperationsStern(op: Op)
    requires op.RestartOp? || op.StopOp? || op.SetOp? || op.BootstrapOp?
    ensures Stern(Program(op))
  {
    match op
    case RestartOp => RestartStern(true); RestartStern(false);
    case StopOp =>
      var body := IsRunning(Stop(Done), Probe(Refuse, Done));
      assert Stern(Probe(Refuse, Done));
      assert Stern(body);
    case SetOp(mode) => SetStern(mode, true); SetStern(mode, false);
    case BootstrapOp(mode) => BootstrapStern(mode);
  }

  lemma RestartStern(settings: bool)
    ensures Stern(RestartWith(settings, Done))
  {
    var launch, tail := LaunchAndWait(settings, Done), RestartTail(settings, Done);
    assert Stern(launch) && Stern(Stop(launch));
    assert Stern(IsRunning(Stop(launch), launch));
    assert Stern(tail);
    assert Stern(IsRunning(tail, Refuse)) && Doomed(IsRunning(tail, Refuse));
  }

  lemma SetStern(mode: bool, previous: bool)
    ensures Stern(SetWith(mode, previous, Done))
  {
    var launch := LaunchAndWait(mode, Done);
    assert Stern(launch) && Stern(EnsureBin(Stop(launch))) && Stern(Rpc(mode, Done));
    assert Stern(SetBody(mode, previous, true, Done)) && Stern(SetBody(mode, previous, false, Done));
    assert Stern(Probe(Refuse, SetBody(mode, previous, false, Done)));
  }

  lemma BootstrapStern(mode: bool)
    ensures Stern(BootstrapProg(mode, Done))
  {
    var start, tail, wait := BootstrapStart(mode, Done), BootstrapTail(mode, Done), LaunchUpdater(WaitReady(Done));
    assert Stern(wait) && Stern(StopUpdater(wait));
    assert Stern(UpdaterRunning(StopUpdater(wait), wait));
    assert Stern(start) && Stern(IsRunning(Stop(start), start));
    assert Stern(tail);
    assert Stern(IsRunning(tail, Refuse)) && Doomed(IsRunning(tail, Refuse));
    assert Stern(Probe(IsRunning(tail, Refuse), tail));
  }

  /** A restart, stop, set or bootstrap that finds somebody answering with nothing managed never reports success. */
  lemma FooledNeverSucceeds(s: State, p: nat, op: Op, actions: seq<Action>, last: Action)
    requires op.RestartOp? || op.StopOp? || op.SetOp? || op.BootstrapOp?
    requires Begins(s, p, Program(op)) && SucceedsBy(Exec(s, actions), p, last)
    ensures !EverFooled(s, p, actions)
  {
    OperationsStern(op);
    ExecKeepsInv(s, actions);
    SuccessAtDone(Exec(s, actions), p, last);
    if EverFooled(s, p, actions) { SternRun(s, p, actions); }
  }
}
