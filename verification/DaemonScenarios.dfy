/**
 Runs that show where the daemon's promises end: each lemma builds a run from an empty machine
 and names the world it leads to.
 */
module DaemonScenarios {
  import opened Basics
  import opened Daemon

  predicate Leads(s: State, actions: seq<Action>, s': State) {
    Exec(s, actions) == s'
  }

  /** The outside world stays out of the run, and no call of the run is failed by its environment. */
  predicate Smooth(actions: seq<Action>) {
    forall a :: a in actions ==> (a.Submit? || a.Acquire? || a.Run?) && (a.Run? ==> a.verdict == Ok)
  }

  lemma Begin(w: World, op: Op)
    requires TakesLock(op)
    ensures Leads(Init(w), [Submit(0, op)] + [Acquire(0)], Alone(w, Program(op)))
  {
    var a := [Submit(0, op)];
    assert Exec(Init(w), []) == Init(w);
    ExecSnoc(Init(w), [], Submit(0, op));
    assert [] + a == a;
    ExecSnoc(Init(w), a, Acquire(0));
    assert Step(Step(Init(w), Submit(0, op)), Acquire(0)).procs == map[0 := Holding(Program(op))];
  }

  lemma Continue(s: State, actions: seq<Action>, w: World, p: Prog, v: Verdict, w': World, q: Prog)
    requires Leads(s, actions, Alone(w, p)) && !p.Done? && Act(w, p, v) == (w', Some(q))
    ensures Leads(s, actions + [Run(0, v)], Alone(w', q))
  {
    ExecSnoc(s, actions, Run(0, v));
    assert Step(Alone(w, p), Run(0, v)).procs == map[0 := Holding(q)];
  }

  lemma ForeignComes(s: State, actions: seq<Action>, w: World, p: Prog)
    requires Leads(s, actions, Alone(w, p)) && w.socket == Silent
    ensures Leads(s, actions + [ForeignBinds], Alone(w.(socket := ByForeign), p))
  {
    ExecSnoc(s, actions, ForeignBinds);
  }

  lemma ManagedComes(s: State, actions: seq<Action>, w: World, p: Prog)
    requires Leads(s, actions, Alone(w, p)) && w.socket == Silent && w.managed.Some?
    ensures Leads(s, actions + [ServerBinds], Alone(w.(socket := ByManaged), p))
  {
    ExecSnoc(s, actions, ServerBinds);
  }

  lemma Succeeds(s: State, actions: seq<Action>, w: World)
    requires Leads(s, actions, Alone(w, Done))
    ensures Leads(s, actions + [Run(0, Ok)], State(w, map[0 := Finished(true)], None))
  {
    ExecSnoc(s, actions, Run(0, Ok));
    assert Step(Alone(w, Done), Run(0, Ok)).procs == map[0 := Finished(true)];
  }

  // ---------------------------------------------------------------- requests that go astray

  lemma SetBegins(w: World, mode: bool)
    requires w.settings == Some(mode) && w.managed.Some?
    ensures Leads(Init(w), [Submit(0, SetOp(mode))] + [Acquire(0)] + [Run(0, Ok)] + [Run(0, Ok)], Alone(w, WaitReady(Rpc(mode, Done))))
  {
    var a := [Submit(0, SetOp(mode))] + [Acquire(0)];
    Begin(w, SetOp(mode));
    Continue(Init(w), a, w, SetProg(mode, Done), Ok, w, SetWith(mode, mode, Done));
    Continue(Init(w), a + [Run(0, Ok)], w, SetWith(mode, mode, Done), Ok, w, WaitReady(Rpc(mode, Done)));
  }

  /** The remote-control request really can go astray: enabling succeeds and the managed server stays disabled. */
  lemma MisdirectedWitness()
    ensures exists w: World, actions: seq<Action>, w': World :: w'.managed == Some(false)
              && Leads(Init(w), [Submit(0, SetOp(true))] + [Acquire(0)] + actions, State(w', map[0 := Finished(true)], None))
  {
    var w := World(Some(true), Some(false), Silent, true);
    var foreign := w.(socket := ByForeign);
    var s, a, go := Init(w), [Submit(0, SetOp(true))] + [Acquire(0)], Run(0, Ok);
    SetBegins(w, true);
    var b := a + [go] + [go] + [ForeignBinds];
    ForeignComes(s, a + [go] + [go], w, WaitReady(Rpc(true, Done)));
    Continue(s, b, foreign, WaitReady(Rpc(true, Done)), Ok, foreign, Rpc(true, Done));
    Continue(s, b + [go], foreign, Rpc(true, Done), Ok, foreign, Done);
    Succeeds(s, b + [go] + [go], foreign);
    assert b + [go] + [go] + [go] == a + [go, go, ForeignBinds, go, go, go];
  }

  // ---------------------------------------------------------------- starts answered by a foreign server

  /** With nothing running and the mode already saved, setting it again changes nothing. */
  lemma SetAgain(s: State, a: seq<Action>, w: World, k: Prog)
    requires w == World(Some(true), None, Silent, true) && Leads(s, a, Alone(w, SetProg(true, k)))
    ensures Leads(s, a + [Run(0, Ok)] + [Run(0, Ok)] + [Run(0, Ok)], Alone(w, k))
  {
    var go, settle := Run(0, Ok), Probe(Refuse, SetBody(true, true, false, k));
    Continue(s, a, w, SetProg(true, k), Ok, w, SetWith(true, true, k));
    Continue(s, a + [go], w, SetWith(true, true, k), Ok, w, settle);
    Continue(s, a + [go] + [go], w, settle, Ok, w, k);
  }

  /** A start that a foreign server answers. */
  lemma StartFooled(s: State, a: seq<Action>, w: World)
    requires w.settings == Some(true) && w.managed == None && w.socket == Silent && Leads(s, a, Alone(w, StartProg(Done)))
    ensures Leads(s, a + [ForeignBinds] + [Run(0, Ok)] + [Run(0, Ok)] + [Run(0, Ok)] + [Run(0, Ok)],
                  State(w.(socket := ByForeign), map[0 := Finished(true)], None))
  {
    var go, foreign := Run(0, Ok), w.(socket := ByForeign);
    ForeignComes(s, a, w, StartProg(Done));
    var b := a + [ForeignBinds];
    Continue(s, b, foreign, StartProg(Done), Ok, foreign, StartWith(true, Done));
    Continue(s, b + [go], foreign, StartWith(true, Done), Ok, foreign, IsRunning(Done, Done));
    Continue(s, b + [go] + [go], foreign, IsRunning(Done, Done), Ok, foreign, Done);
    Succeeds(s, b + [go] + [go] + [go], foreign);
  }

  lemma EnsureBegins(w: World)
    requires w == World(Some(true), None, Silent, true)
    ensures Leads(Init(w), [Submit(0, EnsureOp)] + [Acquire(0)] + [Run(0, Ok)] + [Run(0, Ok)], Alone(w, SetProg(true, StartProg(Done))))
  {
    var a := [Submit(0, EnsureOp)] + [Acquire(0)];
    var body := UpdaterRunning(SetProg(true, StartProg(Done)), BootstrapProg(true, Done));
    Begin(w, EnsureOp);
    Continue(Init(w), a, w, EnsureProg(), Ok, w, body);
    Continue(Init(w), a + [Run(0, Ok)], w, body, Ok, w, SetProg(true, StartProg(Done)));
  }

  /** A foreign server that binds between the two halves of `ensure_remote_control_started` makes it succeed with nothing running. */
  lemma ForeignServerFoolsEnsure()
    ensures exists w: World, actions: seq<Action>, w': World :: w'.managed == None
              && Leads(Init(w), [Submit(0, EnsureOp)] + [Acquire(0)] + actions, State(w', map[0 := Finished(true)], None))
  {
    var w := World(Some(true), None, Silent, true);
    var s, a, go := Init(w), [Submit(0, EnsureOp)] + [Acquire(0)], Run(0, Ok);
    EnsureBegins(w);
    SetAgain(s, a + [go] + [go], w, StartProg(Done));
    StartFooled(s, a + [go] + [go] + [go] + [go] + [go], w);
    assert a + [go] + [go] + [go] + [go] + [go] + [ForeignBinds] + [go] + [go] + [go] + [go]
        == a + [go, go, go, go, go, ForeignBinds, go, go, go, go];
  }

  // ---------------------------------------------------------------- deaths

  lemma ServerGoes(s: State, actions: seq<Action>, w: World, p: Prog)
    requires Leads(s, actions, Alone(w, p))
    ensures Leads(s, actions + [ServerDies], Alone(Kill(w), p))
  {
    ExecSnoc(s, actions, ServerDies);
  }

  /** A restart whose probe the managed server answers refuses all the same if that server dies before it is looked for. */
  lemma DeathMakesRestartRefuse(mode: bool)
    ensures var w := World(Some(mode), Some(mode), ByManaged, true);
            Leads(Init(w), [Submit(0, RestartOp), Acquire(0), Run(0, Ok), Run(0, Ok), ServerDies, Run(0, Ok)], Alone(Kill(w), Refuse))
  {
    var w, a, go := World(Some(mode), Some(mode), ByManaged, true), [Submit(0, RestartOp)] + [Acquire(0)], Run(0, Ok);
    var s, check := Init(w), IsRunning(RestartTail(mode, Done), Refuse);
    Begin(w, RestartOp);
    Continue(s, a, w, RestartProg(Done), Ok, w, RestartWith(mode, Done));
    Continue(s, a + [go], w, RestartWith(mode, Done), Ok, w, check);
    ServerGoes(s, a + [go] + [go], w, check);
    Continue(s, a + [go] + [go] + [ServerDies], Kill(w), check, Ok, Kill(w), Refuse);
    assert a + [go] + [go] + [ServerDies] + [go] == [Submit(0, RestartOp), Acquire(0), go, go, ServerDies, go];
  }

  // ---------------------------------------------------------------- unlocked enable requests

  /** A disable up to its end, when the setting is already off: it only sends the request. */
  lemma DisableAgain(w: World)
    requires w == World(Some(false), Some(true), ByManaged, true)
    ensures exists actions: seq<Action> :: Leads(Init(w), [Submit(0, SetOp(false))] + [Acquire(0)] + actions, Alone(w.(managed := Some(false)), Done))
  {
    var s, a, go, w' := Init(w), [Submit(0, SetOp(false))] + [Acquire(0)], Run(0, Ok), w.(managed := Some(false));
    SetBegins(w, false);
    Continue(s, a + [go] + [go], w, WaitReady(Rpc(false, Done)), Ok, w, Rpc(false, Done));
    Continue(s, a + [go] + [go] + [go], w, Rpc(false, Done), Ok, w', Done);
    assert a + [go] + [go] + [go] + [go] == a + [go, go, go, go];
  }

  /** The server is stopped and a disabled one launched in its place, which binds the socket. */
  lemma Replaced(s: State, a: seq<Action>, w: World)
    requires w.socket == ByManaged && Leads(s, a, Alone(w, Stop(LaunchAndWait(false, Done))))
    ensures Leads(s, a + [Run(0, Ok)] + [Run(0, Ok)] + [ServerBinds] + [Run(0, Ok)], Alone(w.(managed := Some(false)), Done))
  {
    var go, launch, bare := Run(0, Ok), LaunchAndWait(false, Done), Kill(w);
    var begun := bare.(managed := Some(false));
    Continue(s, a, w, Stop(launch), Ok, bare, launch);
    Continue(s, a + [go], bare, launch, Ok, begun, WaitReady(Done));
    ManagedComes(s, a + [go] + [go], begun, WaitReady(Done));
    Continue(s, a + [go] + [go] + [ServerBinds], begun.(socket := ByManaged), WaitReady(Done), Ok, begun.(socket := ByManaged), Done);
  }

  lemma DisableSaves(w: World)
    requires w == World(Some(true), Some(true), ByManaged, true)
    ensures var a, go := [Submit(0, SetOp(false))] + [Acquire(0)], Run(0, Ok);
            Leads(Init(w), a + [go] + [go] + [go] + [go], Alone(w.(settings := Some(false)), Stop(LaunchAndWait(false, Done))))
  {
    var s, a, go := Init(w), [Submit(0, SetOp(false))] + [Acquire(0)], Run(0, Ok);
    var stop, saved := Stop(LaunchAndWait(false, Done)), w.(settings := Some(false));
    Begin(w, SetOp(false));
    Continue(s, a, w, SetProg(false, Done), Ok, w, SetWith(false, true, Done));
    Continue(s, a + [go], w, SetWith(false, true, Done), Ok, w, SetBody(false, true, true, Done));
    Continue(s, a + [go] + [go], w, SetBody(false, true, true, Done), Ok, saved, EnsureBin(stop));
    Continue(s, a + [go] + [go] + [go], saved, EnsureBin(stop), Ok, saved, stop);
  }

  /** A disable up to its end, when the setting is on: it saves, stops and launches anew. */
  lemma DisableAfresh(w: World)
    requires w == World(Some(true), Some(true), ByManaged, true)
    ensures exists actions: seq<Action> ::
              Leads(Init(w), [Submit(0, SetOp(false))] + [Acquire(0)] + actions, Alone(World(Some(false), Some(false), ByManaged, true), Done))
  {
    var a, go := [Submit(0, SetOp(false))] + [Acquire(0)], Run(0, Ok);
    DisableSaves(w);
    Replaced(Init(w), a + [go] + [go] + [go] + [go], w.(settings := Some(false)));
    assert a + [go] + [go] + [go] + [go] + [go] + [go] + [ServerBinds] + [go] == a + [go, go, go, go, go, go, ServerBinds, go];
  }

  /** Process 0 is about to report success while process 1 is at `p`, without the lock. */
  function Beside(w: World, p: Prog): State {
    State(w, map[0 := Holding(Done), 1 := Free(p)], Some(0))
  }

  lemma Joins(w: World)
    ensures Step(Alone(w, Done), Submit(1, EnableRpcOp)) == Beside(w, Rpc(true, Done))
  {
    assert Step(Alone(w, Done), Submit(1, EnableRpcOp)).procs == Beside(w, Rpc(true, Done)).procs;
  }

  lemma Enables(w: World)
    requires w.socket == ByManaged && w.managed.Some?
    ensures Step(Beside(w, Rpc(true, Done)), Run(1, Ok)) == Beside(w.(managed := Some(true)), Done)
  {
    assert Step(Beside(w, Rpc(true, Done)), Run(1, Ok)).procs == Beside(w.(managed := Some(true)), Done).procs;
  }

  /** Another process's enable request lands between the last call of process 0 and its report. */
  lemma EnableIntervenes(s: State, a: seq<Action>, w: World)
    requires Leads(s, a, Alone(w, Done)) && w.socket == ByManaged && w.managed.Some?
    ensures Leads(s, a + [Submit(1, EnableRpcOp)] + [Run(1, Ok)] + [Run(0, Ok)],
                  State(w.(managed := Some(true)), map[0 := Finished(true), 1 := Free(Done)], None))
  {
    ExecSnoc(s, a, Submit(1, EnableRpcOp));
    Joins(w);
    ExecSnoc(s, a + [Submit(1, EnableRpcOp)], Run(1, Ok));
    Enables(w);
    ExecSnoc(s, a + [Submit(1, EnableRpcOp)] + [Run(1, Ok)], Run(0, Ok));
    var s' := Beside(w.(managed := Some(true)), Done);
    assert Step(s', Run(0, Ok)).procs == map[0 := Finished(true), 1 := Free(Done)];
  }

  /**
   An unlocked enable can undo a disable on either of its two ways, the one that only sends the
   request and the one that restarts the server: the disable reports success, the setting says
   off and the server runs enabled.
   */
  lemma UnlockedRequestRaces(previous: bool)
    ensures exists w: World, actions: seq<Action>, w': World ::
              && w.settings == Some(previous) && w'.settings == Some(false) && w'.managed == Some(true)
              && Leads(Init(w), [Submit(0, SetOp(false))] + [Acquire(0)] + actions, State(w', map[0 := Finished(true), 1 := Free(Done)], None))
  {
    var w := World(Some(previous), Some(true), ByManaged, true);
    var a, off := [Submit(0, SetOp(false))] + [Acquire(0)], World(Some(false), Some(false), ByManaged, true);
    if previous { DisableAfresh(w); } else { DisableAgain(w); }
    var b: seq<Action> :| Leads(Init(w), a + b, Alone(off, Done));
    EnableIntervenes(Init(w), a + b, off);
    assert a + b + [Submit(1, EnableRpcOp)] + [Run(1, Ok)] + [Run(0, Ok)]
        == a + (b + [Submit(1, EnableRpcOp), Run(1, Ok), Run(0, Ok)]);
  }

  // ---------------------------------------------------------------- foreign servers

  lemma {:induction false} SmoothIsSteady(s: State, actions: seq<Action>)
    requires Smooth(actions)
    ensures SteadyRun(s, actions)
    decreases actions
  {
    if actions != [] {
      assert actions[0] in actions;
      SmoothIsSteady(Step(s, actions[0]), actions[1..]);
    }
  }

  /** Bootstrapping behind a foreign server, where a managed server is still there, gets as far as the settings. */
  lemma BootstrapSaves(w: World, mode: bool)
    requires w.socket == ByForeign && w.managed.Some?
    ensures exists actions: seq<Action> :: Smooth(actions) && Exec(Init(w), actions).world == w.(settings := Some(mode))
  {
    var s, a, go := Init(w), [Submit(0, BootstrapOp(mode))] + [Acquire(0)], Run(0, Ok);
    var tail := BootstrapTail(mode, Done);
    var check := Probe(IsRunning(tail, Refuse), tail);
    Begin(w, BootstrapOp(mode));
    Continue(s, a, w, BootstrapProg(mode, Done), Ok, w, check);
    Continue(s, a + [go], w, check, Ok, w, IsRunning(tail, Refuse));
    Continue(s, a + [go] + [go], w, IsRunning(tail, Refuse), Ok, w, tail);
    Continue(s, a + [go] + [go] + [go], w, tail, Ok, w.(settings := Some(mode)), tail.next);
    var run := a + [go] + [go] + [go] + [go];
    assert Smooth(run);
  }

  /** A stop behind a foreign server stops the managed server that is still there. */
  lemma StopReachesHiddenServer(w: World)
    requires w.socket == ByForeign && w.managed.Some? && w.settings.Some?
    ensures exists actions: seq<Action> :: Smooth(actions) && Exec(Init(w), actions).world == w.(managed := None)
  {
    var s, a, go := Init(w), [Submit(0, StopOp)] + [Acquire(0)], Run(0, Ok);
    var body := IsRunning(Stop(Done), Probe(Refuse, Done));
    Begin(w, StopOp);
    Continue(s, a, w, StopProg(Done), Ok, w, body);
    Continue(s, a + [go], w, body, Ok, w, Stop(Done));
    Continue(s, a + [go] + [go], w, Stop(Done), Ok, w.(managed := None), Done);
    var run := a + [go] + [go] + [go];
    assert Smooth(run);
  }

  /**
   With a foreign server on the socket that every probe reaches, operations leave the machine
   as it is, on every run, exactly if no managed server is hidden behind it.
   */
  lemma ForeignSafetyExactly(w: World)
    requires w.socket == ByForeign
    ensures w.managed.None? <==> forall actions: seq<Action> :: Smooth(actions) ==> Exec(Init(w), actions).world == w
  {
    if w.managed.None? {
      forall actions: seq<Action> | Smooth(actions)
        ensures Exec(Init(w), actions).world == w
      {
        SmoothIsSteady(Init(w), actions);
        UnmanagedServerSafety(w, actions);
      }
    } else {
      var mode := w.settings != Some(true);
      BootstrapSaves(w, mode);
    }
  }

  lemma LaunchFollows(s: State, a: seq<Action>, w: World, mode: bool)
    requires w.managed.None? && Leads(s, a, Alone(w, EnsureBin(LaunchAndWait(mode, Done))))
    ensures Leads(s, a + [Run(0, Ok)] + [Run(0, Ok)], Alone(w.(managed := Some(mode)), WaitReady(Done)))
  {
    var launch := LaunchAndWait(mode, Done);
    Continue(s, a, w, EnsureBin(launch), Ok, w, launch);
    Continue(s, a + [Run(0, Ok)], w, launch, Ok, w.(managed := Some(mode)), WaitReady(Done));
  }

  /** A probe that misses the foreign server lets a start launch a managed one beside it. */
  lemma MissedProbeLaunches(w: World, mode: bool)
    requires w.socket == ByForeign && w.managed.None? && w.settings == Some(mode)
    ensures exists actions: seq<Action> :: Exec(Init(w), actions).world == w.(managed := Some(mode))
  {
    var s, a, go := Init(w), [Submit(0, StartOp)] + [Acquire(0)], Run(0, Ok);
    var launch := EnsureBin(LaunchAndWait(mode, Done));
    Begin(w, StartOp);
    Continue(s, a, w, StartProg(Done), Ok, w, StartWith(mode, Done));
    Continue(s, a + [go], w, StartWith(mode, Done), No, w, IsRunning(WaitReady(Done), launch));
    var b := a + [go] + [Run(0, No)];
    Continue(s, b, w, IsRunning(WaitReady(Done), launch), Ok, w, launch);
    LaunchFollows(s, b + [go], w, mode);
  }
}
