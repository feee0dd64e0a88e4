/**
 What the reducer knows of connections, threads and requests, and the events it makes of them, said in
 terms of the facts that arrived.
 */
module ReducerThreads {
  import opened Basics
  import opened Reducer
  import opened ReducerContext
  import opened ReducerTurns

  // ---------------------------------------------------------------- connections

  predicate InitAt(facts: seq<Fact>, i: nat, c: nat) {
    i < |facts| && facts[i].Initialize? && facts[i].connectionId == c
  }

  ghost predicate Initialized(facts: seq<Fact>, c: nat) {
    exists i: nat :: InitAt(facts, i, c)
  }

  lemma StepConnections(s: State, f: Fact)
    ensures Ingest(s, f).state.connections == if f.Initialize? then s.connections[f.connectionId := f.connection] else s.connections
  {
    match f
    case Initialize(_, _) =>
    case OnThread(tf) => ThreadFactEffect(s, tf);
    case OnRequest(c, r, rf) => RequestFactEffect(s, c, r, rf);
    case OnTurn(id, tf) => TurnFactEffect(s, id, tf);
    case OnItem(itf) => ItemFactEffect(s, itf);
    case OnReview(rf) => ReviewFactEffect(s, rf);
  }

  lemma InitInFront(facts: seq<Fact>, n: nat, i: nat, c: nat)
    requires n <= |facts| && i < n
    ensures InitAt(facts[..n], i, c) <==> InitAt(facts, i, c)
  {
    assert facts[..n][i] == facts[i];
  }

  lemma InitializedSnoc(front: seq<Fact>, f: Fact, c: nat)
    ensures Initialized(front + [f], c) <==> Initialized(front, c) || (f.Initialize? && f.connectionId == c)
  {
    var all := front + [f];
    assert all[..|front|] == front && all[|front|] == f;
    if Initialized(front, c) {
      var i: nat :| InitAt(front, i, c);
      InitInFront(all, |front|, i, c);
    }
    if f.Initialize? && f.connectionId == c { assert InitAt(all, |front|, c); }
    if Initialized(all, c) {
      var i: nat :| InitAt(all, i, c);
      if i < |front| { InitInFront(all, |front|, i, c); }
    }
  }

  /** A connection is known exactly if it was initialized. */
  lemma {:induction false} ConnectionsExactly(facts: seq<Fact>, c: nat)
    ensures c in Run(EMPTY, facts).state.connections <==> Initialized(facts, c)
    decreases facts
  {
    if facts != [] {
      var front, f := facts[..|facts| - 1], facts[|facts| - 1];
      assert facts == front + [f];
      ConnectionsExactly(front, c);
      StepConnections(Run(EMPTY, front).state, f);
      InitializedSnoc(front, f, c);
    }
  }

  /** It is what its last initialization said. */
  lemma {:induction false} LastInitDecides(facts: seq<Fact>, i: nat, c: nat)
    requires InitAt(facts, i, c) && forall j: nat :: j > i ==> !InitAt(facts, j, c)
    ensures var s := Run(EMPTY, facts).state; c in s.connections && s.connections[c] == facts[i].connection
    decreases facts
  {
    var n := |facts| - 1;
    var front := facts[..n];
    StepConnections(Run(EMPTY, front).state, facts[n]);
    if i < n {
      assert !InitAt(facts, n, c);
      InitInFront(facts, n, i, c);
      forall j: nat | j > i
        ensures !InitAt(front, j, c)
      {
        if j < n { InitInFront(facts, n, j, c); }
      }
      LastInitDecides(front, i, c);
    }
  }

  // ---------------------------------------------------------------- threads

  function ThreadOf(s: State, t: string): Option<Thread> {
    if t in s.threads then Some(s.threads[t]) else None
  }

  /** Fact `i` announces the thread on a connection that is known by then. */
  ghost predicate ReadyAt(facts: seq<Fact>, i: nat, t: string) {
    && i < |facts| && facts[i].OnThread? && facts[i].threadFact.ThreadReady?
    && facts[i].threadFact.threadId == t && Initialized(facts[..i], facts[i].threadFact.connectionId)
  }

  /** Fact `i` starts the thread as a subagent. */
  predicate SpawnAt(facts: seq<Fact>, i: nat, t: string) {
    i < |facts| && facts[i].OnThread? && facts[i].threadFact.SubAgentThreadStarted? && facts[i].threadFact.threadId == t
  }

  /** Fact `i` starts it under a parent that has a connection by then. */
  ghost predicate LinkAt(facts: seq<Fact>, i: nat, t: string) {
    && SpawnAt(facts, i, t) && facts[i].threadFact.parentThreadId.Some?
    && HasConnection(Run(EMPTY, facts[..i]).state, facts[i].threadFact.parentThreadId.value)
  }

  lemma StepThread(s: State, f: Fact, t: string)
    ensures !(f.OnThread? && !f.threadFact.Report? && f.threadFact.threadId == t) ==> ThreadOf(Ingest(s, f).state, t) == ThreadOf(s, t)
  {
    match f
    case Initialize(_, _) =>
    case OnThread(tf) =>
    case OnRequest(c, r, rf) => RequestFactEffect(s, c, r, rf);
    case OnTurn(id, tf) => TurnFactEffect(s, id, tf);
    case OnItem(itf) => ItemFactEffect(s, itf);
    case OnReview(rf) => ReviewFactEffect(s, rf);
  }

  lemma StepReady(facts: seq<Fact>, t: string)
    requires facts != [] && var f := facts[|facts| - 1]; f.OnThread? && f.threadFact.ThreadReady? && f.threadFact.threadId == t
    ensures var n := |facts| - 1;
            var s, f := Run(EMPTY, facts[..n]).state, facts[n].threadFact;
            ThreadOf(Ingest(s, facts[n]).state, t) ==
              if ReadyAt(facts, n, t) then Some(Thread(Some(f.connectionId), Some(f.metadata))) else ThreadOf(s, t)
  {
    var n := |facts| - 1;
    ConnectionsExactly(facts[..n], facts[n].threadFact.connectionId);
  }

  lemma StepSpawn(facts: seq<Fact>, t: string)
    requires facts != [] && SpawnAt(facts, |facts| - 1, t)
    ensures var n := |facts| - 1;
            var s, f := Run(EMPTY, facts[..n]).state, facts[n].threadFact;
            var before, after := ThreadOf(s, t), ThreadOf(Ingest(s, facts[n]).state, t);
            && after.Some?
            && after.value.metadata == (if before.Some? && before.value.metadata.Some? then before.value.metadata else Some(f.metadata))
            && after.value.connectionId ==
                 if before.Some? && before.value.connectionId.Some? then before.value.connectionId
                 else if LinkAt(facts, n, t) then s.threads[f.parentThreadId.value].connectionId
                 else None
  {
  }

  lemma ReadyInFront(facts: seq<Fact>, n: nat, i: nat, t: string)
    requires n <= |facts| && i < n
    ensures ReadyAt(facts[..n], i, t) <==> ReadyAt(facts, i, t)
    ensures SpawnAt(facts[..n], i, t) <==> SpawnAt(facts, i, t)
    ensures LinkAt(facts[..n], i, t) <==> LinkAt(facts, i, t)
  {
    assert facts[..n][i] == facts[i] && facts[..n][..i] == facts[..i];
  }

  ghost predicate EverReady(facts: seq<Fact>, t: string) {
    exists i: nat :: ReadyAt(facts, i, t)
  }

  lemma NeverReadyFront(facts: seq<Fact>, n: nat, t: string)
    requires n <= |facts| && !EverReady(facts, t)
    ensures !EverReady(facts[..n], t)
  {
    if EverReady(facts[..n], t) {
      var i: nat :| ReadyAt(facts[..n], i, t);
      ReadyInFront(facts, n, i, t);
    }
  }

  /** A thread that was announced on a known connection is what the last such announcement said; subagent starts do not change it. */
  lemma {:induction false} LastReadyDecides(facts: seq<Fact>, i: nat, t: string)
    requires ReadyAt(facts, i, t) && forall j: nat :: j > i ==> !ReadyAt(facts, j, t)
    ensures ThreadOf(Run(EMPTY, facts).state, t) == Some(Thread(Some(facts[i].threadFact.connectionId), Some(facts[i].threadFact.metadata)))
    decreases facts
  {
    var n := |facts| - 1;
    var front, f := facts[..n], facts[n];
    if i == n {
      StepReady(facts, t);
    } else {
      assert !ReadyAt(facts, n, t);
      ReadyInFront(facts, n, i, t);
      forall j: nat | j > i
        ensures !ReadyAt(front, j, t)
      {
        if j < n { ReadyInFront(facts, n, j, t); }
      }
      LastReadyDecides(front, i, t);
      NotReadyStep(facts, t);
    }
  }

  /** A last fact that does not announce the thread leaves what is known of it. */
  lemma NotReadyStep(facts: seq<Fact>, t: string)
    requires facts != [] && !ReadyAt(facts, |facts| - 1, t)
    ensures var n := |facts| - 1;
            var before, after := ThreadOf(Run(EMPTY, facts[..n]).state, t), ThreadOf(Run(EMPTY, facts).state, t);
            && (before.Some? && before.value.metadata.Some? ==> after.Some? && after.value.metadata == before.value.metadata)
            && (before.Some? && before.value.connectionId.Some? ==> after.Some? && after.value.connectionId == before.value.connectionId)
            && (!SpawnAt(facts, n, t) ==> after == before)
  {
    var n := |facts| - 1;
    var s, f := Run(EMPTY, facts[..n]).state, facts[n];
    if SpawnAt(facts, n, t) {
      StepSpawn(facts, t);
    } else if f.OnThread? && f.threadFact.ThreadReady? && f.threadFact.threadId == t {
      StepReady(facts, t);
    } else {
      StepThread(s, f, t);
    }
  }

  ghost predicate FirstSpawnAt(facts: seq<Fact>, i: nat, t: string) {
    SpawnAt(facts, i, t) && forall j: nat :: j < i ==> !SpawnAt(facts, j, t)
  }

  ghost predicate FirstLinkAt(facts: seq<Fact>, i: nat, t: string) {
    LinkAt(facts, i, t) && forall j: nat :: j < i ==> !LinkAt(facts, j, t)
  }

  lemma FirstInFront(facts: seq<Fact>, n: nat, i: nat, t: string)
    requires n <= |facts| && i < n
    ensures FirstSpawnAt(facts, i, t) ==> FirstSpawnAt(facts[..n], i, t)
    ensures FirstLinkAt(facts, i, t) ==> FirstLinkAt(facts[..n], i, t)
  {
    ReadyInFront(facts, n, i, t);
    forall j: nat | j < i
      ensures SpawnAt(facts[..n], j, t) <==> SpawnAt(facts, j, t)
      ensures LinkAt(facts[..n], j, t) <==> LinkAt(facts, j, t)
    {
      ReadyInFront(facts, n, j, t);
    }
  }

  /** A thread that was neither announced nor started is unknown. */
  lemma {:induction false} NeverStartedIsUnknown(facts: seq<Fact>, t: string)
    requires !EverReady(facts, t) && forall i: nat :: !SpawnAt(facts, i, t)
    ensures ThreadOf(Run(EMPTY, facts).state, t) == None
    decreases facts
  {
    if facts != [] {
      var n := |facts| - 1;
      NeverReadyFront(facts, n, t);
      forall i: nat
        ensures !SpawnAt(facts[..n], i, t)
      {
        if i < n { ReadyInFront(facts, n, i, t); }
      }
      NeverStartedIsUnknown(facts[..n], t);
      assert !ReadyAt(facts, n, t) && !SpawnAt(facts, n, t);
      NotReadyStep(facts, t);
    }
  }

  /** A thread that was never announced has the metadata of its first subagent start. */
  lemma {:induction false} FirstSpawnDecides(facts: seq<Fact>, i: nat, t: string)
    requires !EverReady(facts, t) && FirstSpawnAt(facts, i, t)
    ensures var now := ThreadOf(Run(EMPTY, facts).state, t);
            now.Some? && now.value.metadata == Some(facts[i].threadFact.metadata)
    decreases facts
  {
    var n := |facts| - 1;
    NeverReadyFront(facts, n, t);
    if i == n {
      forall j: nat
        ensures !SpawnAt(facts[..n], j, t)
      {
        if j < n { ReadyInFront(facts, n, j, t); }
      }
      NeverStartedIsUnknown(facts[..n], t);
      StepSpawn(facts, t);
    } else {
      FirstInFront(facts, n, i, t);
      FirstSpawnDecides(facts[..n], i, t);
      assert !ReadyAt(facts, n, t);
      NotReadyStep(facts, t);
    }
  }

  /** A thread that was neither announced nor started under a connected parent has no connection. */
  lemma {:induction false} NeverLinkedHasNone(facts: seq<Fact>, t: string)
    requires !EverReady(facts, t) && forall i: nat :: !LinkAt(facts, i, t)
    ensures !HasConnection(Run(EMPTY, facts).state, t)
    decreases facts
  {
    if facts != [] {
      var n := |facts| - 1;
      NeverReadyFront(facts, n, t);
      forall i: nat
        ensures !LinkAt(facts[..n], i, t)
      {
        if i < n { ReadyInFront(facts, n, i, t); }
      }
      NeverLinkedHasNone(facts[..n], t);
      assert !ReadyAt(facts, n, t) && !LinkAt(facts, n, t);
      if SpawnAt(facts, n, t) { StepSpawn(facts, t); } else { NotReadyStep(facts, t); }
    }
  }

  /**
   A thread that was never announced has the connection that its parent had when it was first started under
   a parent with one.
   */
  lemma {:induction false} FirstLinkDecides(facts: seq<Fact>, i: nat, t: string)
    requires !EverReady(facts, t) && FirstLinkAt(facts, i, t)
    ensures var now, then_ := Run(EMPTY, facts).state, Run(EMPTY, facts[..i]).state;
            HasConnection(now, t) && now.threads[t].connectionId == then_.threads[facts[i].threadFact.parentThreadId.value].connectionId
    decreases facts
  {
    var n := |facts| - 1;
    NeverReadyFront(facts, n, t);
    if i == n {
      forall j: nat
        ensures !LinkAt(facts[..n], j, t)
      {
        if j < n { ReadyInFront(facts, n, j, t); }
      }
      NeverLinkedHasNone(facts[..n], t);
      StepSpawn(facts, t);
    } else {
      FirstInFront(facts, n, i, t);
      FirstLinkDecides(facts[..n], i, t);
      assert facts[..n][..i] == facts[..i] && facts[..n][i] == facts[i];
      assert !ReadyAt(facts, n, t);
      NotReadyStep(facts, t);
    }
  }

  // ---------------------------------------------------------------- thread events

  /** Thread facts emit exactly what they should: announcements on known connections, subagent starts, reports of connected threads. */
  lemma ThreadEventsExactly(before: seq<Fact>, f: ThreadFact)
    ensures var s := Run(EMPTY, before).state;
            var events := Ingest(s, OnThread(f)).events;
            && (f.ThreadReady? ==> events == if Initialized(before, f.connectionId) then [ThreadInitialized(f.threadId)] else [])
            && (f.SubAgentThreadStarted? ==> events == [ThreadInitialized(f.threadId)])
            && (f.Report? ==> events == if HasConnection(s, f.threadId) then [ReportEvent(f.threadId, f.report)] else [])
  {
    RunKeepsContext(EMPTY, before);
    if f.ThreadReady? { ConnectionsExactly(before, f.connectionId); }
  }

  // ---------------------------------------------------------------- steers

  predicate AboutRequest(f: Fact, id: (nat, RequestId)) {
    f.OnRequest? && (f.connectionId, f.requestId) == id
  }

  predicate Asks(f: RequestFact) {
    f.TurnStartRequested? || f.TurnSteerRequested?
  }

  /** Fact `i` is the last about the request `id`, and makes it. */
  predicate AskedAt(facts: seq<Fact>, i: nat, id: (nat, RequestId)) {
    && i < |facts| && AboutRequest(facts[i], id) && Asks(facts[i].requestFact)
    && forall j :: i < j < |facts| ==> !AboutRequest(facts[j], id)
  }

  /** What is kept of a request is what was asked. */
  predicate Keeps(r: Request, f: RequestFact) {
    && (r.TurnStart? <==> f.TurnStartRequested?) && (r.TurnSteer? <==> f.TurnSteerRequested?)
    && (Asks(f) ==> r.threadId == f.threadId && r.images == f.images)
    && (f.TurnSteerRequested? ==> r.expectedTurnId == f.expectedTurnId)
  }

  lemma AskedInFront(facts: seq<Fact>, i: nat, id: (nat, RequestId))
    requires facts != [] && i < |facts| - 1
    ensures var n := |facts| - 1; AskedAt(facts, i, id) <==> AskedAt(facts[..n], i, id) && !AboutRequest(facts[n], id)
  {
    var n := |facts| - 1;
    assert forall j :: 0 <= j < n ==> facts[..n][j] == facts[j];
  }

  /** The requests kept are exactly those whose last fact made them, with what it asked. */
  lemma {:induction false} RequestsAreAsked(facts: seq<Fact>, id: (nat, RequestId))
    ensures var now := RequestsAfter(map[], facts);
            && (forall i: nat :: AskedAt(facts, i, id) ==> id in now && Keeps(now[id], facts[i].requestFact))
            && (id in now ==> exists i: nat :: AskedAt(facts, i, id))
    decreases facts
  {
    if facts != [] {
      var n := |facts| - 1;
      var front, f := facts[..n], facts[n];
      RequestsAreAsked(front, id);
      forall i: nat | i < n
        ensures AskedAt(facts, i, id) <==> AskedAt(front, i, id) && !AboutRequest(f, id)
      {
        AskedInFront(facts, i, id);
      }
      if AboutRequest(f, id) && Asks(f.requestFact) { assert AskedAt(facts, n, id); }
    }
  }

  /** Open requests, on every run: a request is open exactly if the last fact about it made it, and is kept as it was asked. */
  lemma OpenRequestsExactly(facts: seq<Fact>, id: (nat, RequestId))
    ensures var now := Run(EMPTY, facts).state.requests;
            && (forall i: nat :: AskedAt(facts, i, id) ==> id in now && Keeps(now[id], facts[i].requestFact))
            && (id in now ==> exists i: nat :: AskedAt(facts, i, id))
  {
    RequestsTracked(EMPTY, facts);
    RequestsAreAsked(facts, id);
  }

  /** Fact `i` is the last about the request `id`, and asks for a steer. */
  predicate SteerAskedAt(facts: seq<Fact>, i: nat, id: (nat, RequestId)) {
    AskedAt(facts, i, id) && facts[i].requestFact.TurnSteerRequested?
  }

  /** The event that a steer request fact deserves once it is answered. */
  function SteerEventOf(f: RequestFact, accepted: Option<string>): Event
    requires f.TurnSteerRequested?
  {
    TurnSteerEvent(f.threadId, f.expectedTurnId, accepted, f.images)
  }

  /**
   Steer events, on every run: the answer or failure of a request emits one exactly if the last fact about that
   request asked for a steer, its connection was initialized and its thread is known, with what that fact asked.
   */
  lemma SteerEventsExactly(before: seq<Fact>, c: nat, r: RequestId, f: RequestFact)
    requires f.TurnSteerAnswered? || f.RequestFailed?
    ensures var s := Run(EMPTY, before).state;
            var events := Ingest(s, OnRequest(c, r, f)).events;
            && (forall i: nat :: SteerAskedAt(before, i, (c, r)) ==>
                  events == if Initialized(before, c) && before[i].requestFact.threadId in s.threads
                            then [SteerEventOf(before[i].requestFact, if f.RequestFailed? then None else Some(f.turnId))] else [])
            && ((forall i: nat :: !SteerAskedAt(before, i, (c, r))) ==> events == [])
  {
    RunKeepsContext(EMPTY, before);
    OpenRequestsExactly(before, (c, r));
    ConnectionsExactly(before, c);
    var s := Run(EMPTY, before).state;
    if (c, r) in s.requests && s.requests[(c, r)].TurnSteer? {
      var i: nat :| AskedAt(before, i, (c, r));
      assert Keeps(s.requests[(c, r)], before[i].requestFact) && SteerAskedAt(before, i, (c, r));
    }
  }
}
