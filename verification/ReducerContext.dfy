/**
 What the reducer knows about threads and connections in every reachable state, and what
 follows for the lookup that decides whether an event can be sent.
 */
module ReducerContext {
  import opened Basics
  import opened Reducer

  /** Every known thread has metadata, and its connection, if any, has been initialized. */
  predicate ContextInv(s: State) {
    forall t :: t in s.threads ==>
                  && s.threads[t].metadata.Some?
                  && (s.threads[t].connectionId.Some? ==> s.threads[t].connectionId.value in s.connections)
  }

  predicate HasConnection(s: State, t: string) {
    t in s.threads && s.threads[t].connectionId.Some?
  }

  /** Nothing known about threads and connections is forgotten. */
  ghost predicate Remembers(s: State, s': State) {
    && (forall c :: c in s.connections ==> c in s'.connections)
    && (forall t :: t in s.threads ==> t in s'.threads)
    && (forall t :: HasConnection(s, t) ==> HasConnection(s', t))
  }

  lemma ThreadFactKeepsContext(s: State, f: ThreadFact)
    requires ContextInv(s)
    ensures ContextInv(IngestThreadFact(s, f).state) && Remembers(s, IngestThreadFact(s, f).state)
  {
  }

  lemma IngestKeepsContext(s: State, f: Fact)
    requires ContextInv(s)
    ensures ContextInv(Ingest(s, f).state) && Remembers(s, Ingest(s, f).state)
  {
    match f
    case Initialize(_, _) =>
    case OnThread(tf) => ThreadFactKeepsContext(s, tf);
    case OnRequest(connectionId, requestId, rf) => RequestFactEffect(s, connectionId, requestId, rf);
    case OnTurn(turnId, tf) => TurnFactEffect(s, turnId, tf);
    case OnItem(itf) => ItemFactEffect(s, itf);
    case OnReview(rf) => ReviewFactEffect(s, rf);
  }

  lemma {:induction false} RunKeepsContext(s: State, facts: seq<Fact>)
    requires ContextInv(s)
    ensures ContextInv(Run(s, facts).state) && Remembers(s, Run(s, facts).state)
    decreases facts
  {
    if facts != [] {
      RunKeepsContext(s, facts[..|facts| - 1]);
      IngestKeepsContext(Run(s, facts[..|facts| - 1]).state, facts[|facts| - 1]);
    }
  }

  /**
   Context invariant: in every reachable state the context lookup fails exactly when the thread is
   unknown or has no connection; the other two failures of the code cannot occur.
   */
  lemma ContextMissingExactly(facts: seq<Fact>, t: string)
    ensures var s := Run(EMPTY, facts).state;
            && ContextInv(s)
            && (ThreadContext(s, t).None? <==> !HasConnection(s, t))
  {
    RunKeepsContext(EMPTY, facts);
  }

  /** A thread that has its context once has it for the rest of the run. */
  lemma ContextIsKept(before: seq<Fact>, after: seq<Fact>, s: State, t: string)
    requires s == Run(EMPTY, before).state && ThreadContext(s, t).Some?
    ensures ThreadContext(Run(s, after).state, t).Some?
  {
    RunKeepsContext(EMPTY, before);
    RunKeepsContext(s, after);
    assert HasConnection(s, t);
    assert HasConnection(Run(s, after).state, t);
  }

  /** The fact that starts a subagent thread under a parent. */
  function Spawn(threadId: string, parent: string, m: Metadata): Fact {
    OnThread(SubAgentThreadStarted(threadId, Some(parent), m))
  }

  /** Subagent starts in which each thread is started with the one before it as parent. */
  function Chain(root: string, threads: seq<string>, m: Metadata): seq<Fact> {
    if threads == [] then [] else
    Chain(root, threads[..|threads| - 1], m) + [Spawn(threads[|threads| - 1], Last(root, threads[..|threads| - 1]), m)]
  }

  function Last(root: string, threads: seq<string>): string {
    if threads == [] then root else threads[|threads| - 1]
  }

  lemma SpawnInherits(s: State, threadId: string, parent: string, m: Metadata)
    requires ContextInv(s) && HasConnection(s, parent)
    ensures HasConnection(Ingest(s, Spawn(threadId, parent, m)).state, threadId)
  {
  }

  predicate AllConnected(s: State, threads: seq<string>) {
    forall i :: 0 <= i < |threads| ==> HasConnection(s, threads[i])
  }

  lemma ChainStep(s: State, known: seq<string>, parent: string, last: string, m: Metadata)
    requires ContextInv(s) && AllConnected(s, known) && parent in known
    ensures AllConnected(Ingest(s, Spawn(last, parent, m)).state, known + [last])
  {
    SpawnInherits(s, last, parent, m);
    IngestKeepsContext(s, Spawn(last, parent, m));
  }

  lemma ChainSnoc(root: string, front: seq<string>, last: string, m: Metadata)
    ensures Chain(root, front + [last], m) == Chain(root, front, m) + [Spawn(last, Last(root, front), m)]
  {
    assert (front + [last])[..|front|] == front;
  }

  /** A connection is inherited through a chain of subagents of any length. */
  lemma {:induction false} ChainInherits(s: State, root: string, threads: seq<string>, m: Metadata)
    requires ContextInv(s) && HasConnection(s, root)
    ensures AllConnected(Run(s, Chain(root, threads, m)).state, [root] + threads)
    decreases threads
  {
    if threads != [] {
      var front, last := threads[..|threads| - 1], threads[|threads| - 1];
      assert threads == front + [last] && [root] + threads == [root] + front + [last];
      ChainInherits(s, root, front, m);
      RunKeepsContext(s, Chain(root, front, m));
      assert Last(root, front) == ([root] + front)[|front|];
      ChainStep(Run(s, Chain(root, front, m)).state, [root] + front, Last(root, front), last, m);
      ChainSnoc(root, front, last, m);
      RunSnoc(s, Chain(root, front, m), Spawn(last, Last(root, front), m));
    }
  }
}
