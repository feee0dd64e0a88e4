/**
 When the remote worker's loop ends, what it has heard by then and what it has put on the wire, read
 off the run of commands and frames, and what the caller's own actions do.
 */
module RemoteRuns {
  import opened Basics
  import opened RemoteWorker

  /** A reason to leave the loop; a `loud` one is reported to the event consumer. */
  datatype Ending = Ending(kind: ErrorKind, loud: bool)

  /** Whether an action makes a running worker leave its loop, and how. */
  function Fatal(s: State, a: Action): Option<Ending> {
    match a
    case Receive(Shutdown, _) => Some(Ending(BrokenPipe, false))
    case Receive(Request(id), false) => if id in s.pending then None else Some(Ending(BrokenPipe, true))
    case CommandsClosed => Some(Ending(BrokenPipe, false))
    case Arrive(Malformed, _) => Some(Ending(InvalidData, true))
    case Arrive(Broken, _) => Some(Ending(InvalidData, true))
    case Arrive(Closing, _) => Some(Ending(ConnectionAborted, true))
    case Arrive(End, _) => Some(Ending(UnexpectedEof, true))
    case Arrive(Inquiry(_, _, false), false) => Some(Ending(BrokenPipe, true))
    case Arrive(Inquiry(_, _, true), _) => if s.consumerOpen then None else Some(Ending(BrokenPipe, false))
    case Arrive(Notice(_, true), _) => if s.consumerOpen then None else Some(Ending(BrokenPipe, false))
    case _ => None
  }

  /** The messages that an action puts on the wire of a running worker. */
  function Posts(s: State, a: Action): seq<Message> {
    match a
    case Receive(Request(id), true) => if id in s.pending then [] else [RequestMessage(|s.ids|, id)]
    case Receive(Notify(payload), true) => [ClientNotification(payload)]
    case Receive(ResolveServerRequest(id, value), true) => [Reply(id, value)]
    case Receive(RejectServerRequest(id, code), true) => [ErrorReply(id, code)]
    case Arrive(Inquiry(id, _, false), true) => [ErrorReply(id, -32601)]
    case _ => []
  }

  /** What a run that begins in the loop amounts to: what is heard and posted, and how the loop ends, if it does. */
  datatype Account = Account(heard: seq<Frame>, posted: seq<Message>, ending: Option<Ending>, listening: bool)

  function Tell(s: State, actions: seq<Action>): Account
    decreases actions
  {
    if actions == [] then Account([], [], None, s.consumerOpen) else
    var a := actions[0];
    var heard := if a.Arrive? then [a.frame] else [];
    if Fatal(s, a).Some? then Account(heard, Posts(s, a), Fatal(s, a), s.consumerOpen) else
    var rest := Tell(Step(s, a), actions[1..]);
    rest.(heard := heard + rest.heard, posted := Posts(s, a) + rest.posted)
  }

  /** The books of a worker agree with an account of its run. */
  predicate Matches(s: State, s': State, t: Account) {
    && s'.frames == s.frames + t.heard
    && s'.written == s.written + t.posted
    && match t.ending
       case None => s'.phase == Running && s'.disconnect == []
       case Some(e) =>
         s'.phase == Draining(e.kind) && s'.disconnect == if e.loud && t.listening then [Disconnected(e.kind)] else []
  }

  lemma RunningStep(s: State, a: Action)
    requires s.phase.Running? && s.disconnect == []
    ensures var s' := Step(s, a);
            var e := Fatal(s, a);
            && s'.frames == s.frames + (if a.Arrive? then [a.frame] else [])
            && s'.written == s.written + Posts(s, a)
            && s'.phase == (if e.None? then Running else Draining(e.value.kind))
            && s'.disconnect == if e.Some? && e.value.loud && s.consumerOpen then [Disconnected(e.value.kind)] else []
  {
    assert s.written + [] == s.written && s.frames + [] == s.frames;
  }

  /** After the loop nothing is heard or posted any more. */
  lemma {:induction false} DrainingRun(s: State, actions: seq<Action>)
    requires s.phase.Draining?
    ensures var s' := Exec(s, actions);
            s'.phase == s.phase && s'.frames == s.frames && s'.written == s.written && s'.disconnect == s.disconnect
    decreases actions
  {
    if actions != [] {
      DrainingRun(Step(s, actions[0]), actions[1..]);
    }
  }

  /**
   The worker's loop, on every run: it goes on until the first fatal action and that decides the error
   of the drain, and whether the caller sees a `Disconnected`. Up to there every frame is heard and
   every command and unknown request is answered on the wire as it should be, in order; from there on
   nothing is.
   */
  lemma {:induction false} LoopEndsAtFirstFatal(s: State, actions: seq<Action>)
    requires s.phase.Running? && s.disconnect == []
    ensures Matches(s, Exec(s, actions), Tell(s, actions))
    decreases actions
  {
    if actions != [] {
      RunningStep(s, actions[0]);
      var s1, rest := Step(s, actions[0]), actions[1..];
      if Fatal(s, actions[0]).Some? {
        DrainingRun(s1, rest);
      } else {
        LoopEndsAtFirstFatal(s1, rest);
        assert s.frames + (if actions[0].Arrive? then [actions[0].frame] else []) + Tell(s1, rest).heard
            == s.frames + Tell(s, actions).heard;
        assert s.written + Posts(s, actions[0]) + Tell(s1, rest).posted == s.written + Tell(s, actions).posted;
      }
    }
  }

  /** A caller that listens reads the first event it has not read, if there is one. */
  lemma ReadsInTurn(s: State)
    requires s.consumerOpen
    ensures var s', unread := Step(s, NextEvent), s.buffered + s.channel;
            && s'.yielded == s.yielded + unread[..if unread == [] then 0 else 1]
            && s'.buffered + s'.channel == unread[if unread == [] then 0 else 1..]
  {
  }

  /** A caller that lets go of the events reads nothing more. */
  lemma GoneCallerReadsNothing(s: State, actions: seq<Action>)
    ensures Exec(Step(s, DropConsumer), actions).yielded == s.yielded
  {
    GoneStays(Step(s, DropConsumer), actions);
  }

  lemma {:induction false} GoneStays(s: State, actions: seq<Action>)
    requires !s.consumerOpen
    ensures Exec(s, actions).yielded == s.yielded && !Exec(s, actions).consumerOpen
    decreases actions
  {
    if actions != [] {
      GoneStays(Step(s, actions[0]), actions[1..]);
    }
  }
}
