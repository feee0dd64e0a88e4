/**
 The remote app-server client: the initialize handshake, the worker that multiplexes
 requests and responses over one connection, and the event stream read by the caller.

 The network is an arbitrary sequence of frames, and every write either succeeds or
 fails as the environment likes. `Step` is one turn of the worker's `select!` loop, one
 answer of its final drain, or one action of the caller.
 */
module RemoteWorker {
  import opened Basics

  datatype ErrorKind = InvalidInput | BrokenPipe | InvalidData | ConnectionAborted | UnexpectedEof | TimedOut | Other

  const METHOD_NOT_FOUND := -32601

  /** An incoming frame; `known` tells whether its method decodes to a known server message. */
  datatype Frame =
    | Response(id: RequestId, value: string)
    | Failure(id: RequestId, error: string)
    | Notice(payload: string, known: bool)
    | Inquiry(id: RequestId, payload: string, known: bool)
    | Malformed
    | Closing
    | Noise
    | Broken
    | End

  datatype Event =
    | ServerNotification(payload: string)
    | ServerRequest(id: RequestId, payload: string)
    | Disconnected(kind: ErrorKind)

  /** What the client writes. A request is identified by its waiter, the command's serial number. */
  datatype Message =
    | InitializeRequest
    | InitializedNotification
    | RequestMessage(waiter: nat, id: RequestId)
    | ClientNotification(payload: string)
    | Reply(id: RequestId, value: string)
    | ErrorReply(id: RequestId, code: int)

  /** How a request's waiter is answered. */
  datatype Answer =
    | Result(value: string)
    | ServerError(error: string)
    | DuplicateId
    | WriteFailed
    | Drained(kind: ErrorKind)

  datatype Command =
    | Request(id: RequestId)
    | Notify(payload: string)
    | ResolveServerRequest(id: RequestId, value: string)
    | RejectServerRequest(id: RequestId, code: int)
    | Shutdown

  datatype Phase = Running | Draining(kind: ErrorKind)

  datatype Action =
    | Receive(command: Command, writeOk: bool)
    | CommandsClosed
    | Arrive(frame: Frame, writeOk: bool)
    | Drain(id: RequestId)
    | NextEvent
    | DropConsumer

  /**
   `ids[w]` is the request id of waiter `w`; `answers`, `written`, `frames` and `yielded`
   are history. `disconnect` is the kind of the `Disconnected` event sent, if any.
   */
  datatype State = State(
    phase: Phase,
    pending: map<RequestId, nat>,
    ids: seq<RequestId>,
    answers: seq<(nat, Answer)>,
    written: seq<Message>,
    consumerOpen: bool,
    buffered: seq<Event>,
    channel: seq<Event>,
    yielded: seq<Event>,
    frames: seq<Frame>,
    disconnect: seq<Event>)

  function Init(handshakeEvents: seq<Event>): State {
    State(Running, map[], [], [], [], true, handshakeEvents, [], [], [], [])
  }

  // ---------------------------------------------------------------- the worker

  /** The event a frame stands for, if it decodes to one. */
  function EventOf(f: Frame): seq<Event> {
    match f
    case Notice(payload, true) => [ServerNotification(payload)]
    case Inquiry(id, payload, true) => [ServerRequest(id, payload)]
    case _ => []
  }

  function Deliver(s: State, es: seq<Event>): State {
    s.(channel := s.channel + es)
  }

  function ReplyTo(s: State, w: nat, a: Answer): State {
    s.(answers := s.answers + [(w, a)])
  }

  function Write(s: State, m: Message, ok: bool): State {
    if ok then s.(written := s.written + [m]) else s
  }

  /** Leaving the loop quietly: the drain reports a closed worker channel. */
  function Exit(s: State): State {
    s.(phase := Draining(BrokenPipe))
  }

  /** Leaving the loop with an error that the event consumer, if any, gets to see. */
  function ExitWith(s: State, kind: ErrorKind): State {
    var s' := s.(phase := Draining(kind));
    if s.consumerOpen then Deliver(s', [Disconnected(kind)]).(disconnect := [Disconnected(kind)]) else s'
  }

  function ReceiveRequest(s: State, id: RequestId, writeOk: bool): State {
    var w := |s.ids|;
    var s1 := s.(ids := s.ids + [id]);
    if id in s.pending then ReplyTo(s1, w, DuplicateId)
    else if writeOk then Write(s1.(pending := s.pending[id := w]), RequestMessage(w, id), true)
    else ExitWith(ReplyTo(s1, w, WriteFailed), BrokenPipe)
  }

  function ReceiveCommand(s: State, c: Command, writeOk: bool): State {
    match c
    case Request(id) => ReceiveRequest(s, id, writeOk)
    case Notify(payload) => Write(s, ClientNotification(payload), writeOk)
    case ResolveServerRequest(id, value) => Write(s, Reply(id, value), writeOk)
    case RejectServerRequest(id, code) => Write(s, ErrorReply(id, code), writeOk)
    case Shutdown => Exit(s)
  }

  function Settle(s: State, id: RequestId, a: Answer): State {
    if id in s.pending then ReplyTo(s, s.pending[id], a).(pending := s.pending - {id}) else s
  }

  function HandleFrame(s: State, f: Frame, writeOk: bool): State {
    match f
    case Response(id, value) => Settle(s, id, Result(value))
    case Failure(id, error) => Settle(s, id, ServerError(error))
    case Notice(_, known) =>
      if !known then s else if s.consumerOpen then Deliver(s, EventOf(f)) else Exit(s)
    case Inquiry(id, _, known) =>
      if known then
        if s.consumerOpen then Deliver(s, EventOf(f)) else Exit(s)
      else if writeOk then Write(s, ErrorReply(id, METHOD_NOT_FOUND), true)
      else ExitWith(s, BrokenPipe)
    case Malformed => ExitWith(s, InvalidData)
    case Closing => ExitWith(s, ConnectionAborted)
    case Noise => s
    case Broken => ExitWith(s, InvalidData)
    case End => ExitWith(s, UnexpectedEof)
  }

  /** The caller reads buffered handshake events first, then the channel. */
  function ReadEvent(s: State): State {
    if !s.consumerOpen then s
    else if s.buffered != [] then s.(buffered := s.buffered[1..], yielded := s.yielded + [s.buffered[0]])
    else if s.channel != [] then s.(channel := s.channel[1..], yielded := s.yielded + [s.channel[0]])
    else s
  }

  function Step(s: State, a: Action): State {
    match a
    case Receive(c, writeOk) => if s.phase.Running? then ReceiveCommand(s, c, writeOk) else s
    case CommandsClosed => if s.phase.Running? then Exit(s) else s
    case Arrive(f, writeOk) =>
      if s.phase.Running? then HandleFrame(s.(frames := s.frames + [f]), f, writeOk) else s
    case Drain(id) => if s.phase.Draining? then Settle(s, id, Drained(s.phase.kind)) else s
    case NextEvent => ReadEvent(s)
    case DropConsumer => s.(consumerOpen := false)
  }

  function Exec(s: State, actions: seq<Action>): State
    decreases actions
  {
    if actions == [] then s else Exec(Step(s, actions[0]), actions[1..])
  }

  /** The worker task is over: it left its loop and its drain is complete. */
  predicate Ended(s: State) {
    s.phase.Draining? && s.pending == map[]
  }

  lemma {:induction false} ExecSnoc(s: State, actions: seq<Action>, a: Action)
    ensures Exec(s, actions + [a]) == Step(Exec(s, actions), a)
    decreases actions
  {
    if actions == [] {
      assert actions + [a] == [a];
    } else {
      assert (actions + [a])[1..] == actions[1..] + [a];
      ExecSnoc(Step(s, actions[0]), actions[1..], a);
    }
  }

  // ---------------------------------------------------------------- exactly-once completion

  function AnswersTo(answers: seq<(nat, Answer)>, w: nat): seq<Answer> {
    if answers == [] then [] else
    var last := answers[|answers| - 1];
    AnswersTo(answers[..|answers| - 1], w) + if last.0 == w then [last.1] else []
  }

  lemma AnswersSnoc(answers: seq<(nat, Answer)>, x: (nat, Answer), w: nat)
    ensures AnswersTo(answers + [x], w) == AnswersTo(answers, w) + if x.0 == w then [x.1] else []
  {
    assert (answers + [x])[..|answers|] == answers;
  }

  ghost predicate Waiting(s: State, w: nat) {
    w < |s.ids| && s.ids[w] in s.pending && s.pending[s.ids[w]] == w
  }

  /** Pending waiters are filed under their own id, so no two ids share one. */
  ghost predicate PendingInv(s: State) {
    forall id :: id in s.pending ==> s.pending[id] < |s.ids| && s.ids[s.pending[id]] == id
  }

  /** Every received request is either waiting and unanswered, or answered exactly once. */
  ghost predicate AnswerInv(s: State) {
    && (forall w: nat :: w < |s.ids| ==> |AnswersTo(s.answers, w)| == if Waiting(s, w) then 0 else 1)
    && (forall w: nat :: w >= |s.ids| ==> AnswersTo(s.answers, w) == [])
  }

  /** A request rejected as a duplicate is never written. */
  ghost predicate WriteInv(s: State) {
    && (forall w: nat, id :: RequestMessage(w, id) in s.written ==> w < |s.ids| && id == s.ids[w])
    && (forall w: nat :: w < |s.ids| && RequestMessage(w, s.ids[w]) in s.written ==>
          DuplicateId !in AnswersTo(s.answers, w) && WriteFailed !in AnswersTo(s.answers, w))
  }

  lemma SettleKeepsPending(s: State, id: RequestId, a: Answer)
    requires PendingInv(s) && AnswerInv(s)
    ensures PendingInv(Settle(s, id, a)) && AnswerInv(Settle(s, id, a))
  {
    if id in s.pending {
      var s' := Settle(s, id, a);
      forall w: nat
        ensures AnswersTo(s'.answers, w) == AnswersTo(s.answers, w) + if w == s.pending[id] then [a] else []
      {
        AnswersSnoc(s.answers, (s.pending[id], a), w);
      }
    }
  }

  lemma SettleKeepsWrites(s: State, id: RequestId, a: Answer)
    requires WriteInv(s) && a != DuplicateId && a != WriteFailed
    ensures WriteInv(Settle(s, id, a))
  {
    if id in s.pending {
      var s' := Settle(s, id, a);
      forall w: nat
        ensures AnswersTo(s'.answers, w) == AnswersTo(s.answers, w) + if w == s.pending[id] then [a] else []
      {
        AnswersSnoc(s.answers, (s.pending[id], a), w);
      }
    }
  }

  /** A request answered on the spot is never pending. */
  lemma AnswerAtOnce(s: State, id: RequestId, a: Answer)
    requires PendingInv(s) && AnswerInv(s)
    ensures var s' := ReplyTo(s.(ids := s.ids + [id]), |s.ids|, a);
            PendingInv(s') && AnswerInv(s')
  {
    var s', n := ReplyTo(s.(ids := s.ids + [id]), |s.ids|, a), |s.ids|;
    forall w: nat
      ensures AnswersTo(s'.answers, w) == AnswersTo(s.answers, w) + if w == n then [a] else []
    {
      AnswersSnoc(s.answers, (n, a), w);
    }
    forall w: nat | w < n
      ensures Waiting(s', w) == Waiting(s, w)
    {
    }
    assert !Waiting(s', n);
  }

  /** A request that is filed waits unanswered. */
  lemma FileRequest(s: State, id: RequestId)
    requires PendingInv(s) && AnswerInv(s) && id !in s.pending
    ensures var s' := s.(ids := s.ids + [id], pending := s.pending[id := |s.ids|]);
            PendingInv(s') && AnswerInv(s')
  {
    var s', n := s.(ids := s.ids + [id], pending := s.pending[id := |s.ids|]), |s.ids|;
    forall w: nat | w < n
      ensures Waiting(s', w) == Waiting(s, w)
    {
    }
    assert Waiting(s', n);
  }

  lemma RequestKeepsAnswers(s: State, id: RequestId, writeOk: bool)
    requires PendingInv(s) && AnswerInv(s)
    ensures PendingInv(ReceiveRequest(s, id, writeOk)) && AnswerInv(ReceiveRequest(s, id, writeOk))
  {
    if id in s.pending {
      AnswerAtOnce(s, id, DuplicateId);
    } else if writeOk {
      FileRequest(s, id);
      SameBooks(s.(ids := s.ids + [id], pending := s.pending[id := |s.ids|]), ReceiveRequest(s, id, writeOk));
    } else {
      AnswerAtOnce(s, id, WriteFailed);
      SameBooks(ReplyTo(s.(ids := s.ids + [id]), |s.ids|, WriteFailed), ReceiveRequest(s, id, writeOk));
    }
  }

  lemma SameBooks(s: State, s': State)
    requires PendingInv(s) && AnswerInv(s) && s'.pending == s.pending && s'.ids == s.ids && s'.answers == s.answers
    ensures PendingInv(s') && AnswerInv(s')
  {
    forall w: nat
      ensures Waiting(s', w) == Waiting(s, w)
    {
    }
  }

  lemma RequestKeepsWrites(s: State, id: RequestId, writeOk: bool)
    requires AnswerInv(s) && WriteInv(s)
    ensures WriteInv(ReceiveRequest(s, id, writeOk))
  {
    var s' := ReceiveRequest(s, id, writeOk);
    var n := |s.ids|;
    forall w: nat | w < n
      ensures AnswersTo(s'.answers, w) == AnswersTo(s.answers, w)
    {
      AnswersSnoc(s.answers, (n, DuplicateId), w);
      AnswersSnoc(s.answers, (n, WriteFailed), w);
    }
  }

  ghost predicate RequestInv(s: State) {
    PendingInv(s) && AnswerInv(s) && WriteInv(s)
  }

  /** Actions that touch no request leave the request bookkeeping alone. */
  lemma UntouchedRequests(s: State, s': State)
    requires RequestInv(s)
    requires s'.pending == s.pending && s'.ids == s.ids && s'.answers == s.answers
    requires forall w: nat, id :: RequestMessage(w, id) in s'.written <==> RequestMessage(w, id) in s.written
    ensures RequestInv(s')
  {
  }

  /** The request bookkeeping of two states is the same. */
  ghost predicate SameRequests(s: State, s': State) {
    && s'.pending == s.pending && s'.ids == s.ids && s'.answers == s.answers
    && forall w: nat, id :: RequestMessage(w, id) in s'.written <==> RequestMessage(w, id) in s.written
  }

  lemma FrameSparesRequests(s: State, f: Frame, writeOk: bool)
    requires !f.Response? && !f.Failure?
    ensures SameRequests(s, HandleFrame(s, f, writeOk))
  {
  }

  lemma CommandSparesRequests(s: State, c: Command, writeOk: bool)
    requires !c.Request?
    ensures SameRequests(s, ReceiveCommand(s, c, writeOk))
  {
  }

  /** Only requests, replies and the drain touch the requests. */
  lemma OtherStepsSpareRequests(s: State, a: Action)
    requires !(a.Receive? && a.command.Request?) && !a.Drain?
    requires !(a.Arrive? && (a.frame.Response? || a.frame.Failure?))
    ensures SameRequests(s, Step(s, a))
  {
    match a
    case Receive(c, writeOk) => CommandSparesRequests(s, c, writeOk);
    case Arrive(f, writeOk) => FrameSparesRequests(s.(frames := s.frames + [f]), f, writeOk);
    case _ =>
  }

  lemma SettleKeepsRequests(s: State, id: RequestId, a: Answer)
    requires RequestInv(s) && a != DuplicateId && a != WriteFailed
    ensures RequestInv(Settle(s, id, a))
  {
    SettleKeepsPending(s, id, a);
    SettleKeepsWrites(s, id, a);
  }

  lemma ReplyKeepsRequests(s: State, f: Frame, id: RequestId, a: Answer)
    requires RequestInv(s) && a != DuplicateId && a != WriteFailed
    ensures RequestInv(Settle(s.(frames := s.frames + [f]), id, a))
  {
    UntouchedRequests(s, s.(frames := s.frames + [f]));
    SettleKeepsRequests(s.(frames := s.frames + [f]), id, a);
  }

  lemma StepKeepsRequests(s: State, a: Action)
    requires RequestInv(s)
    ensures RequestInv(Step(s, a))
  {
    match a
    case Receive(Request(id), writeOk) =>
      if s.phase.Running? {
        RequestKeepsAnswers(s, id, writeOk);
        RequestKeepsWrites(s, id, writeOk);
      }
    case Arrive(Response(id, value), _) => ReplyKeepsRequests(s, a.frame, id, Result(value));
    case Arrive(Failure(id, error), _) => ReplyKeepsRequests(s, a.frame, id, ServerError(error));
    case Drain(id) => if s.phase.Draining? { SettleKeepsRequests(s, id, Drained(s.phase.kind)); }
    case _ =>
      OtherStepsSpareRequests(s, a);
      UntouchedRequests(s, Step(s, a));
  }

  lemma {:induction false} ExecKeepsRequests(s: State, actions: seq<Action>)
    requires RequestInv(s)
    ensures RequestInv(Exec(s, actions))
    decreases actions
  {
    if actions != [] {
      StepKeepsRequests(s, actions[0]);
      ExecKeepsRequests(Step(s, actions[0]), actions[1..]);
    }
  }

  /**
   Exactly-once completion: on every run, a received request has at most one answer, it has
   none exactly while its waiter is pending, and once the worker has ended it has exactly
   one. A request that was written is never answered as a duplicate or as a failed write.
   */
  lemma ExactlyOnce(handshakeEvents: seq<Event>, actions: seq<Action>, w: nat)
    ensures var s := Exec(Init(handshakeEvents), actions);
            && (w < |s.ids| ==> |AnswersTo(s.answers, w)| == if Waiting(s, w) then 0 else 1)
            && (w < |s.ids| && Ended(s) ==> |AnswersTo(s.answers, w)| == 1)
            && (w < |s.ids| && RequestMessage(w, s.ids[w]) in s.written ==>
                  DuplicateId !in AnswersTo(s.answers, w) && WriteFailed !in AnswersTo(s.answers, w))
            && (w >= |s.ids| ==> AnswersTo(s.answers, w) == [])
  {
    ExecKeepsRequests(Init(handshakeEvents), actions);
  }

  /** The answer that action `a` holds for whoever waits under `id`, if any. */
  function Settlement(phase: Phase, id: RequestId, a: Action): seq<Answer> {
    match a
    case Arrive(Response(i, value), _) => if phase.Running? && i == id then [Result(value)] else []
    case Arrive(Failure(i, error), _) => if phase.Running? && i == id then [ServerError(error)] else []
    case Drain(i) => if phase.Draining? && i == id then [Drained(phase.kind)] else []
    case _ => []
  }

  /**
   What a pending waiter gets, read off the rest of the run alone: the first response or
   error that bears its id while the loop runs, else the drain's error for that id.
   */
  function Outcome(s: State, id: RequestId, actions: seq<Action>): seq<Answer>
    decreases actions
  {
    if actions == [] then []
    else if Settlement(s.phase, id, actions[0]) != [] then Settlement(s.phase, id, actions[0])
    else Outcome(Step(s, actions[0]), id, actions[1..])
  }

  /** Settling an id answers the waiter filed under it and nobody else. */
  lemma SettleAnswers(s: State, id: RequestId, a: Answer, w: nat)
    requires PendingInv(s) && w < |s.ids|
    ensures var s' := Settle(s, id, a);
            if Waiting(s, w) && s.ids[w] == id then AnswersTo(s'.answers, w) == AnswersTo(s.answers, w) + [a] && !Waiting(s', w)
            else AnswersTo(s'.answers, w) == AnswersTo(s.answers, w) && Waiting(s', w) == Waiting(s, w)
  {
    if id in s.pending {
      AnswersSnoc(s.answers, (s.pending[id], a), w);
    }
  }

  /** Receiving a request, duplicate or not, touches no earlier waiter. */
  lemma RequestSparesOthers(s: State, id: RequestId, writeOk: bool, w: nat)
    requires PendingInv(s) && w < |s.ids|
    ensures var s' := ReceiveRequest(s, id, writeOk);
            AnswersTo(s'.answers, w) == AnswersTo(s.answers, w) && Waiting(s', w) == Waiting(s, w) && s'.ids[w] == s.ids[w]
  {
    var n := |s.ids|;
    if id in s.pending {
      AnswersSnoc(s.answers, (n, DuplicateId), w);
    } else if !writeOk {
      AnswersSnoc(s.answers, (n, WriteFailed), w);
    }
  }

  lemma ReplyAnswers(s: State, f: Frame, writeOk: bool, w: nat)
    requires PendingInv(s) && w < |s.ids| && (f.Response? || f.Failure?)
    ensures var s' := Step(s, Arrive(f, writeOk));
            var o := if Waiting(s, w) then Settlement(s.phase, s.ids[w], Arrive(f, writeOk)) else [];
            && w < |s'.ids| && s'.ids[w] == s.ids[w]
            && AnswersTo(s'.answers, w) == AnswersTo(s.answers, w) + o
            && Waiting(s', w) == (Waiting(s, w) && o == [])
  {
    SettleAnswers(s.(frames := s.frames + [f]), f.id, if f.Response? then Result(f.value) else ServerError(f.error), w);
  }

  /** One step answers a waiter exactly as `Settlement` foretells. */
  lemma StepAnswers(s: State, a: Action, w: nat)
    requires PendingInv(s) && w < |s.ids|
    ensures var s' := Step(s, a);
            var o := if Waiting(s, w) then Settlement(s.phase, s.ids[w], a) else [];
            && w < |s'.ids| && s'.ids[w] == s.ids[w]
            && AnswersTo(s'.answers, w) == AnswersTo(s.answers, w) + o
            && Waiting(s', w) == (Waiting(s, w) && o == [])
  {
    match a
    case Receive(Request(id), writeOk) => if s.phase.Running? { RequestSparesOthers(s, id, writeOk, w); }
    case Arrive(Response(_, _), writeOk) => ReplyAnswers(s, a.frame, writeOk, w);
    case Arrive(Failure(_, _), writeOk) => ReplyAnswers(s, a.frame, writeOk, w);
    case Drain(id) => if s.phase.Draining? { SettleAnswers(s, id, Drained(s.phase.kind), w); }
    case _ => OtherStepsSpareRequests(s, a);
  }

  lemma {:induction false} AnsweredStaysAnswered(s: State, w: nat, actions: seq<Action>)
    requires RequestInv(s) && w < |s.ids| && !Waiting(s, w)
    ensures AnswersTo(Exec(s, actions).answers, w) == AnswersTo(s.answers, w)
    decreases actions
  {
    if actions != [] {
      StepKeepsRequests(s, actions[0]);
      StepAnswers(s, actions[0], w);
      AnsweredStaysAnswered(Step(s, actions[0]), w, actions[1..]);
    }
  }

  /**
   The waiter of a pending request gets the first matching reply, or the drain. No other
   action disturbs it, in particular no request that reuses its id.
   */
  lemma {:induction false} WaiterGetsOutcome(s: State, w: nat, actions: seq<Action>)
    requires RequestInv(s) && Waiting(s, w)
    ensures AnswersTo(Exec(s, actions).answers, w) == Outcome(s, s.ids[w], actions)
    decreases actions
  {
    if actions != [] {
      var id, s' := s.ids[w], Step(s, actions[0]);
      StepKeepsRequests(s, actions[0]);
      StepAnswers(s, actions[0], w);
      assert AnswersTo(s.answers, w) == [];
      if Settlement(s.phase, id, actions[0]) == [] {
        WaiterGetsOutcome(s', w, actions[1..]);
      } else {
        AnsweredStaysAnswered(s', w, actions[1..]);
      }
    }
  }

  lemma InitRequests(handshakeEvents: seq<Event>)
    ensures RequestInv(Init(handshakeEvents))
  {
  }

  /**
   The whole story of a request received in the middle of a run: a duplicate is answered at
   once, a failed write likewise, and otherwise the rest of the run decides through `Outcome`.
   */
  lemma RequestFate(handshakeEvents: seq<Event>, before: seq<Action>, id: RequestId, writeOk: bool, after: seq<Action>)
    requires Exec(Init(handshakeEvents), before).phase.Running?
    ensures var s := Exec(Init(handshakeEvents), before);
            var s' := ReceiveRequest(s, id, writeOk);
            AnswersTo(Exec(s', after).answers, |s.ids|) ==
              if id in s.pending then [DuplicateId] else if !writeOk then [WriteFailed] else Outcome(s', id, after)
  {
    var s := Exec(Init(handshakeEvents), before);
    var s', w := ReceiveRequest(s, id, writeOk), |s.ids|;
    InitRequests(handshakeEvents);
    ExecKeepsRequests(Init(handshakeEvents), before);
    StepKeepsRequests(s, Receive(Request(id), writeOk));
    assert RequestInv(s') && AnswersTo(s.answers, w) == [];
    if id !in s.pending && writeOk {
      assert Waiting(s', w);
      WaiterGetsOutcome(s', w, after);
    } else {
      AnswersSnoc(s.answers, (w, if id in s.pending then DuplicateId else WriteFailed), w);
      AnsweredStaysAnswered(s', w, after);
    }
  }

  // ---------------------------------------------------------------- duplicates

  /** The serial number of a waiter once one more, number `n`, has been let in before it. */
  function Shift(n: nat, w: nat): nat {
    if w < n then w else w + 1
  }

  function ShiftMessage(n: nat, m: Message): Message {
    if m.RequestMessage? then m.(waiter := Shift(n, m.waiter)) else m
  }

  function ShiftAll(n: nat, ms: seq<Message>): seq<Message> {
    seq(|ms|, i requires 0 <= i < |ms| => ShiftMessage(n, ms[i]))
  }

  predicate SameOutside(s: State, t: State) {
    && t.phase == s.phase && t.consumerOpen == s.consumerOpen && t.buffered == s.buffered && t.channel == s.channel
    && t.yielded == s.yielded && t.frames == s.frames && t.disconnect == s.disconnect
  }

  ghost predicate SamePending(n: nat, s: State, t: State) {
    && n <= |s.ids| && |t.ids| == |s.ids| + 1 && t.pending.Keys == s.pending.Keys
    && forall id :: id in s.pending ==> t.pending[id] == Shift(n, s.pending[id])
  }

  ghost predicate SameAnswers(n: nat, s: State, t: State) {
    forall w: nat :: AnswersTo(t.answers, Shift(n, w)) == AnswersTo(s.answers, w)
  }

  /** `t` is `s` with one waiter more, which nobody else notices. */
  ghost predicate Shifted(n: nat, s: State, t: State) {
    SameOutside(s, t) && SamePending(n, s, t) && SameAnswers(n, s, t) && t.written == ShiftAll(n, s.written)
  }

  lemma ShiftSnoc(n: nat, ms: seq<Message>, m: Message)
    ensures ShiftAll(n, ms + [m]) == ShiftAll(n, ms) + [ShiftMessage(n, m)]
  {
  }

  lemma ReplyShifted(n: nat, s: State, t: State, w: nat, a: Answer)
    requires SameAnswers(n, s, t)
    ensures SameAnswers(n, ReplyTo(s, w, a), ReplyTo(t, Shift(n, w), a))
  {
    forall v: nat
      ensures AnswersTo(ReplyTo(t, Shift(n, w), a).answers, Shift(n, v)) == AnswersTo(ReplyTo(s, w, a).answers, v)
    {
      AnswersSnoc(s.answers, (w, a), v);
      AnswersSnoc(t.answers, (Shift(n, w), a), Shift(n, v));
    }
  }

  lemma SettleShifted(n: nat, s: State, t: State, id: RequestId, a: Answer)
    requires Shifted(n, s, t)
    ensures Shifted(n, Settle(s, id, a), Settle(t, id, a))
  {
    if id in s.pending { ReplyShifted(n, s, t, s.pending[id], a); }
  }

  lemma FiledShifted(n: nat, s: State, t: State, id: RequestId)
    requires Shifted(n, s, t) && id !in s.pending
    ensures Shifted(n, ReceiveRequest(s, id, true), ReceiveRequest(t, id, true))
  {
    ShiftSnoc(n, s.written, RequestMessage(|s.ids|, id));
  }

  lemma RequestShifted(n: nat, s: State, t: State, id: RequestId, writeOk: bool)
    requires Shifted(n, s, t)
    ensures Shifted(n, ReceiveRequest(s, id, writeOk), ReceiveRequest(t, id, writeOk))
  {
    var w := |s.ids|;
    assert Shift(n, w) == |t.ids|;
    if id in s.pending {
      ReplyShifted(n, s, t, w, DuplicateId);
    } else if writeOk {
      FiledShifted(n, s, t, id);
    } else {
      ReplyShifted(n, s, t, w, WriteFailed);
    }
  }

  lemma CommandShifted(n: nat, s: State, t: State, c: Command, writeOk: bool)
    requires Shifted(n, s, t)
    ensures Shifted(n, ReceiveCommand(s, c, writeOk), ReceiveCommand(t, c, writeOk))
  {
    match c
    case Request(id) => RequestShifted(n, s, t, id, writeOk);
    case Notify(payload) => ShiftSnoc(n, s.written, ClientNotification(payload));
    case ResolveServerRequest(id, value) => ShiftSnoc(n, s.written, Reply(id, value));
    case RejectServerRequest(id, code) => ShiftSnoc(n, s.written, ErrorReply(id, code));
    case Shutdown =>
  }

  lemma FrameShifted(n: nat, s: State, t: State, f: Frame, writeOk: bool)
    requires Shifted(n, s, t)
    ensures Shifted(n, HandleFrame(s, f, writeOk), HandleFrame(t, f, writeOk))
  {
    match f
    case Response(id, value) => SettleShifted(n, s, t, id, Result(value));
    case Failure(id, error) => SettleShifted(n, s, t, id, ServerError(error));
    case Inquiry(id, _, _) => ShiftSnoc(n, s.written, ErrorReply(id, METHOD_NOT_FOUND));
    case _ =>
  }

  lemma StepShifted(n: nat, s: State, t: State, a: Action)
    requires Shifted(n, s, t)
    ensures Shifted(n, Step(s, a), Step(t, a))
  {
    match a
    case Receive(c, writeOk) => CommandShifted(n, s, t, c, writeOk);
    case Arrive(f, writeOk) => FrameShifted(n, s.(frames := s.frames + [f]), t.(frames := t.frames + [f]), f, writeOk);
    case Drain(id) => if s.phase.Draining? { SettleShifted(n, s, t, id, Drained(s.phase.kind)); }
    case _ =>
  }

  lemma {:induction false} ExecShifted(n: nat, s: State, t: State, actions: seq<Action>)
    requires Shifted(n, s, t)
    ensures Shifted(n, Exec(s, actions), Exec(t, actions))
    decreases actions
  {
    if actions != [] {
      StepShifted(n, s, t, actions[0]);
      ExecShifted(n, Step(s, actions[0]), Step(t, actions[0]), actions[1..]);
    }
  }

  lemma DuplicateShifts(s: State, id: RequestId, writeOk: bool)
    requires RequestInv(s) && id in s.pending
    ensures Shifted(|s.ids|, s, ReceiveRequest(s, id, writeOk))
  {
    var n, t := |s.ids|, ReceiveRequest(s, id, writeOk);
    forall w: nat
      ensures AnswersTo(t.answers, Shift(n, w)) == AnswersTo(s.answers, w)
    {
      AnswersSnoc(s.answers, (n, DuplicateId), Shift(n, w));
    }
    forall i | 0 <= i < |s.written|
      ensures ShiftMessage(n, s.written[i]) == s.written[i]
    {
      var m := s.written[i];
      if m.RequestMessage? { assert RequestMessage(m.waiter, m.id) in s.written; }
    }
    assert ShiftAll(n, s.written) == s.written;
  }

  /**
   A request that reuses a pending id leaves no trace: whatever the run does afterwards, the
   messages written, the events read, the requests pending and the answers of every other waiter,
   earlier or later, are those of the run without it. Its own waiter learns that it was a duplicate.
   */
  lemma DuplicateLeavesNoTrace(handshakeEvents: seq<Event>, before: seq<Action>, id: RequestId, writeOk: bool, after: seq<Action>)
    requires var s := Exec(Init(handshakeEvents), before); s.phase.Running? && id in s.pending
    ensures var s := Exec(Init(handshakeEvents), before);
            var t := Step(s, Receive(Request(id), writeOk));
            && Shifted(|s.ids|, Exec(s, after), Exec(t, after))
            && AnswersTo(Exec(t, after).answers, |s.ids|) == [DuplicateId]
  {
    var s := Exec(Init(handshakeEvents), before);
    InitRequests(handshakeEvents);
    ExecKeepsRequests(Init(handshakeEvents), before);
    DuplicateShifts(s, id, writeOk);
    ExecShifted(|s.ids|, s, ReceiveRequest(s, id, writeOk), after);
    RequestFate(handshakeEvents, before, id, writeOk, after);
  }

  // ---------------------------------------------------------------- the event stream

  function KnownEvents(frames: seq<Frame>): seq<Event> {
    if frames == [] then [] else KnownEvents(frames[..|frames| - 1]) + EventOf(frames[|frames| - 1])
  }

  lemma KnownSnoc(frames: seq<Frame>, f: Frame)
    ensures KnownEvents(frames + [f]) == KnownEvents(frames) + EventOf(f)
  {
    assert (frames + [f])[..|frames|] == frames;
  }

  /** Everything the caller can ever read, in order. */
  function FullStream(s: State, handshakeEvents: seq<Event>): seq<Event> {
    handshakeEvents + KnownEvents(s.frames) + s.disconnect
  }

  predicate StreamInv(s: State, handshakeEvents: seq<Event>) {
    && (s.phase.Running? ==> s.disconnect == [])
    && |s.disconnect| <= 1
    && s.yielded <= FullStream(s, handshakeEvents)
    && (s.consumerOpen ==> s.yielded + s.buffered + s.channel == FullStream(s, handshakeEvents))
  }

  /** What a frame does to the stream: its event, then a `Disconnected` if it ends the loop. */
  lemma ArriveEffect(s: State, f: Frame, writeOk: bool)
    requires s.phase.Running? && s.disconnect == []
    ensures var s' := Step(s, Arrive(f, writeOk));
            && s'.frames == s.frames + [f] && s'.yielded == s.yielded && s'.buffered == s.buffered
            && s'.consumerOpen == s.consumerOpen && |s'.disconnect| <= 1
            && (s'.phase.Running? ==> s'.disconnect == [])
            && (s.consumerOpen ==> s'.channel == s.channel + (EventOf(f) + s'.disconnect))
  {
  }

  /** More at the end of the channel and of the full stream keeps them in step. */
  lemma ExtendStream(s: State, s': State, more: seq<Event>, hs: seq<Event>)
    requires StreamInv(s, hs) && FullStream(s', hs) == FullStream(s, hs) + more
    requires s'.yielded == s.yielded && s'.buffered == s.buffered && s'.consumerOpen == s.consumerOpen && |s'.disconnect| <= 1
    requires s'.phase.Running? ==> s'.disconnect == []
    requires s.consumerOpen ==> s'.channel == s.channel + more
    ensures StreamInv(s', hs)
  {
    assert s.yielded + s.buffered + (s.channel + more) == (s.yielded + s.buffered + s.channel) + more;
  }

  lemma ArriveKeepsStream(s: State, f: Frame, writeOk: bool, hs: seq<Event>)
    requires StreamInv(s, hs) && s.phase.Running?
    ensures StreamInv(Step(s, Arrive(f, writeOk)), hs)
  {
    ArriveEffect(s, f, writeOk);
    KnownSnoc(s.frames, f);
    var s' := Step(s, Arrive(f, writeOk));
    assert FullStream(s', hs) == FullStream(s, hs) + (EventOf(f) + s'.disconnect);
    ExtendStream(s, s', EventOf(f) + s'.disconnect, hs);
  }

  lemma CommandKeepsStream(s: State, c: Command, writeOk: bool, hs: seq<Event>)
    requires StreamInv(s, hs) && s.phase.Running?
    ensures StreamInv(Step(s, Receive(c, writeOk)), hs)
  {
    var s' := Step(s, Receive(c, writeOk));
    assert FullStream(s', hs) == FullStream(s, hs) + s'.disconnect;
    if s.consumerOpen {
      assert s'.channel == s.channel + s'.disconnect;
      assert s'.yielded + s'.buffered + s'.channel == (s.yielded + s.buffered + s.channel) + s'.disconnect;
    }
  }

  /** Reading moves the first unread event over. */
  lemma ReadMoves(s: State)
    ensures var s' := ReadEvent(s); s'.yielded + s'.buffered + s'.channel == s.yielded + s.buffered + s.channel
  {
    if s.consumerOpen && s.buffered != [] {
      assert (s.yielded + [s.buffered[0]]) + s.buffered[1..] == s.yielded + s.buffered;
    } else if s.consumerOpen && s.channel != [] {
      assert s.yielded + [] == s.yielded && s.yielded + [s.channel[0]] + [] + s.channel[1..] == s.yielded + s.channel;
    }
  }

  lemma ReadKeepsStream(s: State, hs: seq<Event>)
    requires StreamInv(s, hs)
    ensures StreamInv(ReadEvent(s), hs)
  {
    ReadMoves(s);
    var s' := ReadEvent(s);
    assert s'.yielded <= s'.yielded + s'.buffered + s'.channel;
    assert FullStream(s', hs) == FullStream(s, hs);
  }

  lemma StepKeepsStream(s: State, a: Action, hs: seq<Event>)
    requires StreamInv(s, hs)
    ensures StreamInv(Step(s, a), hs)
  {
    match a
    case Receive(c, writeOk) => if s.phase.Running? { CommandKeepsStream(s, c, writeOk, hs); }
    case Arrive(f, writeOk) => if s.phase.Running? { ArriveKeepsStream(s, f, writeOk, hs); }
    case NextEvent => ReadKeepsStream(s, hs);
    case _ =>
  }

  lemma {:induction false} ExecKeepsStream(s: State, actions: seq<Action>, hs: seq<Event>)
    requires StreamInv(s, hs)
    ensures StreamInv(Exec(s, actions), hs)
    decreases actions
  {
    if actions != [] {
      StepKeepsStream(s, actions[0], hs);
      ExecKeepsStream(Step(s, actions[0]), actions[1..], hs);
    }
  }

  predicate NoDisconnect(es: seq<Event>) {
    forall e :: e in es ==> !e.Disconnected?
  }

  lemma {:induction false} KnownEventsNoDisconnect(frames: seq<Frame>)
    ensures NoDisconnect(KnownEvents(frames))
  {
    if frames != [] {
      KnownEventsNoDisconnect(frames[..|frames| - 1]);
    }
  }

  /**
   Stream order, on every run: what the caller has read is a prefix of the events of the
   handshake frames, then those of the live frames in arrival order, then at most one
   `Disconnected`; while it keeps reading nothing of that is lost, and nothing follows a
   `Disconnected`.
   */
  lemma StreamOrder(handshakeFrames: seq<Frame>, actions: seq<Action>)
    ensures var hs := KnownEvents(handshakeFrames);
            var s := Exec(Init(hs), actions);
            && |s.disconnect| <= 1
            && s.yielded <= hs + KnownEvents(s.frames) + s.disconnect
            && (s.consumerOpen ==> s.yielded + s.buffered + s.channel == hs + KnownEvents(s.frames) + s.disconnect)
            && (forall i :: 0 <= i < |s.yielded| && s.yielded[i].Disconnected? ==> i == |s.yielded| - 1)
  {
    var hs := KnownEvents(handshakeFrames);
    ExecKeepsStream(Init(hs), actions, hs);
    KnownEventsNoDisconnect(handshakeFrames);
    KnownEventsNoDisconnect(Exec(Init(hs), actions).frames);
  }

  // ---------------------------------------------------------------- the handshake

  // What the server means for the caller is read off frames and events separately.

  /** A message of the server to the caller. */
  datatype Mail = Note(payload: string) | Ask(id: RequestId, payload: string)

  /** The messages among the frames that decode to a known notification or request. */
  function MailInFrames(frames: seq<Frame>): seq<Mail> {
    if frames == [] then [] else
    MailInFrames(frames[..|frames| - 1]) +
    match frames[|frames| - 1]
    case Notice(payload, true) => [Note(payload)]
    case Inquiry(id, payload, true) => [Ask(id, payload)]
    case _ => []
  }

  function MailInEvents(events: seq<Event>): seq<Mail> {
    if events == [] then [] else
    MailInEvents(events[..|events| - 1]) +
    match events[|events| - 1]
    case ServerNotification(payload) => [Note(payload)]
    case ServerRequest(id, payload) => [Ask(id, payload)]
    case Disconnected(_) => []
  }

  lemma {:induction false} MailConcat(a: seq<Event>, b: seq<Event>)
    ensures MailInEvents(a + b) == MailInEvents(a) + MailInEvents(b)
    decreases b
  {
    if b == [] {
      assert a + b == a;
    } else {
      assert (a + b)[..|a + b| - 1] == a + b[..|b| - 1];
      MailConcat(a, b[..|b| - 1]);
    }
  }

  lemma {:induction false} KnownEventsAreMail(frames: seq<Frame>)
    ensures MailInEvents(KnownEvents(frames)) == MailInFrames(frames)
    decreases frames
  {
    if frames != [] {
      KnownEventsAreMail(frames[..|frames| - 1]);
      MailOfFrame(frames[|frames| - 1]);
      MailConcat(KnownEvents(frames[..|frames| - 1]), EventOf(frames[|frames| - 1]));
    }
  }

  lemma MailOfFrame(f: Frame)
    ensures MailInEvents(EventOf(f)) ==
            match f
            case Notice(payload, true) => [Note(payload)]
            case Inquiry(id, payload, true) => [Ask(id, payload)]
            case _ => []
  {
    if EventOf(f) != [] { assert EventOf(f)[..0] == []; }
  }

  lemma MailOfDisconnect(es: seq<Event>)
    requires |es| <= 1 && forall e :: e in es ==> e.Disconnected?
    ensures MailInEvents(es) == []
  {
    if es != [] { assert es[0] in es && es[..0] == []; }
  }

  /**
   Nothing for the caller is lost or altered, on every run: while it listens, the notifications and
   requests it has read or can still read are those of the handshake and then those of the frames that
   arrived, payload for payload and in order; what it has read before it let go is a prefix of them.
   */
  lemma MailArrives(handshakeEvents: seq<Event>, actions: seq<Action>)
    ensures var s := Exec(Init(handshakeEvents), actions);
            var mail := MailInEvents(handshakeEvents) + MailInFrames(s.frames);
            && (s.consumerOpen ==> MailInEvents(s.yielded + s.buffered + s.channel) == mail)
            && MailInEvents(s.yielded) <= mail
  {
    var s := Exec(Init(handshakeEvents), actions);
    ExecKeepsStream(Init(handshakeEvents), actions, handshakeEvents);
    ExecKeepsDisconnect(Init(handshakeEvents), actions);
    StreamMail(s, handshakeEvents);
    MailPrefix(s.yielded, FullStream(s, handshakeEvents));
  }

  lemma MailPrefix(a: seq<Event>, b: seq<Event>)
    requires a <= b
    ensures MailInEvents(a) <= MailInEvents(b)
  {
    assert b == a + b[|a|..];
    MailConcat(a, b[|a|..]);
  }

  lemma StreamMail(s: State, hs: seq<Event>)
    requires |s.disconnect| <= 1 && forall e :: e in s.disconnect ==> e.Disconnected?
    ensures MailInEvents(FullStream(s, hs)) == MailInEvents(hs) + MailInFrames(s.frames)
  {
    KnownEventsAreMail(s.frames);
    MailConcat(hs, KnownEvents(s.frames));
    MailConcat(hs + KnownEvents(s.frames), s.disconnect);
    MailOfDisconnect(s.disconnect);
  }

  lemma {:induction false} ExecKeepsDisconnect(s: State, actions: seq<Action>)
    requires forall e :: e in s.disconnect ==> e.Disconnected?
    ensures forall e :: e in Exec(s, actions).disconnect ==> e.Disconnected?
    decreases actions
  {
    if actions != [] {
      ExecKeepsDisconnect(Step(s, actions[0]), actions[1..]);
    }
  }

  const INITIALIZE_ID := StringId("initialize")

  /** One frame met during the handshake, and whether the reply to it can be written. */
  datatype Exchange = Exchange(frame: Frame, writeOk: bool)

  datatype Handshake = Connected(events: seq<Event>, consumed: nat) | Refused(kind: ErrorKind)

  function Frames(script: seq<Exchange>): seq<Frame> {
    seq(|script|, i requires 0 <= i < |script| => script[i].frame)
  }

  /** The -32601 reply owed to an unknown request. */
  function RejectionOf(f: Frame): seq<Message> {
    if f.Inquiry? && !f.known then [ErrorReply(f.id, -32601)] else []
  }

  function Rejections(script: seq<Exchange>): seq<Message> {
    if script == [] then [] else Rejections(script[..|script| - 1]) + RejectionOf(script[|script| - 1].frame)
  }

  /** A frame that ends the wait for the initialize response, by accepting, rejecting or failing. */
  predicate EndsHandshake(x: Exchange) {
    || (x.frame.Response? && x.frame.id == StringId("initialize"))
    || (x.frame.Failure? && x.frame.id == StringId("initialize"))
    || (x.frame.Inquiry? && !x.frame.known && !x.writeOk)
    || x.frame in {Malformed, Closing, Broken, End}
  }

  /** Frames after which the loop goes on. */
  predicate Benign(x: Exchange) {
    match x.frame
    case Response(id, _) => id != INITIALIZE_ID
    case Failure(id, _) => id != INITIALIZE_ID
    case Notice(_, _) => true
    case Inquiry(_, _, known) => known || x.writeOk
    case Noise => true
    case _ => false
  }

  lemma BenignExactly(x: Exchange)
    ensures Benign(x) <==> !EndsHandshake(x)
  {
  }

  predicate Accepts(x: Exchange) {
    x.frame.Response? && x.frame.id == StringId("initialize")
  }

  /** The handshake succeeds at frame `k`. */
  predicate AcceptedAt(script: seq<Exchange>, k: nat) {
    k < |script| && Accepts(script[k]) && forall j :: 0 <= j < k ==> !EndsHandshake(script[j])
  }

  /** The handshake loop waits up to frame `k`, which ends it, or up to the timeout. */
  predicate StopsAt(script: seq<Exchange>, k: nat) {
    k <= |script| && (forall j :: 0 <= j < k ==> !EndsHandshake(script[j])) && (k < |script| ==> EndsHandshake(script[k]))
  }

  /** A frame that accepts after benign ones is where the loop stops, and there is no other. */
  lemma AcceptedIsStop(script: seq<Exchange>, i: nat)
    requires StopsAt(script, i)
    ensures (exists k: nat :: AcceptedAt(script, k)) <==> AcceptedAt(script, i)
  {
    forall k: nat | AcceptedAt(script, k)
      ensures k == i
    {
      assert EndsHandshake(script[k]);
    }
  }

  /** The error of a handshake that stops at frame `k` without connecting. */
  function RefusalKind(script: seq<Exchange>, k: nat): ErrorKind {
    if k >= |script| then TimedOut
    else match script[k].frame
    case Closing => ConnectionAborted
    case End => UnexpectedEof
    case _ => Other
  }

  lemma RejectionsSnoc(script: seq<Exchange>, i: nat)
    requires i < |script|
    ensures Rejections(script[..i + 1]) == Rejections(script[..i]) + RejectionOf(script[i].frame)
    ensures KnownEvents(Frames(script[..i + 1])) == KnownEvents(Frames(script[..i])) + EventOf(script[i].frame)
  {
    assert script[..i + 1][..i] == script[..i];
    assert Frames(script[..i + 1]) == Frames(script[..i]) + [script[i].frame];
    KnownSnoc(Frames(script[..i]), script[i].frame);
  }

  /** A benign frame during the handshake: known messages are kept, unknown requests are refused. */
  method AbsorbFrame(frame: Frame, events: seq<Event>, written: seq<Message>)
    returns (events': seq<Event>, written': seq<Message>)
    ensures events' == events + EventOf(frame)
    ensures written' == written + RejectionOf(frame)
  {
    events', written' := events, written;
    match frame
    case Notice(payload, known) =>
      if known { events' := events' + [ServerNotification(payload)]; }
    case Inquiry(id, payload, known) =>
      if known {
        events' := events' + [ServerRequest(id, payload)];
      } else {
        written' := written' + [ErrorReply(id, METHOD_NOT_FOUND)];
      }
    case _ =>
  }

  /** The handshake loop: benign frames are absorbed until one of another kind, or the timeout. */
  method AwaitVerdict(script: seq<Exchange>, before: seq<Message>) returns (i: nat, events: seq<Event>, written: seq<Message>)
    ensures StopsAt(script, i)
    ensures events == KnownEvents(Frames(script[..i])) && written == before + Rejections(script[..i])
    ensures MailInEvents(events) == MailInFrames(Frames(script[..i]))
  {
    i, events, written := 0, [], before;
    while i < |script| && Benign(script[i])
      invariant i <= |script|
      invariant forall j :: 0 <= j < i ==> !EndsHandshake(script[j])
      invariant events == KnownEvents(Frames(script[..i]))
      invariant written == before + Rejections(script[..i])
    {
      BenignExactly(script[i]);
      RejectionsSnoc(script, i);
      ghost var done := Rejections(script[..i]);
      events, written := AbsorbFrame(script[i].frame, events, written);
      assert before + (done + RejectionOf(script[i].frame)) == before + done + RejectionOf(script[i].frame);
      i := i + 1;
    }
    if i < |script| { BenignExactly(script[i]); }
    KnownEventsAreMail(Frames(script[..i]));
  }

  /**
   The initialize exchange. A script that ends without a verdict is the timeout. It connects
   exactly when the first frame that is not benign accepts the initialize request and the
   writes around it succeed; before `initialized` only the initialize request and -32601
   replies are written.
   */
  method Initialize(script: seq<Exchange>, initializeOk: bool, initializedOk: bool)
    returns (result: Handshake, written: seq<Message>)
    ensures result.Connected? <==> initializeOk && initializedOk && exists k: nat :: AcceptedAt(script, k)
    ensures result.Connected? ==>
              && 1 <= result.consumed && AcceptedAt(script, result.consumed - 1)
              && result.events == KnownEvents(Frames(script[..result.consumed - 1]))
              && MailInEvents(result.events) == MailInFrames(Frames(script[..result.consumed - 1]))
              && written == [InitializeRequest] + Rejections(script[..result.consumed - 1]) + [InitializedNotification]
    ensures result.Refused? && !initializeOk ==> result.kind == Other && written == []
    ensures result.Refused? && initializeOk ==>
              exists k: nat :: StopsAt(script, k) && result.kind == RefusalKind(script, k)
                               && written == [InitializeRequest] + Rejections(script[..k])
  {
    written := [];
    if !initializeOk {
      return Refused(Other), written;
    }
    written := [InitializeRequest];
    var i, events;
    i, events, written := AwaitVerdict(script, written);
    AcceptedIsStop(script, i);
    if i == |script| {
      return Refused(TimedOut), written;
    }
    match script[i].frame {
      case Response(_, _) =>
      case Closing => return Refused(ConnectionAborted), written;
      case End => return Refused(UnexpectedEof), written;
      case _ => return Refused(Other), written;
    }
    if !initializedOk {
      return Refused(Other), written;
    }
    written := written + [InitializedNotification];
    result := Connected(events, i + 1);
  }

  // ---------------------------------------------------------------- the client object

  /** What the worker's `select!` finds ready, and what the caller does in between. */
  datatype WorkerInput =
    | Commanded(command: Command, writeOk: bool)
    | CommandsGone
    | Framed(frame: Frame, writeOk: bool)
    | CallerReads
    | CallerLeaves

  function ActionOf(input: WorkerInput): Action {
    match input
    case Commanded(command, writeOk) => Receive(command, writeOk)
    case CommandsGone => CommandsClosed
    case Framed(frame, writeOk) => Arrive(frame, writeOk)
    case CallerReads => NextEvent
    case CallerLeaves => DropConsumer
  }

  function ActionsOf(inputs: seq<WorkerInput>): seq<Action> {
    seq(|inputs|, i requires 0 <= i < |inputs| => ActionOf(inputs[i]))
  }

  /**
   The worker task and the client end of its channels. `history` is the run performed so far,
   so the results about runs hold of every object.
   */
  class RemoteSession {
    ghost const handshakeEvents: seq<Event>
    var exited: bool
    var workerExitError: Option<ErrorKind>
    var pendingRequests: map<RequestId, nat>
    var received: nat
    var answers: seq<(nat, Answer)>
    var written: seq<Message>
    var consumerOpen: bool
    var pendingEvents: seq<Event>
    var channel: seq<Event>
    ghost var ids: seq<RequestId>
    ghost var yielded: seq<Event>
    ghost var frames: seq<Frame>
    ghost var disconnect: seq<Event>
    ghost var history: seq<Action>

    ghost function View(): State
      reads this
    {
      var phase := if !exited then Running else Draining(if workerExitError.Some? then workerExitError.value else BrokenPipe);
      State(phase, pendingRequests, ids, answers, written, consumerOpen, pendingEvents, channel, yielded, frames, disconnect)
    }

    ghost predicate Valid()
      reads this
    {
      View() == Exec(Init(handshakeEvents), history) && received == |ids| && (!exited ==> workerExitError.None?)
    }

    constructor (events: seq<Event>)
      ensures Valid() && handshakeEvents == events && history == [] && !exited
    {
      handshakeEvents := events;
      exited, workerExitError, pendingRequests, received := false, None, map[], 0;
      answers, written, consumerOpen, pendingEvents, channel := [], [], true, events, [];
      ids, yielded, frames, disconnect, history := [], [], [], [], [];
    }

    /** The `Disconnected` event and the exit error of a fatal condition. */
    method Fail(kind: ErrorKind)
      modifies this`exited, this`workerExitError, this`channel, this`disconnect
      requires !exited
      ensures View() == ExitWith(old(View()), kind) && exited
    {
      if consumerOpen {
        channel := channel + [Disconnected(kind)];
        disconnect := [Disconnected(kind)];
      }
      workerExitError, exited := Some(kind), true;
    }

    /** A new request is filed before it is written, and unfiled again if the write fails. */
    method SendRequest(id: RequestId, writeOk: bool)
      requires !exited && received == |ids|
      modifies this`exited, this`workerExitError, this`pendingRequests, this`received, this`answers, this`written, this`channel, this`ids, this`disconnect
      ensures View() == ReceiveRequest(old(View()), id, writeOk)
      ensures received == |ids| && (!exited ==> workerExitError == old(workerExitError))
    {
      var waiter := received;
      ids, received := ids + [id], received + 1;
      if id in pendingRequests {
        answers := answers + [(waiter, DuplicateId)];
        return;
      }
      pendingRequests := pendingRequests[id := waiter];
      if writeOk {
        written := written + [RequestMessage(waiter, id)];
      } else {
        answers := answers + [(pendingRequests[id], WriteFailed)];
        pendingRequests := pendingRequests - {id};
        assert pendingRequests == old(pendingRequests);
        Fail(BrokenPipe);
      }
    }

    method HandleCommand(command: Command, writeOk: bool)
      requires Valid() && !exited
      modifies this
      ensures Valid() && history == old(history) + [Receive(command, writeOk)]
    {
      ExecSnoc(Init(handshakeEvents), history, Receive(command, writeOk));
      history := history + [Receive(command, writeOk)];
      match command
      case Request(id) => SendRequest(id, writeOk);
      case Notify(payload) =>
        if writeOk { written := written + [ClientNotification(payload)]; }
      case ResolveServerRequest(id, value) =>
        if writeOk { written := written + [Reply(id, value)]; }
      case RejectServerRequest(id, code) =>
        if writeOk { written := written + [ErrorReply(id, code)]; }
      case Shutdown =>
        exited := true;
    }

    /** A response or error frame goes to the waiter filed under its id, if there is one. */
    method SettleWaiter(id: RequestId, answer: Answer)
      modifies this`pendingRequests, this`answers
      ensures View() == Settle(old(View()), id, answer)
    {
      if id in pendingRequests {
        answers := answers + [(pendingRequests[id], answer)];
        pendingRequests := pendingRequests - {id};
      }
    }

    /** Delivery fails, and the worker leaves quietly, when the event consumer is gone. */
    method DeliverOrLeave(event: Event)
      modifies this`channel, this`exited
      requires !exited && workerExitError.None?
      ensures View() == if old(consumerOpen) then Deliver(old(View()), [event]) else Exit(old(View()))
    {
      if consumerOpen {
        channel := channel + [event];
      } else {
        exited := true;
      }
    }

    method DispatchFrame(frame: Frame, writeOk: bool)
      requires !exited && workerExitError.None?
      modifies this`exited, this`workerExitError, this`pendingRequests, this`answers, this`written, this`channel, this`disconnect
      ensures View() == HandleFrame(old(View()), frame, writeOk) && (!exited ==> workerExitError.None?)
    {
      match frame
      case Response(id, value) => SettleWaiter(id, Result(value));
      case Failure(id, error) => SettleWaiter(id, ServerError(error));
      case Notice(payload, known) =>
        if known { DeliverOrLeave(ServerNotification(payload)); }
      case Inquiry(id, payload, known) =>
        if known {
          DeliverOrLeave(ServerRequest(id, payload));
        } else if writeOk {
          written := written + [ErrorReply(id, METHOD_NOT_FOUND)];
        } else {
          Fail(BrokenPipe);
        }
      case Malformed => Fail(InvalidData);
      case Closing => Fail(ConnectionAborted);
      case Noise =>
      case Broken => Fail(InvalidData);
      case End => Fail(UnexpectedEof);
    }

    method HandleIncoming(frame: Frame, writeOk: bool)
      requires Valid() && !exited
      modifies this
      ensures Valid() && history == old(history) + [Arrive(frame, writeOk)]
    {
      ExecSnoc(Init(handshakeEvents), history, Arrive(frame, writeOk));
      history := history + [Arrive(frame, writeOk)];
      frames := frames + [frame];
      DispatchFrame(frame, writeOk);
    }

    method DrainOne(id: RequestId, kind: ErrorKind)
      requires Valid() && exited && id in pendingRequests
      requires kind == if workerExitError.Some? then workerExitError.value else BrokenPipe
      modifies this`pendingRequests, this`answers, this`history
      ensures Valid() && history == old(history) + [Drain(id)] && |pendingRequests| < |old(pendingRequests)|
    {
      ExecSnoc(Init(handshakeEvents), history, Drain(id));
      history := history + [Drain(id)];
      SettleWaiter(id, Drained(kind));
      assert pendingRequests.Keys == old(pendingRequests).Keys - {id};
    }

    /** The exit drain answers the remaining waiters in whatever order the map gives them. */
    method DrainPending()
      requires Valid() && exited
      modifies this`pendingRequests, this`answers, this`history
      ensures Valid() && Ended(View()) && old(history) <= history
    {
      var kind := if workerExitError.Some? then workerExitError.value else BrokenPipe;
      while pendingRequests != map[]
        invariant Valid() && old(history) <= history
        decreases |pendingRequests|
      {
        var id :| id in pendingRequests;
        DrainOne(id, kind);
      }
    }

    /** The caller's read: handshake events first; `None` when nothing is ready or the caller let go of the events. */
    method ReadNextEvent() returns (event: Option<Event>)
      requires Valid()
      modifies this`pendingEvents, this`channel, this`yielded, this`history
      ensures Valid() && history == old(history) + [NextEvent]
      ensures event.Some? ==> yielded == old(yielded) + [event.value]
      ensures event.None? ==> View() == old(View()) && (consumerOpen ==> pendingEvents == [] && channel == [])
    {
      ExecSnoc(Init(handshakeEvents), history, NextEvent);
      history := history + [NextEvent];
      if !consumerOpen {
        event := None;
      } else if pendingEvents != [] {
        event, pendingEvents := Some(pendingEvents[0]), pendingEvents[1..];
        yielded := yielded + [event.value];
      } else if channel != [] {
        event, channel := Some(channel[0]), channel[1..];
        yielded := yielded + [event.value];
      } else {
        event := None;
      }
    }

    /** The caller lets go of the events; the worker finds out at its next delivery. */
    method DropEvents()
      requires Valid()
      modifies this`consumerOpen, this`history
      ensures Valid() && !consumerOpen && history == old(history) + [DropConsumer]
    {
      ExecSnoc(Init(handshakeEvents), history, DropConsumer);
      history := history + [DropConsumer];
      consumerOpen := false;
    }

    method HandleInput(input: WorkerInput)
      requires Valid() && !exited
      modifies this
      ensures Valid() && history == old(history) + [ActionOf(input)]
    {
      match input
      case Commanded(command, writeOk) => HandleCommand(command, writeOk);
      case Framed(frame, writeOk) => HandleIncoming(frame, writeOk);
      case CommandsGone =>
        ExecSnoc(Init(handshakeEvents), history, CommandsClosed);
        history, exited := history + [CommandsClosed], true;
      case CallerReads =>
        var event := ReadNextEvent();
      case CallerLeaves => DropEvents();
    }

    /**
     The worker task on everything the environment feeds it, interleaved with the caller's reads,
     in order and skipping nothing until it leaves its loop, then the drain.
     */
    method RunWorker(inputs: seq<WorkerInput>) returns (ghost used: nat)
      requires Valid() && !exited
      modifies this
      ensures Valid() && used <= |inputs|
      ensures old(history) + ActionsOf(inputs[..used]) <= history
      ensures if exited then Ended(View()) else used == |inputs| && history == old(history) + ActionsOf(inputs)
    {
      var i := 0;
      while i < |inputs| && !exited
        invariant 0 <= i <= |inputs|
        invariant Valid() && history == old(history) + ActionsOf(inputs[..i])
      {
        assert ActionsOf(inputs[..i + 1]) == ActionsOf(inputs[..i]) + [ActionOf(inputs[i])];
        HandleInput(inputs[i]);
        i := i + 1;
      }
      used := i;
      if exited {
        DrainPending();
      } else {
        assert inputs[..i] == inputs;
      }
    }
  }
}
