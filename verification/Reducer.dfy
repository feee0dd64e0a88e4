/**
 The analytics reducer: seven maps, updated by facts that arrive in any order, and events that
 are emitted when the facts they join are there.

 `Ingest` is the effect of one fact on the maps and on the output; `Run` folds it over a run.
 Payloads keep the fields that decide what is emitted and what it reports.
 */
module Reducer {
  import opened Basics
  import DiffParser

  // ---------------------------------------------------------------- state

  datatype Connection = Connection(client: string, runtime: string)

  datatype Metadata = Metadata(
    sessionId: string,
    threadSource: Option<string>,
    initializationMode: string,
    subagentSource: Option<string>,
    parentThreadId: Option<string>)

  datatype Thread = Thread(connectionId: Option<nat>, metadata: Option<Metadata>)

  datatype Request =
    | TurnStart(threadId: string, images: nat)
    | TurnSteer(threadId: string, expectedTurnId: string, images: nat)

  datatype Completion = Completion(status: Option<string>, error: Option<string>, completedAt: nat, durationMs: Option<nat>)

  datatype ToolCounts = ToolCounts(
    total: nat,
    shellCommand: nat,
    fileChange: nat,
    mcpToolCall: nat,
    dynamicToolCall: nat,
    subagentToolCall: nat,
    webSearch: nat,
    imageGeneration: nat)

  datatype Turn = Turn(
    connectionId: Option<nat>,
    threadId: Option<string>,
    images: Option<nat>,
    config: Option<string>,
    startedAt: Option<nat>,
    tokens: Option<nat>,
    profile: Option<string>,
    completed: Option<Completion>,
    error: Option<string>,
    diff: Option<string>,
    steers: nat,
    counts: ToolCounts)

  const NO_COUNTS := ToolCounts(0, 0, 0, 0, 0, 0, 0, 0)
  const NEW_TURN := Turn(None, None, None, None, None, None, None, None, None, None, 0, NO_COUNTS)

  datatype ItemKey = ItemKey(threadId: string, turnId: string, itemId: string)

  datatype Subject = CommandExecution | FileChange | McpToolCall | Permissions | NetworkAccess
  datatype Reviewer = Guardian | User
  datatype ReviewStatus = Approved | Denied | Aborted | TimedOut
  datatype Resolution = NoResolution | SessionApproval | ExecPolicyAmendment | NetworkPolicyAmendment
  datatype FinalOutcome =
    | GuardianApproved | GuardianDenied | GuardianAborted
    | UserApproved | UserApprovedForSession | UserDenied | UserAborted

  datatype PendingReview = PendingReview(
    threadId: string,
    turnId: string,
    itemId: Option<string>,
    subject: Subject,
    startedAt: nat,
    permissions: bool,
    network: bool)

  datatype ReviewSummary = ReviewSummary(
    reviews: nat,
    guardian: nat,
    user: nat,
    outcome: Option<FinalOutcome>,
    permissions: bool,
    network: bool)

  const NO_REVIEWS := ReviewSummary(0, 0, 0, None, false, false)

  datatype State = State(
    requests: map<(nat, RequestId), Request>,
    turns: map<string, Turn>,
    connections: map<nat, Connection>,
    threads: map<string, Thread>,
    started: map<ItemKey, nat>,
    pending: map<RequestId, PendingReview>,
    summaries: map<ItemKey, ReviewSummary>)

  const EMPTY := State(map[], map[], map[], map[], map[], map[], map[])

  // ---------------------------------------------------------------- facts and events

  datatype ItemKind =
    | CommandItem | FileItem | McpItem | DynamicItem | CollabItem | WebSearchItem | ImageItem
    | SubAgentActivity | UntrackedItem

  datatype Item = Item(kind: ItemKind, id: string, inProgress: bool)

  datatype Approval =
    | CommandApproval(networkContext: bool, networkAmendments: bool, additionalPermissions: Option<bool>)
    | FileApproval(grantRoot: bool)
    | PermissionsApproval(networkEnabled: bool, fileSystem: bool)

  datatype Decision =
    | Accept | AcceptForSession | AcceptWithExecpolicyAmendment | AmendNetworkPolicy(allow: bool) | Decline | Cancel

  datatype GuardianAction =
    | CommandAction | ExecveAction | ApplyPatchAction | NetworkAction
    | PermissionsAction(networkEnabled: bool, fileSystem: bool) | McpAction

  datatype ReportKind = GuardianReport | CompactionReport | GoalReport

  datatype ThreadFact =
    | ThreadReady(connectionId: nat, threadId: string, metadata: Metadata)
    | SubAgentThreadStarted(threadId: string, parentThreadId: Option<string>, metadata: Metadata)
    | Report(threadId: string, report: ReportKind)

  datatype RequestFact =
    | TurnStartRequested(threadId: string, images: nat)
    | TurnSteerRequested(threadId: string, expectedTurnId: string, images: nat)
    | TurnStartAnswered(turnId: string)
    | TurnSteerAnswered(turnId: string)
    | RequestFailed

  /** Times that arrive as signed numbers stay `int` until they are checked. */
  datatype TurnFact =
    | ResolvedConfig(threadId: string, images: nat, config: string)
    | TokenUsage(threadId: string, tokens: nat)
    | Profile(profile: string)
    | CodexError(threadId: string, error: string)
    | TurnStarted(at: Option<int>)
    | DiffUpdated(threadId: string, diff: string)
    | TurnCompleted(completion: Completion)

  datatype ItemFact =
    | ItemStarted(threadId: string, turnId: string, item: Item, startedAt: int)
    | ItemCompleted(threadId: string, turnId: string, item: Item, completedAt: int)

  datatype ReviewFact =
    | ApprovalRequested(requestId: RequestId, threadId: string, turnId: string, itemId: string, approval: Approval, startedAt: int)
    | CommandAnswered(requestId: RequestId, decision: Decision, answeredAt: nat)
    | FileAnswered(requestId: RequestId, decision: Decision, answeredAt: nat)
    | PermissionsAnswered(requestId: RequestId, granted: bool, session: bool, answeredAt: nat)
    | ApprovalAborted(requestId: RequestId, answeredAt: nat)
    | GuardianCompleted(threadId: string, turnId: string, targetItemId: Option<string>, action: GuardianAction,
                        status: Option<ReviewStatus>, startedAt: int, completedAt: int)

  datatype Fact =
    | Initialize(connectionId: nat, connection: Connection)
    | OnThread(threadFact: ThreadFact)
    | OnRequest(connectionId: nat, requestId: RequestId, requestFact: RequestFact)
    | OnTurn(turnId: string, turnFact: TurnFact)
    | OnItem(itemFact: ItemFact)
    | OnReview(reviewFact: ReviewFact)

  datatype TurnPayload = TurnPayload(
    turnId: string,
    threadId: string,
    connection: Connection,
    metadata: Metadata,
    images: nat,
    config: string,
    profile: string,
    completed: Completion,
    startedAt: Option<nat>,
    tokens: Option<nat>,
    error: Option<string>,
    steers: nat,
    counts: ToolCounts)

  datatype Event =
    | ThreadInitialized(threadId: string)
    | TurnEvent(payload: TurnPayload)
    | AcceptedLines(turnId: string, threadId: string, added: nat, deleted: nat)
    | TurnSteerEvent(threadId: string, expectedTurnId: string, acceptedTurnId: Option<string>, images: nat)
    | ToolItemEvent(key: ItemKey, item: Item, startedAt: nat, completedAt: nat, summary: ReviewSummary)
    | ReviewEvent(review: PendingReview, reviewer: Reviewer, status: ReviewStatus, resolution: Resolution, completedAt: nat)
    | ReportEvent(threadId: string, report: ReportKind)

  datatype Result = Result(state: State, events: seq<Event>)

  // ---------------------------------------------------------------- helpers of the source

  function Checked(n: int): Option<nat> {
    if n < 0 then None else Some(n)
  }

  function TurnOf(s: State, turnId: string): Turn {
    if turnId in s.turns then s.turns[turnId] else NEW_TURN
  }

  function RecordItem(c: ToolCounts, kind: ItemKind): ToolCounts {
    match kind
    case CommandItem => c.(shellCommand := c.shellCommand + 1, total := c.total + 1)
    case FileItem => c.(fileChange := c.fileChange + 1, total := c.total + 1)
    case McpItem => c.(mcpToolCall := c.mcpToolCall + 1, total := c.total + 1)
    case DynamicItem => c.(dynamicToolCall := c.dynamicToolCall + 1, total := c.total + 1)
    case CollabItem => c.(subagentToolCall := c.subagentToolCall + 1, total := c.total + 1)
    case SubAgentActivity => c.(subagentToolCall := c.subagentToolCall + 1, total := c.total + 1)
    case WebSearchItem => c.(webSearch := c.webSearch + 1, total := c.total + 1)
    case ImageItem => c.(imageGeneration := c.imageGeneration + 1, total := c.total + 1)
    case UntrackedItem => c
  }

  predicate IsTracked(kind: ItemKind) {
    !kind.SubAgentActivity? && !kind.UntrackedItem?
  }

  /** A completed item that still claims to be in progress yields no event; two kinds have no such status. */
  predicate HasOutcome(item: Item) {
    item.kind.WebSearchItem? || item.kind.ImageItem? || !item.inProgress
  }

  datatype Context = Context(connection: Connection, metadata: Metadata)

  function ThreadConnection(s: State, threadId: string): Option<Connection> {
    if threadId !in s.threads then None
    else if s.threads[threadId].connectionId.None? then None
    else if s.threads[threadId].connectionId.value !in s.connections then None
    else Some(s.connections[s.threads[threadId].connectionId.value])
  }

  function ThreadMetadata(s: State, threadId: string): Option<Metadata> {
    if threadId in s.threads then s.threads[threadId].metadata else None
  }

  /** `thread_context_or_warn`. */
  function ThreadContext(s: State, threadId: string): Option<Context> {
    var c, m := ThreadConnection(s, threadId), ThreadMetadata(s, threadId);
    if c.None? || m.None? then None else Some(Context(c.value, m.value))
  }

  function ReviewKey(r: PendingReview): Option<ItemKey> {
    match r.subject
    case Permissions => None
    case NetworkAccess => None
    case _ => if r.itemId.None? then None else Some(ItemKey(r.threadId, r.turnId, r.itemId.value))
  }

  function FinalOutcomeOf(reviewer: Reviewer, status: ReviewStatus, resolution: Resolution): FinalOutcome {
    match (reviewer, status)
    case (Guardian, Approved) => GuardianApproved
    case (Guardian, Denied) => GuardianDenied
    case (Guardian, _) => GuardianAborted
    case (User, Approved) => if resolution == SessionApproval then UserApprovedForSession else UserApproved
    case (User, Denied) => UserDenied
    case (User, _) => UserAborted
  }

  function DecisionResult(d: Decision): (ReviewStatus, Resolution) {
    match d
    case Accept => (Approved, NoResolution)
    case AcceptForSession => (Approved, SessionApproval)
    case AcceptWithExecpolicyAmendment => (Approved, ExecPolicyAmendment)
    case AmendNetworkPolicy(allow) => (if allow then Approved else Denied, NetworkPolicyAmendment)
    case Decline => (Denied, NoResolution)
    case Cancel => (Aborted, NoResolution)
  }

  function PermissionsResult(granted: bool, session: bool): (ReviewStatus, Resolution) {
    if !granted then (Denied, NoResolution) else (Approved, if session then SessionApproval else NoResolution)
  }

  function ApprovalReview(threadId: string, turnId: string, itemId: string, a: Approval, at: nat): PendingReview {
    match a
    case CommandApproval(context, amendments, extra) =>
      var network := context || amendments || (extra.Some? && extra.value);
      PendingReview(threadId, turnId, Some(itemId), if context then NetworkAccess else CommandExecution, at, extra.Some?, network)
    case FileApproval(grantRoot) => PendingReview(threadId, turnId, Some(itemId), FileChange, at, grantRoot, false)
    case PermissionsApproval(network, fileSystem) =>
      PendingReview(threadId, turnId, Some(itemId), Permissions, at, network || fileSystem, network)
  }

  function GuardianReviewOf(threadId: string, turnId: string, itemId: Option<string>, a: GuardianAction, at: nat): PendingReview {
    match a
    case CommandAction => PendingReview(threadId, turnId, itemId, CommandExecution, at, false, false)
    case ExecveAction => PendingReview(threadId, turnId, itemId, CommandExecution, at, false, false)
    case ApplyPatchAction => PendingReview(threadId, turnId, itemId, FileChange, at, true, false)
    case NetworkAction => PendingReview(threadId, turnId, itemId, NetworkAccess, at, true, true)
    case PermissionsAction(network, fileSystem) =>
      PendingReview(threadId, turnId, itemId, Permissions, at, network || fileSystem, network)
    case McpAction => PendingReview(threadId, turnId, itemId, McpToolCall, at, false, false)
  }

  // ---------------------------------------------------------------- turns

  predicate IsComplete(t: Turn) {
    t.threadId.Some? && t.images.Some? && t.config.Some? && t.profile.Some? && t.completed.Some?
  }

  /** The connection of a turn: its own, else its thread's. */
  function TurnConnection(s: State, t: Turn): Option<Connection>
    requires t.threadId.Some?
  {
    var id := if t.connectionId.Some? then t.connectionId
              else if t.threadId.value in s.threads then s.threads[t.threadId.value].connectionId else None;
    if id.None? || id.value !in s.connections then None else Some(s.connections[id.value])
  }

  function Payload(turnId: string, t: Turn, c: Connection, m: Metadata): TurnPayload
    requires IsComplete(t)
  {
    TurnPayload(turnId, t.threadId.value, c, m, t.images.value, t.config.value, t.profile.value, t.completed.value,
                t.startedAt, t.tokens, t.error, t.steers, t.counts)
  }

  /** The Unicode letter test does not influence the counts, so any will do. */
  function DiffCounts(diff: string): (nat, nat) {
    var summary := DiffParser.Parse(_ => false, DiffParser.Lines(diff));
    (summary.added, summary.deleted)
  }

  function AcceptedLinesOf(turnId: string, t: Turn): seq<Event>
    requires IsComplete(t)
  {
    if t.diff.None? then [] else
    var (added, deleted) := DiffCounts(t.diff.value);
    if added == 0 && deleted == 0 then [] else [AcceptedLines(turnId, t.threadId.value, added, deleted)]
  }

  /** `maybe_emit_turn_event`: emit and forget the turn once everything is known. */
  function MaybeEmitTurn(s: State, turnId: string): Result {
    if turnId !in s.turns || !IsComplete(s.turns[turnId]) then Result(s, []) else
    var t := s.turns[turnId];
    var c, m := TurnConnection(s, t), ThreadMetadata(s, t.threadId.value);
    if c.None? || m.None? then Result(s, [])
    else Result(s.(turns := s.turns - {turnId}),
                [TurnEvent(Payload(turnId, t, c.value, m.value))] + AcceptedLinesOf(turnId, t))
  }

  function SetTurn(s: State, turnId: string, t: Turn): State {
    s.(turns := s.turns[turnId := t])
  }

  // ---------------------------------------------------------------- reviews

  function RecordReview(summary: ReviewSummary, reviewer: Reviewer, outcome: FinalOutcome, r: PendingReview): ReviewSummary {
    ReviewSummary(
      summary.reviews + 1,
      summary.guardian + (if reviewer == Guardian then 1 else 0),
      summary.user + (if reviewer == User then 1 else 0),
      Some(outcome),
      summary.permissions || r.permissions,
      summary.network || r.network)
  }

  function SummaryOf(s: State, key: ItemKey): ReviewSummary {
    if key in s.summaries then s.summaries[key] else NO_REVIEWS
  }

  /** `emit_review_event`: the item's summary is kept even when the event has no context. */
  function EmitReview(s: State, r: PendingReview, reviewer: Reviewer, status: ReviewStatus, resolution: Resolution, at: nat): Result {
    var key := ReviewKey(r);
    var s' :=
      if key.None? then s else
      s.(summaries := s.summaries[key.value := RecordReview(SummaryOf(s, key.value), reviewer, FinalOutcomeOf(reviewer, status, resolution), r)]);
    Result(s', if ThreadContext(s', r.threadId).None? then [] else [ReviewEvent(r, reviewer, status, resolution, at)])
  }

  /** A user's answer settles the pending review of that id, whatever its kind. */
  function AnswerReview(s: State, requestId: RequestId, status: ReviewStatus, resolution: Resolution, at: nat): Result {
    if requestId !in s.pending then Result(s, [])
    else EmitReview(s.(pending := s.pending - {requestId}), s.pending[requestId], User, status, resolution, at)
  }

  // ---------------------------------------------------------------- items

  function CompleteItem(s: State, threadId: string, turnId: string, item: Item, completedAt: int): Result {
    if item.kind.UntrackedItem? || turnId !in s.turns then Result(s, []) else
    var t := s.turns[turnId];
    var s1 := SetTurn(s, turnId, t.(counts := RecordItem(t.counts, item.kind)));
    var key := ItemKey(threadId, turnId, item.id);
    if item.kind.SubAgentActivity? || key !in s1.started then Result(s1, []) else
    var s2 := s1.(started := s1.started - {key});
    if completedAt < 0 || ThreadContext(s2, threadId).None? then Result(s2, [])
    else Result(s2.(summaries := s2.summaries - {key}),
                if HasOutcome(item) then [ToolItemEvent(key, item, s1.started[key], completedAt, SummaryOf(s2, key))] else [])
  }

  // ---------------------------------------------------------------- requests

  function SteerEvent(s: State, connectionId: nat, r: Request, acceptedTurnId: Option<string>): seq<Event>
    requires r.TurnSteer?
  {
    if connectionId !in s.connections || ThreadMetadata(s, r.threadId).None? then []
    else [TurnSteerEvent(r.threadId, r.expectedTurnId, acceptedTurnId, r.images)]
  }

  function AnswerTurnStart(s: State, connectionId: nat, requestId: RequestId, turnId: string): Result {
    var id := (connectionId, requestId);
    var s1 := s.(requests := s.requests - {id});
    if id !in s.requests || !s.requests[id].TurnStart? then Result(s1, []) else
    var r := s.requests[id];
    MaybeEmitTurn(SetTurn(s1, turnId, TurnOf(s, turnId).(connectionId := Some(connectionId), threadId := Some(r.threadId), images := Some(r.images))), turnId)
  }

  function AnswerTurnSteer(s: State, connectionId: nat, requestId: RequestId, turnId: string): Result {
    var id := (connectionId, requestId);
    var s1 := s.(requests := s.requests - {id});
    if id !in s.requests || !s.requests[id].TurnSteer? then Result(s1, []) else
    var s2 := if turnId in s1.turns then SetTurn(s1, turnId, s1.turns[turnId].(steers := s1.turns[turnId].steers + 1)) else s1;
    Result(s2, SteerEvent(s2, connectionId, s.requests[id], Some(turnId)))
  }

  function FailRequest(s: State, connectionId: nat, requestId: RequestId): Result {
    var id := (connectionId, requestId);
    if id !in s.requests then Result(s, []) else
    var s1 := s.(requests := s.requests - {id});
    Result(s1, if s.requests[id].TurnSteer? then SteerEvent(s1, connectionId, s.requests[id], None) else [])
  }

  // ---------------------------------------------------------------- threads

  function ReadyThread(s: State, connectionId: nat, threadId: string, m: Metadata): Result {
    if connectionId !in s.connections then Result(s, [])
    else Result(s.(threads := s.threads[threadId := Thread(Some(connectionId), Some(m))]), [ThreadInitialized(threadId)])
  }

  /** A subagent thread keeps what is known of it and inherits its parent's connection. */
  function StartSubAgent(s: State, threadId: string, parent: Option<string>, m: Metadata): Result {
    var inherited := if parent.Some? && parent.value in s.threads then s.threads[parent.value].connectionId else None;
    var t := if threadId in s.threads then s.threads[threadId] else Thread(None, None);
    var t' := Thread(if t.connectionId.Some? then t.connectionId else inherited, if t.metadata.Some? then t.metadata else Some(m));
    Result(s.(threads := s.threads[threadId := t']), [ThreadInitialized(threadId)])
  }

  // ---------------------------------------------------------------- ingestion

  /** The fields a turn fact sets. */
  function ApplyTurnFact(t: Turn, f: TurnFact): Turn {
    match f
    case ResolvedConfig(threadId, images, config) =>
      t.(threadId := Some(threadId), images := Some(images), config := Some(config))
    case TokenUsage(threadId, tokens) => t.(threadId := Some(threadId), tokens := Some(tokens))
    case Profile(profile) => t.(profile := Some(profile))
    case CodexError(threadId, error) =>
      t.(threadId := if t.threadId.Some? then t.threadId else Some(threadId), error := Some(error))
    case TurnStarted(at) => t.(startedAt := if at.None? then None else Checked(at.value))
    case DiffUpdated(threadId, diff) => t.(threadId := Some(threadId), diff := Some(diff))
    case TurnCompleted(completion) => t.(completed := Some(completion))
  }

  /** The turn facts after which the source looks whether the turn can be emitted. */
  predicate ChecksForEmission(f: TurnFact) {
    f.ResolvedConfig? || f.TokenUsage? || f.Profile? || f.TurnCompleted?
  }

  function IngestTurnFact(s: State, turnId: string, f: TurnFact): Result {
    var s1 := SetTurn(s, turnId, ApplyTurnFact(TurnOf(s, turnId), f));
    if ChecksForEmission(f) then MaybeEmitTurn(s1, turnId) else Result(s1, [])
  }

  function IngestThreadFact(s: State, f: ThreadFact): Result {
    match f
    case ThreadReady(connectionId, threadId, m) => ReadyThread(s, connectionId, threadId, m)
    case SubAgentThreadStarted(threadId, parent, m) => StartSubAgent(s, threadId, parent, m)
    case Report(threadId, kind) => Result(s, if ThreadContext(s, threadId).None? then [] else [ReportEvent(threadId, kind)])
  }

  function IngestRequestFact(s: State, connectionId: nat, requestId: RequestId, f: RequestFact): Result {
    match f
    case TurnStartRequested(threadId, images) =>
      Result(s.(requests := s.requests[(connectionId, requestId) := TurnStart(threadId, images)]), [])
    case TurnSteerRequested(threadId, expected, images) =>
      Result(s.(requests := s.requests[(connectionId, requestId) := TurnSteer(threadId, expected, images)]), [])
    case TurnStartAnswered(turnId) => AnswerTurnStart(s, connectionId, requestId, turnId)
    case TurnSteerAnswered(turnId) => AnswerTurnSteer(s, connectionId, requestId, turnId)
    case RequestFailed => FailRequest(s, connectionId, requestId)
  }

  function IngestItemFact(s: State, f: ItemFact): Result {
    match f
    case ItemStarted(threadId, turnId, item, at) =>
      Result(if IsTracked(item.kind) && at >= 0 then s.(started := s.started[ItemKey(threadId, turnId, item.id) := at]) else s, [])
    case ItemCompleted(threadId, turnId, item, at) => CompleteItem(s, threadId, turnId, item, at)
  }

  /** The verdict that an answer to an approval request carries. */
  function AnswerResult(f: ReviewFact): (ReviewStatus, Resolution)
    requires !f.ApprovalRequested? && !f.GuardianCompleted?
  {
    match f
    case CommandAnswered(_, d, _) => DecisionResult(d)
    case FileAnswered(_, d, _) => DecisionResult(d)
    case PermissionsAnswered(_, granted, session, _) => PermissionsResult(granted, session)
    case ApprovalAborted(_, _) => (Aborted, NoResolution)
  }

  function IngestReviewFact(s: State, f: ReviewFact): Result {
    match f
    case ApprovalRequested(id, threadId, turnId, itemId, approval, at) =>
      Result(if at < 0 then s else s.(pending := s.pending[id := ApprovalReview(threadId, turnId, itemId, approval, at)]), [])
    case GuardianCompleted(threadId, turnId, itemId, action, status, startedAt, completedAt) =>
      if status.None? || startedAt < 0 || completedAt < 0 then Result(s, [])
      else EmitReview(s, GuardianReviewOf(threadId, turnId, itemId, action, startedAt), Guardian, status.value, NoResolution, completedAt)
    case _ => AnswerReview(s, f.requestId, AnswerResult(f).0, AnswerResult(f).1, f.answeredAt)
  }

  function Ingest(s: State, f: Fact): Result {
    match f
    case Initialize(connectionId, c) => Result(s.(connections := s.connections[connectionId := c]), [])
    case OnThread(tf) => IngestThreadFact(s, tf)
    case OnRequest(connectionId, requestId, rf) => IngestRequestFact(s, connectionId, requestId, rf)
    case OnTurn(turnId, tf) => IngestTurnFact(s, turnId, tf)
    case OnItem(itf) => IngestItemFact(s, itf)
    case OnReview(rf) => IngestReviewFact(s, rf)
  }

  /** A run: all facts in order, collecting the output. */
  function Run(s: State, facts: seq<Fact>): Result {
    if facts == [] then Result(s, []) else
    var r := Run(s, facts[..|facts| - 1]);
    var r' := Ingest(r.state, facts[|facts| - 1]);
    Result(r'.state, r.events + r'.events)
  }

  lemma RunSnoc(s: State, facts: seq<Fact>, f: Fact)
    ensures var r := Run(s, facts);
            Run(s, facts + [f]) == Result(Ingest(r.state, f).state, r.events + Ingest(r.state, f).events)
  {
    assert (facts + [f])[..|facts|] == facts;
  }

  // ---------------------------------------------------------------- which facts touch what

  /**
   What an emission looks like: nothing at all, or the turn's own event, at most one accepted-lines
   event after it, and the turn gone.
   */
  predicate EmissionShape(s: State, id: string, r: Result) {
    || r == Result(s, [])
    || (&& id in s.turns && IsComplete(s.turns[id]) && r.state == s.(turns := s.turns - {id})
        && 1 <= |r.events| <= 2
        && r.events[0].TurnEvent? && r.events[0].payload.turnId == id && r.events[0].payload.counts == s.turns[id].counts
        && (|r.events| == 2 ==> r.events[1].AcceptedLines? && r.events[1].turnId == id))
  }

  lemma EmissionHasShape(s: State, id: string)
    ensures EmissionShape(s, id, MaybeEmitTurn(s, id))
  {
  }

  lemma NoEmission(s: State, id: string)
    requires !IsComplete(TurnOf(s, id))
    ensures MaybeEmitTurn(s, id) == Result(s, [])
  {
  }

  lemma TurnFactEffect(s: State, turnId: string, f: TurnFact)
    ensures var r := IngestTurnFact(s, turnId, f);
            && r.state == s.(turns := r.state.turns)
            && forall i :: 0 <= i < |r.events| ==> r.events[i].TurnEvent? || r.events[i].AcceptedLines?
  {
  }

  lemma StartAnswerEffect(s: State, connectionId: nat, requestId: RequestId, turnId: string)
    ensures var r := AnswerTurnStart(s, connectionId, requestId, turnId);
            && r.state == s.(turns := r.state.turns, requests := r.state.requests)
            && forall i :: 0 <= i < |r.events| ==> r.events[i].TurnEvent? || r.events[i].AcceptedLines?
  {
  }

  lemma RequestFactEffect(s: State, connectionId: nat, requestId: RequestId, f: RequestFact)
    ensures var r := IngestRequestFact(s, connectionId, requestId, f);
            && r.state == s.(turns := r.state.turns, requests := r.state.requests)
            && (forall i :: 0 <= i < |r.events| ==> r.events[i].TurnEvent? || r.events[i].AcceptedLines? || r.events[i].TurnSteerEvent?)
            && (!f.TurnStartAnswered? ==> |r.events| <= 1 && forall i :: 0 <= i < |r.events| ==> r.events[i].TurnSteerEvent?)
  {
    if f.TurnStartAnswered? {
      StartAnswerEffect(s, connectionId, requestId, f.turnId);
    }
  }

  lemma ThreadFactEffect(s: State, f: ThreadFact)
    ensures var r := IngestThreadFact(s, f);
            && r.state == s.(threads := r.state.threads) && |r.events| <= 1
            && forall i :: 0 <= i < |r.events| ==> r.events[i].ThreadInitialized? || r.events[i].ReportEvent?
  {
  }

  lemma ItemFactEffect(s: State, f: ItemFact)
    ensures var r := IngestItemFact(s, f);
            && r.state == s.(turns := r.state.turns, started := r.state.started, summaries := r.state.summaries)
            && |r.events| <= 1
            && forall i :: 0 <= i < |r.events| ==> r.events[i].ToolItemEvent?
  {
  }

  lemma EmitReviewEffect(s: State, r: PendingReview, who: Reviewer, status: ReviewStatus, resolution: Resolution, at: nat)
    ensures var res := EmitReview(s, r, who, status, resolution, at);
            && res.state == s.(summaries := res.state.summaries) && |res.events| <= 1
            && forall i :: 0 <= i < |res.events| ==> res.events[i].ReviewEvent?
  {
  }

  lemma ReviewFactEffect(s: State, f: ReviewFact)
    ensures var r := IngestReviewFact(s, f);
            && r.state == s.(pending := r.state.pending, summaries := r.state.summaries) && |r.events| <= 1
            && forall i :: 0 <= i < |r.events| ==> r.events[i].ReviewEvent?
  {
    match f
    case ApprovalRequested(_, _, _, _, _, _) =>
    case GuardianCompleted(threadId, turnId, itemId, action, status, startedAt, completedAt) =>
      if status.Some? && startedAt >= 0 && completedAt >= 0 {
        EmitReviewEffect(s, GuardianReviewOf(threadId, turnId, itemId, action, startedAt), Guardian, status.value, NoResolution, completedAt);
      }
    case _ =>
      if f.requestId in s.pending {
        EmitReviewEffect(s.(pending := s.pending - {f.requestId}), s.pending[f.requestId], User, AnswerResult(f).0, AnswerResult(f).1, f.answeredAt);
      }
  }
}
