/**
 The reducer as the code has it: an object with seven maps that every kind of fact updates in
 place, and an output it appends to. `Valid` ties the object to the run of the facts it has
 ingested, so every result about runs holds of it.
 */
module ReducerObject {
  import opened Basics
  import opened Reducer

  class AnalyticsReducer {
    var requests: map<(nat, RequestId), Request>
    var turns: map<string, Turn>
    var connections: map<nat, Connection>
    var threads: map<string, Thread>
    var toolItemsStartedAt: map<ItemKey, nat>
    var pendingReviews: map<RequestId, PendingReview>
    var itemReviewSummaries: map<ItemKey, ReviewSummary>
    var out: seq<Event>
    ghost var facts: seq<Fact>

    ghost function View(): State
      reads this
    {
      State(requests, turns, connections, threads, toolItemsStartedAt, pendingReviews, itemReviewSummaries)
    }

    /** The maps and output are what the ingested facts make of an empty reducer. */
    ghost predicate Valid()
      reads this
    {
      Result(View(), out) == Run(EMPTY, facts)
    }

    /** The object has gone from `before` to what `r` says. */
    ghost predicate Did(before: seq<Event>, r: Result)
      reads this
    {
      View() == r.state && out == before + r.events
    }

    constructor ()
      ensures Valid() && facts == []
    {
      requests, turns, connections, threads := map[], map[], map[], map[];
      toolItemsStartedAt, pendingReviews, itemReviewSummaries := map[], map[], map[];
      out, facts := [], [];
    }

    // ---------------------------------------------------------------- context

    method ThreadConnectionOrWarn(threadId: string) returns (c: Option<Connection>)
      ensures c == ThreadConnection(View(), threadId)
    {
      if threadId !in threads { return None; }
      var id := threads[threadId].connectionId;
      if id.None? { return None; }
      if id.value !in connections { return None; }
      c := Some(connections[id.value]);
    }

    method ThreadContextOrWarn(threadId: string) returns (c: Option<Context>)
      ensures c == ThreadContext(View(), threadId)
    {
      var connection := ThreadConnectionOrWarn(threadId);
      if connection.None? { return None; }
      var metadata := if threadId in threads then threads[threadId].metadata else None;
      if metadata.None? { return None; }
      c := Some(Context(connection.value, metadata.value));
    }

    // ---------------------------------------------------------------- threads

    method EmitThreadInitialized(connectionId: nat, threadId: string, metadata: Metadata)
      modifies this`threads, this`out
      ensures Did(old(out), ReadyThread(old(View()), connectionId, threadId, metadata))
    {
      if connectionId !in connections { return; }
      threads := threads[threadId := Thread(Some(connectionId), Some(metadata))];
      out := out + [ThreadInitialized(threadId)];
    }

    method IngestSubagentThreadStarted(threadId: string, parentThreadId: Option<string>, metadata: Metadata)
      modifies this`threads, this`out
      ensures Did(old(out), StartSubAgent(old(View()), threadId, parentThreadId, metadata))
    {
      var parentConnectionId := None;
      if parentThreadId.Some? && parentThreadId.value in threads {
        parentConnectionId := threads[parentThreadId.value].connectionId;
      }
      var thread := if threadId in threads then threads[threadId] else Thread(None, None);
      if thread.metadata.None? {
        thread := thread.(metadata := Some(metadata));
      }
      if thread.connectionId.None? {
        thread := thread.(connectionId := parentConnectionId);
      }
      threads := threads[threadId := thread];
      out := out + [ThreadInitialized(threadId)];
    }

    method IngestReport(threadId: string, report: ReportKind)
      modifies this`out
      ensures Did(old(out), IngestThreadFact(old(View()), Report(threadId, report)))
    {
      var context := ThreadContextOrWarn(threadId);
      if context.None? { return; }
      out := out + [ReportEvent(threadId, report)];
    }

    // ---------------------------------------------------------------- turns

    method MaybeEmitTurnEvent(turnId: string)
      modifies this`turns, this`out
      ensures Did(old(out), MaybeEmitTurn(old(View()), turnId))
    {
      if turnId !in turns { return; }
      var turn := turns[turnId];
      if turn.threadId.None? || turn.images.None? || turn.config.None? || turn.profile.None? || turn.completed.None? {
        return;
      }
      var threadId := turn.threadId.value;
      var connectionId := turn.connectionId;
      if connectionId.None? && threadId in threads {
        connectionId := threads[threadId].connectionId;
      }
      if connectionId.None? { return; }
      if connectionId.value !in connections { return; }
      if threadId !in threads || threads[threadId].metadata.None? { return; }
      out := out + [TurnEvent(Payload(turnId, turn, connections[connectionId.value], threads[threadId].metadata.value))];
      out := out + AcceptedLinesOf(turnId, turn);
      turns := turns - {turnId};
    }

    method IngestTurnInput(turnId: string, fact: TurnFact)
      modifies this`turns, this`out
      ensures Did(old(out), IngestTurnFact(old(View()), turnId, fact))
    {
      var turn := if turnId in turns then turns[turnId] else NEW_TURN;
      match fact {
        case ResolvedConfig(threadId, images, config) =>
          turn := turn.(threadId := Some(threadId));
          turn := turn.(images := Some(images));
          turn := turn.(config := Some(config));
        case TokenUsage(threadId, tokens) =>
          turn := turn.(threadId := Some(threadId));
          turn := turn.(tokens := Some(tokens));
        case Profile(profile) =>
          turn := turn.(profile := Some(profile));
        case CodexError(threadId, error) =>
          if turn.threadId.None? { turn := turn.(threadId := Some(threadId)); }
          turn := turn.(error := Some(error));
        case TurnStarted(at) =>
          turn := turn.(startedAt := if at.Some? && at.value >= 0 then Some(at.value) else None);
        case DiffUpdated(threadId, diff) =>
          turn := turn.(threadId := Some(threadId));
          turn := turn.(diff := Some(diff));
        case TurnCompleted(completion) =>
          turn := turn.(completed := Some(completion));
      }
      turns := turns[turnId := turn];
      if !fact.CodexError? && !fact.TurnStarted? && !fact.DiffUpdated? {
        MaybeEmitTurnEvent(turnId);
      }
    }

    // ---------------------------------------------------------------- requests

    method IngestTurnStartResponse(connectionId: nat, requestId: RequestId, turnId: string)
      modifies this`requests, this`turns, this`out
      ensures Did(old(out), AnswerTurnStart(old(View()), connectionId, requestId, turnId))
    {
      var id := (connectionId, requestId);
      var known := id in requests && requests[id].TurnStart?;
      var request := if known then requests[id] else TurnStart("", 0);
      requests := requests - {id};
      if !known { return; }
      var turn := if turnId in turns then turns[turnId] else NEW_TURN;
      turns := turns[turnId := turn.(connectionId := Some(connectionId), threadId := Some(request.threadId), images := Some(request.images))];
      MaybeEmitTurnEvent(turnId);
    }

    method EmitTurnSteerEvent(connectionId: nat, request: Request, acceptedTurnId: Option<string>)
      requires request.TurnSteer?
      modifies this`out
      ensures out == old(out) + SteerEvent(View(), connectionId, request, acceptedTurnId)
    {
      if connectionId !in connections { return; }
      if request.threadId !in threads || threads[request.threadId].metadata.None? { return; }
      out := out + [TurnSteerEvent(request.threadId, request.expectedTurnId, acceptedTurnId, request.images)];
    }

    method IngestTurnSteerResponse(connectionId: nat, requestId: RequestId, turnId: string)
      modifies this`requests, this`turns, this`out
      ensures Did(old(out), AnswerTurnSteer(old(View()), connectionId, requestId, turnId))
    {
      var id := (connectionId, requestId);
      var known := id in requests && requests[id].TurnSteer?;
      var request := if known then requests[id] else TurnSteer("", "", 0);
      requests := requests - {id};
      if !known { return; }
      if turnId in turns {
        turns := turns[turnId := turns[turnId].(steers := turns[turnId].steers + 1)];
      }
      EmitTurnSteerEvent(connectionId, request, Some(turnId));
    }

    method IngestErrorResponse(connectionId: nat, requestId: RequestId)
      modifies this`requests, this`out
      ensures Did(old(out), FailRequest(old(View()), connectionId, requestId))
    {
      var id := (connectionId, requestId);
      if id !in requests { return; }
      var request := requests[id];
      requests := requests - {id};
      if request.TurnSteer? {
        EmitTurnSteerEvent(connectionId, request, None);
      }
    }

    // ---------------------------------------------------------------- reviews

    method RecordItemReviewSummary(key: ItemKey, reviewer: Reviewer, status: ReviewStatus, resolution: Resolution, review: PendingReview)
      modifies this`itemReviewSummaries
      ensures itemReviewSummaries ==
              old(itemReviewSummaries)[key := RecordReview(old(SummaryOf(View(), key)), reviewer, FinalOutcomeOf(reviewer, status, resolution), review)]
    {
      var summary := if key in itemReviewSummaries then itemReviewSummaries[key] else NO_REVIEWS;
      summary := summary.(reviews := summary.reviews + 1);
      match reviewer {
        case Guardian => summary := summary.(guardian := summary.guardian + 1);
        case User => summary := summary.(user := summary.user + 1);
      }
      summary := summary.(outcome := Some(FinalOutcomeOf(reviewer, status, resolution)));
      summary := summary.(permissions := summary.permissions || review.permissions);
      summary := summary.(network := summary.network || review.network);
      itemReviewSummaries := itemReviewSummaries[key := summary];
    }

    method EmitReviewEvent(review: PendingReview, reviewer: Reviewer, status: ReviewStatus, resolution: Resolution, completedAt: nat)
      modifies this`itemReviewSummaries, this`out
      ensures Did(old(out), EmitReview(old(View()), review, reviewer, status, resolution, completedAt))
    {
      var key := ReviewKey(review);
      if key.Some? {
        RecordItemReviewSummary(key.value, reviewer, status, resolution, review);
      }
      var context := ThreadContextOrWarn(review.threadId);
      if context.None? { return; }
      out := out + [ReviewEvent(review, reviewer, status, resolution, completedAt)];
    }

    method IngestServerAnswer(requestId: RequestId, status: ReviewStatus, resolution: Resolution, completedAt: nat)
      modifies this`pendingReviews, this`itemReviewSummaries, this`out
      ensures Did(old(out), AnswerReview(old(View()), requestId, status, resolution, completedAt))
    {
      if requestId !in pendingReviews { return; }
      var review := pendingReviews[requestId];
      pendingReviews := pendingReviews - {requestId};
      EmitReviewEvent(review, User, status, resolution, completedAt);
    }

    method IngestReview(fact: ReviewFact)
      modifies this`pendingReviews, this`itemReviewSummaries, this`out
      ensures Did(old(out), IngestReviewFact(old(View()), fact))
    {
      match fact
      case ApprovalRequested(requestId, threadId, turnId, itemId, approval, startedAt) =>
        if startedAt < 0 { return; }
        pendingReviews := pendingReviews[requestId := ApprovalReview(threadId, turnId, itemId, approval, startedAt)];
      case GuardianCompleted(threadId, turnId, targetItemId, action, status, startedAt, completedAt) =>
        if status.None? || startedAt < 0 || completedAt < 0 { return; }
        EmitReviewEvent(GuardianReviewOf(threadId, turnId, targetItemId, action, startedAt), Guardian, status.value, NoResolution, completedAt);
      case _ =>
        var (status, resolution) := AnswerResult(fact);
        IngestServerAnswer(fact.requestId, status, resolution, fact.answeredAt);
    }

    // ---------------------------------------------------------------- items

    method IngestItemCompleted(threadId: string, turnId: string, item: Item, completedAt: int)
      modifies this`turns, this`toolItemsStartedAt, this`itemReviewSummaries, this`out
      ensures Did(old(out), CompleteItem(old(View()), threadId, turnId, item, completedAt))
    {
      if item.kind.UntrackedItem? || turnId !in turns { return; }
      var turn := turns[turnId];
      turns := turns[turnId := turn.(counts := RecordItem(turn.counts, item.kind))];
      if item.kind.SubAgentActivity? { return; }
      var key := ItemKey(threadId, turnId, item.id);
      if key !in toolItemsStartedAt { return; }
      var startedAt := toolItemsStartedAt[key];
      toolItemsStartedAt := toolItemsStartedAt - {key};
      if completedAt < 0 { return; }
      var context := ThreadContextOrWarn(threadId);
      if context.None? { return; }
      if HasOutcome(item) {
        var summary := if key in itemReviewSummaries then itemReviewSummaries[key] else NO_REVIEWS;
        out := out + [ToolItemEvent(key, item, startedAt, completedAt, summary)];
      }
      itemReviewSummaries := itemReviewSummaries - {key};
    }

    method IngestItemStarted(threadId: string, turnId: string, item: Item, startedAt: int)
      modifies this`toolItemsStartedAt
      ensures Did(old(out), IngestItemFact(old(View()), ItemStarted(threadId, turnId, item, startedAt)))
    {
      if !IsTracked(item.kind) { return; }
      if startedAt < 0 { return; }
      toolItemsStartedAt := toolItemsStartedAt[ItemKey(threadId, turnId, item.id) := startedAt];
    }

    // ---------------------------------------------------------------- ingestion

    method IngestRequest(connectionId: nat, requestId: RequestId, fact: RequestFact)
      modifies this`requests, this`turns, this`out
      ensures Did(old(out), IngestRequestFact(old(View()), connectionId, requestId, fact))
    {
      match fact
      case TurnStartRequested(threadId, images) =>
        requests := requests[(connectionId, requestId) := TurnStart(threadId, images)];
      case TurnSteerRequested(threadId, expectedTurnId, images) =>
        requests := requests[(connectionId, requestId) := TurnSteer(threadId, expectedTurnId, images)];
      case TurnStartAnswered(turnId) => IngestTurnStartResponse(connectionId, requestId, turnId);
      case TurnSteerAnswered(turnId) => IngestTurnSteerResponse(connectionId, requestId, turnId);
      case RequestFailed => IngestErrorResponse(connectionId, requestId);
    }

    /** One fact: the object performs exactly one more step of its run. */
    method Ingest(fact: Fact)
      requires Valid()
      modifies this
      ensures Valid() && facts == old(facts) + [fact]
    {
      RunSnoc(EMPTY, facts, fact);
      facts := facts + [fact];
      match fact
      case Initialize(connectionId, connection) => connections := connections[connectionId := connection];
      case OnThread(ThreadReady(connectionId, threadId, metadata)) => EmitThreadInitialized(connectionId, threadId, metadata);
      case OnThread(SubAgentThreadStarted(threadId, parent, metadata)) => IngestSubagentThreadStarted(threadId, parent, metadata);
      case OnThread(Report(threadId, report)) => IngestReport(threadId, report);
      case OnRequest(connectionId, requestId, requestFact) => IngestRequest(connectionId, requestId, requestFact);
      case OnTurn(turnId, turnFact) => IngestTurnInput(turnId, turnFact);
      case OnItem(ItemStarted(threadId, turnId, item, at)) => IngestItemStarted(threadId, turnId, item, at);
      case OnItem(ItemCompleted(threadId, turnId, item, at)) => IngestItemCompleted(threadId, turnId, item, at);
      case OnReview(reviewFact) => IngestReview(reviewFact);
    }
  }
}
