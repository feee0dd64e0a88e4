/**
 Reviews: what the reducer reports about the reviews of an item, and where every approval
 request went, both said in terms of the facts that arrived and not of the maps.
 */
module ReducerReviews {
  import opened Basics
  import opened Reducer
  import opened ReducerContext

  // ---------------------------------------------------------------- reading the history

  /** An approval request with a usable time is accepted under its id. */
  predicate Accepts(f: Fact, id: RequestId) {
    f.OnReview? && f.reviewFact.ApprovalRequested? && f.reviewFact.requestId == id && f.reviewFact.startedAt >= 0
  }

  predicate IsAnswer(f: Fact) {
    f.OnReview? && !f.reviewFact.ApprovalRequested? && !f.reviewFact.GuardianCompleted?
  }

  predicate Answers(f: Fact, id: RequestId) {
    IsAnswer(f) && f.reviewFact.requestId == id
  }

  function Requested(f: ReviewFact): PendingReview
    requires f.ApprovalRequested? && f.startedAt >= 0
  {
    ApprovalReview(f.threadId, f.turnId, f.itemId, f.approval, f.startedAt)
  }

  /** The latest approval request under an id that nothing has answered since. */
  function Outstanding(facts: seq<Fact>, id: RequestId): Option<PendingReview> {
    if facts == [] then None else
    var f := facts[|facts| - 1];
    if Accepts(f, id) then Some(Requested(f.reviewFact))
    else if Answers(f, id) then None
    else Outstanding(facts[..|facts| - 1], id)
  }

  /** A review that came to an end. */
  datatype Ended = Ended(review: PendingReview, reviewer: Reviewer, status: ReviewStatus, resolution: Resolution, at: nat)

  /** The review that fact `f` ends, after the facts `before`. */
  function EndedBy(before: seq<Fact>, f: Fact): Option<Ended> {
    match f
    case OnReview(ApprovalRequested(_, _, _, _, _, _)) => None
    case OnReview(GuardianCompleted(threadId, turnId, itemId, action, status, startedAt, completedAt)) =>
      if status.None? || startedAt < 0 || completedAt < 0 then None
      else Some(Ended(GuardianReviewOf(threadId, turnId, itemId, action, startedAt), Guardian, status.value, NoResolution, completedAt))
    case OnReview(rf) =>
      var o := Outstanding(before, rf.requestId);
      if o.None? then None else Some(Ended(o.value, User, AnswerResult(rf).0, AnswerResult(rf).1, rf.answeredAt))
    case _ => None
  }

  /** Facts other than reviews leave the pending reviews alone. */
  lemma OthersSparePending(s: State, f: Fact)
    requires !f.OnReview?
    ensures Ingest(s, f).state.pending == s.pending
  {
    match f
    case Initialize(_, _) =>
    case OnTurn(id, tf) => TurnFactEffect(s, id, tf);
    case OnRequest(c, q, rf) => RequestFactEffect(s, c, q, rf);
    case OnThread(tf) => ThreadFactEffect(s, tf);
    case OnItem(itf) => ItemFactEffect(s, itf);
  }

  function Pending(s: State, id: RequestId): Option<PendingReview> {
    if id in s.pending then Some(s.pending[id]) else None
  }

  lemma AnswerPending(s: State, f: ReviewFact, id: RequestId)
    requires IsAnswer(OnReview(f))
    ensures Pending(IngestReviewFact(s, f).state, id) == if f.requestId == id then None else Pending(s, id)
  {
    if f.requestId in s.pending {
      EmitReviewEffect(s.(pending := s.pending - {f.requestId}), s.pending[f.requestId], User, AnswerResult(f).0, AnswerResult(f).1, f.answeredAt);
    }
  }

  lemma GuardianPending(s: State, f: ReviewFact)
    requires f.GuardianCompleted?
    ensures IngestReviewFact(s, f).state.pending == s.pending
  {
    if f.status.Some? && f.startedAt >= 0 && f.completedAt >= 0 {
      EmitReviewEffect(s, GuardianReviewOf(f.threadId, f.turnId, f.targetItemId, f.action, f.startedAt), Guardian, f.status.value, NoResolution, f.completedAt);
    }
  }

  lemma RequestPending(s: State, f: ReviewFact, id: RequestId)
    requires f.ApprovalRequested?
    ensures Pending(IngestReviewFact(s, f).state, id) ==
            if f.requestId == id && f.startedAt >= 0 then Some(Requested(f)) else Pending(s, id)
  {
  }

  lemma StepPending(s: State, f: Fact, id: RequestId)
    ensures Pending(Ingest(s, f).state, id) ==
            if Accepts(f, id) then Some(Requested(f.reviewFact)) else if Answers(f, id) then None else Pending(s, id)
  {
    if !f.OnReview? {
      OthersSparePending(s, f);
    } else if IsAnswer(f) {
      AnswerPending(s, f.reviewFact, id);
    } else if f.reviewFact.GuardianCompleted? {
      GuardianPending(s, f.reviewFact);
    } else {
      RequestPending(s, f.reviewFact, id);
    }
  }

  /** The pending map holds exactly the outstanding requests of the history. */
  lemma {:induction false} PendingIsOutstanding(facts: seq<Fact>, id: RequestId)
    ensures Pending(Run(EMPTY, facts).state, id) == Outstanding(facts, id)
    decreases facts
  {
    if facts != [] {
      PendingIsOutstanding(facts[..|facts| - 1], id);
      StepPending(Run(EMPTY, facts[..|facts| - 1]).state, facts[|facts| - 1], id);
    }
  }

  // ---------------------------------------------------------------- review events

  /**
   On every run, a review fact emits exactly the event of the review it ends, if the thread of that
   review has a connection, and nothing otherwise.
   */
  lemma ReviewEventExactly(before: seq<Fact>, f: Fact)
    requires f.OnReview?
    ensures var s := Run(EMPTY, before).state;
            Ingest(s, f).events ==
              match EndedBy(before, f)
              case None => []
              case Some(e) => if HasConnection(s, e.review.threadId) then [ReviewEvent(e.review, e.reviewer, e.status, e.resolution, e.at)] else []
  {
    var s := Run(EMPTY, before).state;
    RunKeepsContext(EMPTY, before);
    if IsAnswer(f) {
      PendingIsOutstanding(before, f.reviewFact.requestId);
    }
  }

  // ---------------------------------------------------------------- summaries

  /** The items that have events of their own. */
  const TRACKED: set<ItemKind> := {CommandItem, FileItem, McpItem, DynamicItem, CollabItem, WebSearchItem, ImageItem}

  /** A review that belongs to an item: of a command, file change or MCP call, with that item's id. */
  predicate Concerns(r: PendingReview, key: ItemKey) {
    && r.subject in {CommandExecution, FileChange, McpToolCall}
    && r.threadId == key.threadId && r.turnId == key.turnId && r.itemId == Some(key.itemId)
  }

  /** What the final outcome of an item says about its last review. */
  predicate Names(o: FinalOutcome, who: Reviewer, status: ReviewStatus, resolution: Resolution) {
    && (who == Guardian <==> o in {GuardianApproved, GuardianDenied, GuardianAborted})
    && (status == Approved <==> o in {GuardianApproved, UserApproved, UserApprovedForSession})
    && (status == Denied <==> o in {GuardianDenied, UserDenied})
    && (who == User && status == Approved && resolution == SessionApproval <==> o == UserApprovedForSession)
  }

  /** Fact `f` completes the item `key` and clears its summary. */
  predicate Clears(s: State, f: Fact, key: ItemKey) {
    match f
    case OnItem(ItemCompleted(threadId, turnId, item, at)) =>
      && key == ItemKey(threadId, turnId, item.id) && item.kind in TRACKED && turnId in s.turns
      && key in s.started && at >= 0 && HasConnection(s, threadId)
    case _ => false
  }

  function EndedFor(before: seq<Fact>, f: Fact, key: ItemKey): seq<Ended> {
    match EndedBy(before, f)
    case None => []
    case Some(e) => if Concerns(e.review, key) then [e] else []
  }

  /** The command, file-change and MCP reviews of an item that ended since its summary was last cleared. */
  function Since(facts: seq<Fact>, key: ItemKey): seq<Ended> {
    if facts == [] then [] else
    var before, f := facts[..|facts| - 1], facts[|facts| - 1];
    if Clears(Run(EMPTY, before).state, f, key) then [] else Since(before, key) + EndedFor(before, f, key)
  }

  function CountBy(es: seq<Ended>, who: Reviewer): nat {
    if es == [] then 0 else CountBy(es[..|es| - 1], who) + if es[|es| - 1].reviewer == who then 1 else 0
  }

  /** What a summary has to say about a list of reviews. */
  predicate Summarizes(r: ReviewSummary, es: seq<Ended>) {
    && r.reviews == |es| && r.guardian == CountBy(es, Guardian) && r.user == CountBy(es, User)
    && r.reviews == r.guardian + r.user
    && (r.outcome.None? <==> es == [])
    && (es != [] ==> var e := es[|es| - 1]; Names(r.outcome.value, e.reviewer, e.status, e.resolution))
    && (r.permissions <==> exists i :: 0 <= i < |es| && es[i].review.permissions)
    && (r.network <==> exists i :: 0 <= i < |es| && es[i].review.network)
  }

  lemma SummarizesSnoc(r: ReviewSummary, es: seq<Ended>, e: Ended)
    requires Summarizes(r, es)
    ensures Summarizes(Recorded(r, e), es + [e])
  {
    var all := es + [e];
    assert all[..|all| - 1] == es && all[|es|] == e;
    assert forall i :: 0 <= i < |es| ==> all[i] == es[i];
    var r' := Recorded(r, e);
    assert r.permissions ==> exists i :: 0 <= i < |all| && all[i].review.permissions by {
      if r.permissions {
        var i :| 0 <= i < |es| && es[i].review.permissions;
        assert all[i].review.permissions;
      }
    }
    assert r.network ==> exists i :: 0 <= i < |all| && all[i].review.network by {
      if r.network {
        var i :| 0 <= i < |es| && es[i].review.network;
        assert all[i].review.network;
      }
    }
    assert r'.reviews == |all|;
  }

  /** A summary after a review that ended. */
  function Recorded(r: ReviewSummary, e: Ended): ReviewSummary {
    RecordReview(r, e.reviewer, FinalOutcomeOf(e.reviewer, e.status, e.resolution), e.review)
  }

  lemma EmissionSummary(s: State, e: Ended, key: ItemKey)
    ensures SummaryOf(EmitReview(s, e.review, e.reviewer, e.status, e.resolution, e.at).state, key) ==
            if Concerns(e.review, key) then Recorded(SummaryOf(s, key), e) else SummaryOf(s, key)
  {
  }

  /** A review fact records the review it ends. */
  lemma ReviewSummarized(before: seq<Fact>, f: Fact, key: ItemKey)
    requires f.OnReview?
    ensures var s := Run(EMPTY, before).state;
            var es := EndedFor(before, f, key);
            SummaryOf(Ingest(s, f).state, key) == if es == [] then SummaryOf(s, key) else Recorded(SummaryOf(s, key), es[0])
  {
    var s := Run(EMPTY, before).state;
    if IsAnswer(f) {
      var id := f.reviewFact.requestId;
      PendingIsOutstanding(before, id);
      if id in s.pending {
        EmissionSummary(s.(pending := s.pending - {id}), EndedBy(before, f).value, key);
      }
    } else if EndedBy(before, f).Some? {
      EmissionSummary(s, EndedBy(before, f).value, key);
    }
  }

  lemma ItemSummary(s: State, f: ItemFact, key: ItemKey)
    requires ContextInv(s)
    ensures SummaryOf(IngestItemFact(s, f).state, key) == if Clears(s, OnItem(f), key) then NO_REVIEWS else SummaryOf(s, key)
  {
  }

  /** How one fact changes an item's summary. */
  lemma StepSummary(before: seq<Fact>, f: Fact, key: ItemKey)
    ensures var s := Run(EMPTY, before).state;
            var es := EndedFor(before, f, key);
            SummaryOf(Ingest(s, f).state, key) ==
              if Clears(s, f, key) then NO_REVIEWS
              else if es == [] then SummaryOf(s, key)
              else Recorded(SummaryOf(s, key), es[0])
  {
    var s := Run(EMPTY, before).state;
    RunKeepsContext(EMPTY, before);
    match f
    case Initialize(_, _) =>
    case OnReview(_) => ReviewSummarized(before, f, key);
    case OnItem(itf) => ItemSummary(s, itf, key);
    case OnTurn(id, tf) => TurnFactEffect(s, id, tf);
    case OnRequest(c, q, rf) => RequestFactEffect(s, c, q, rf);
    case OnThread(tf) => ThreadFactEffect(s, tf);
  }

  /**
   Review accounting, on every run: an item's summary counts the command, file-change and MCP
   reviews that ended for exactly that thread, turn and item since the summary was last cleared,
   by reviewer, and carries the outcome of the last and the requests of all of them.
   */
  lemma {:induction false} ReviewAccounting(facts: seq<Fact>, key: ItemKey)
    ensures Summarizes(SummaryOf(Run(EMPTY, facts).state, key), Since(facts, key))
    decreases facts
  {
    if facts != [] {
      var before, f := facts[..|facts| - 1], facts[|facts| - 1];
      var s := Run(EMPTY, before).state;
      ReviewAccounting(before, key);
      StepSummary(before, f, key);
      var es := EndedFor(before, f, key);
      if !Clears(s, f, key) {
        if es == [] {
          assert Since(facts, key) == Since(before, key);
        } else {
          assert es == [es[0]];
          SummarizesSnoc(SummaryOf(s, key), Since(before, key), es[0]);
        }
      }
    }
  }

  /** Only item facts emit tool-item events. */
  lemma OnlyItemsEmit(s: State, f: Fact, e: Event)
    requires e in Ingest(s, f).events && e.ToolItemEvent?
    ensures f.OnItem?
  {
    match f
    case Initialize(_, _) =>
    case OnItem(_) =>
    case OnReview(rf) => ReviewFactEffect(s, rf);
    case OnTurn(id, tf) => TurnFactEffect(s, id, tf);
    case OnRequest(c, q, rf) => RequestFactEffect(s, c, q, rf);
    case OnThread(tf) => ThreadFactEffect(s, tf);
  }

  lemma ItemEventCarries(s: State, f: ItemFact, e: Event)
    requires ContextInv(s) && e in IngestItemFact(s, f).events && e.ToolItemEvent?
    ensures Clears(s, OnItem(f), e.key) && e.summary == SummaryOf(s, e.key)
  {
  }

  /** Every tool-item event reports the reviews since the last clear, and is such a clear itself. */
  lemma ToolItemReports(before: seq<Fact>, f: Fact, e: Event)
    requires e in Ingest(Run(EMPTY, before).state, f).events && e.ToolItemEvent?
    ensures Summarizes(e.summary, Since(before, e.key)) && Clears(Run(EMPTY, before).state, f, e.key)
    ensures Since(before + [f], e.key) == []
  {
    var s := Run(EMPTY, before).state;
    RunKeepsContext(EMPTY, before);
    OnlyItemsEmit(s, f, e);
    ItemEventCarries(s, f.itemFact, e);
    ReviewAccounting(before, e.key);
    SinceCleared(before, f, e.key);
  }

  lemma SinceCleared(before: seq<Fact>, f: Fact, key: ItemKey)
    requires Clears(Run(EMPTY, before).state, f, key)
    ensures Since(before + [f], key) == []
  {
    assert (before + [f])[..|before|] == before;
  }

  /** Fact `i` of a run makes the event `e`, which reports the reviews since the last clear before it. */
  predicate ReportedAt(facts: seq<Fact>, i: nat, e: Event) {
    && i < |facts| && e.ToolItemEvent?
    && Summarizes(e.summary, Since(facts[..i], e.key)) && Clears(Run(EMPTY, facts[..i]).state, facts[i], e.key)
  }

  lemma ReportedInPrefix(facts: seq<Fact>, n: nat, i: nat, e: Event)
    requires n <= |facts| && ReportedAt(facts[..n], i, e)
    ensures ReportedAt(facts, i, e)
  {
    assert facts[..n][..i] == facts[..i];
  }

  /** The same for the output of a whole run. */
  lemma {:induction false} EveryToolItemReports(facts: seq<Fact>, e: Event)
    requires e in Run(EMPTY, facts).events && e.ToolItemEvent?
    ensures exists i: nat :: ReportedAt(facts, i, e)
    decreases facts
  {
    var n := |facts| - 1;
    var before := facts[..n];
    if e in Run(EMPTY, before).events {
      EveryToolItemReports(before, e);
      var i: nat :| ReportedAt(before, i, e);
      ReportedInPrefix(facts, n, i, e);
    } else {
      ToolItemReports(before, facts[n], e);
      assert ReportedAt(facts, n, e);
    }
  }

  // ---------------------------------------------------------------- tool items

  /** A start that is recorded under `key`. */
  predicate StartsItem(f: Fact, key: ItemKey) {
    && f.OnItem? && f.itemFact.ItemStarted? && f.itemFact.item.kind in TRACKED && f.itemFact.startedAt >= 0
    && key == ItemKey(f.itemFact.threadId, f.itemFact.turnId, f.itemFact.item.id)
  }

  /** A completion that uses up the start under `key`. */
  predicate UsesStart(s: State, f: Fact, key: ItemKey) {
    && f.OnItem? && f.itemFact.ItemCompleted? && f.itemFact.item.kind in TRACKED && f.itemFact.turnId in s.turns
    && key == ItemKey(f.itemFact.threadId, f.itemFact.turnId, f.itemFact.item.id)
  }

  /** The time of the latest start of an item that no completion has used since. */
  function OpenStart(facts: seq<Fact>, key: ItemKey): Option<nat> {
    if facts == [] then None else
    var before, f := facts[..|facts| - 1], facts[|facts| - 1];
    if StartsItem(f, key) then Some(f.itemFact.startedAt)
    else if UsesStart(Run(EMPTY, before).state, f, key) then None
    else OpenStart(before, key)
  }

  function StartedAt(s: State, key: ItemKey): Option<nat> {
    if key in s.started then Some(s.started[key]) else None
  }

  lemma ItemStarts(s: State, f: ItemFact, key: ItemKey)
    ensures StartedAt(IngestItemFact(s, f).state, key) ==
            if StartsItem(OnItem(f), key) then Some(f.startedAt)
            else if UsesStart(s, OnItem(f), key) then None
            else StartedAt(s, key)
  {
    if f.ItemCompleted? { CompletionStarts(s, f, key); }
  }

  lemma CompletionStarts(s: State, f: ItemFact, key: ItemKey)
    requires f.ItemCompleted?
    ensures StartedAt(CompleteItem(s, f.threadId, f.turnId, f.item, f.completedAt).state, key) ==
            if UsesStart(s, OnItem(f), key) then None else StartedAt(s, key)
  {
  }

  lemma OthersSpareStarts(s: State, f: Fact)
    requires !f.OnItem?
    ensures Ingest(s, f).state.started == s.started
  {
    match f
    case Initialize(_, _) =>
    case OnReview(rf) => ReviewFactEffect(s, rf);
    case OnTurn(id, tf) => TurnFactEffect(s, id, tf);
    case OnRequest(c, q, rf) => RequestFactEffect(s, c, q, rf);
    case OnThread(tf) => ThreadFactEffect(s, tf);
  }

  /** The recorded starts are exactly the open starts of the history. */
  lemma {:induction false} StartedIsOpen(facts: seq<Fact>, key: ItemKey)
    ensures StartedAt(Run(EMPTY, facts).state, key) == OpenStart(facts, key)
    decreases facts
  {
    if facts != [] {
      var before, f := facts[..|facts| - 1], facts[|facts| - 1];
      StartedIsOpen(before, key);
      if f.OnItem? {
        ItemStarts(Run(EMPTY, before).state, f.itemFact, key);
      } else {
        OthersSpareStarts(Run(EMPTY, before).state, f);
      }
    }
  }

  /** A completion finds everything that its event needs. */
  predicate Reportable(before: seq<Fact>, f: ItemFact)
    requires f.ItemCompleted?
  {
    var s := Run(EMPTY, before).state;
    && f.item.kind in TRACKED && f.turnId in s.turns && OpenStart(before, KeyOf(f)).Some?
    && f.completedAt >= 0 && HasConnection(s, f.threadId)
    && (f.item.inProgress ==> f.item.kind in {WebSearchItem, ImageItem})
  }

  function KeyOf(f: ItemFact): ItemKey {
    ItemKey(f.threadId, f.turnId, f.item.id)
  }

  lemma ItemEventExactly(s: State, f: ItemFact)
    requires ContextInv(s) && f.ItemCompleted?
    ensures IngestItemFact(s, f).events ==
              if Clears(s, OnItem(f), KeyOf(f)) && HasOutcome(f.item)
              then [ToolItemEvent(KeyOf(f), f.item, s.started[KeyOf(f)], f.completedAt, SummaryOf(s, KeyOf(f)))] else []
  {
  }

  lemma ReportableExactly(before: seq<Fact>, f: ItemFact)
    requires f.ItemCompleted?
    ensures Reportable(before, f) <==> Clears(Run(EMPTY, before).state, OnItem(f), KeyOf(f)) && HasOutcome(f.item)
  {
    StartedIsOpen(before, KeyOf(f));
  }

  /**
   Tool-item events, on every run: completing an item emits exactly one event if its turn is known, a
   start is open, the time is usable, the thread has a connection and the item has an outcome, and none
   otherwise. The event carries the time of that start and sums up the reviews since the last clear.
   */
  lemma ToolItemExactly(before: seq<Fact>, f: ItemFact)
    requires f.ItemCompleted?
    ensures var events := Ingest(Run(EMPTY, before).state, OnItem(f)).events;
            if Reportable(before, f) then
              exists summary :: Summarizes(summary, Since(before, KeyOf(f)))
                && events == [ToolItemEvent(KeyOf(f), f.item, OpenStart(before, KeyOf(f)).value, f.completedAt, summary)]
            else events == []
  {
    RunKeepsContext(EMPTY, before);
    ReportableExactly(before, f);
    StartedIsOpen(before, KeyOf(f));
    ReviewAccounting(before, KeyOf(f));
    ItemEventFrom(Run(EMPTY, before).state, f, OpenStart(before, KeyOf(f)), Since(before, KeyOf(f)), Reportable(before, f));
  }

  lemma ItemEventFrom(s: State, f: ItemFact, start: Option<nat>, es: seq<Ended>, reportable: bool)
    requires ContextInv(s) && f.ItemCompleted? && StartedAt(s, KeyOf(f)) == start && Summarizes(SummaryOf(s, KeyOf(f)), es)
    requires reportable <==> Clears(s, OnItem(f), KeyOf(f)) && HasOutcome(f.item)
    ensures var events := IngestItemFact(s, f).events;
            if reportable then
              start.Some? && exists summary :: Summarizes(summary, es)
                               && events == [ToolItemEvent(KeyOf(f), f.item, start.value, f.completedAt, summary)]
            else events == []
  {
    ItemEventExactly(s, f);
  }

  // ---------------------------------------------------------------- where approval requests go

  datatype Ledger = Ledger(accepted: nat, resolved: nat, aborted: nat, overwritten: nat)

  /** The fate of approval requests, read off the history. */
  function Books(facts: seq<Fact>): Ledger {
    if facts == [] then Ledger(0, 0, 0, 0) else
    var before, f := facts[..|facts| - 1], facts[|facts| - 1];
    var l := Books(before);
    if f.OnReview? && f.reviewFact.ApprovalRequested? && f.reviewFact.startedAt >= 0 then
      l.(accepted := l.accepted + 1,
         overwritten := l.overwritten + if Outstanding(before, f.reviewFact.requestId).Some? then 1 else 0)
    else if IsAnswer(f) && Outstanding(before, f.reviewFact.requestId).Some? then
      if f.reviewFact.ApprovalAborted? then l.(aborted := l.aborted + 1) else l.(resolved := l.resolved + 1)
    else l
  }

  lemma RemoveOne(m: map<RequestId, PendingReview>, id: RequestId)
    requires id in m
    ensures |m - {id}| == |m| - 1
  {
    assert (m - {id}).Keys == m.Keys - {id};
  }

  lemma InsertOne(m: map<RequestId, PendingReview>, id: RequestId, r: PendingReview)
    ensures |m[id := r]| == |m| + if id in m then 0 else 1
  {
    assert m[id := r].Keys == m.Keys + {id};
    if id in m {
      assert m.Keys + {id} == m.Keys;
    }
  }

  /** Conservation: every accepted approval request was resolved, aborted, overwritten, or is still pending. */
  lemma {:induction false} ApprovalsConserved(facts: seq<Fact>)
    ensures var l := Books(facts);
            l.accepted == l.resolved + l.aborted + l.overwritten + |Run(EMPTY, facts).state.pending|
    decreases facts
  {
    if facts != [] {
      var before, f := facts[..|facts| - 1], facts[|facts| - 1];
      ApprovalsConserved(before);
      var s := Run(EMPTY, before).state;
      if f.OnReview? {
        if f.reviewFact.ApprovalRequested? {
          PendingIsOutstanding(before, f.reviewFact.requestId);
          if f.reviewFact.startedAt >= 0 { InsertOne(s.pending, f.reviewFact.requestId, Requested(f.reviewFact)); }
        } else if IsAnswer(f) {
          PendingIsOutstanding(before, f.reviewFact.requestId);
          if f.reviewFact.requestId in s.pending { RemoveOne(s.pending, f.reviewFact.requestId); }
        }
      } else {
        OthersSparePending(s, f);
      }
    }
  }
}
