/**
 What review events and item outcomes say, read off the facts: which answer approves, whose review it
 was, and what the request or the guardian's action asked for.
 */
module ReducerVerdicts {
  import opened Basics
  import opened Reducer
  import opened ReducerContext
  import opened ReducerReviews

  // ---------------------------------------------------------------- answers

  predicate IsDecision(f: ReviewFact, ds: set<Decision>) {
    (f.CommandAnswered? || f.FileAnswered?) && f.decision in ds
  }

  predicate Approves(f: ReviewFact) {
    || IsDecision(f, {Accept, AcceptForSession, AcceptWithExecpolicyAmendment, AmendNetworkPolicy(true)})
    || (f.PermissionsAnswered? && f.granted)
  }

  predicate Denies(f: ReviewFact) {
    IsDecision(f, {Decline, AmendNetworkPolicy(false)}) || (f.PermissionsAnswered? && !f.granted)
  }

  predicate ForSession(f: ReviewFact) {
    IsDecision(f, {AcceptForSession}) || (f.PermissionsAnswered? && f.granted && f.session)
  }

  /** The verdict of a review is the one that the user's answer gave. */
  predicate VerdictFollows(status: ReviewStatus, resolution: Resolution, f: ReviewFact) {
    && (status == Approved <==> Approves(f))
    && (status == Denied <==> Denies(f))
    && (status == Aborted <==> !Approves(f) && !Denies(f))
    && (resolution == SessionApproval <==> ForSession(f))
    && (resolution == ExecPolicyAmendment <==> IsDecision(f, {AcceptWithExecpolicyAmendment}))
    && (resolution == NetworkPolicyAmendment <==> IsDecision(f, {AmendNetworkPolicy(true), AmendNetworkPolicy(false)}))
  }

  lemma AnswerFollows(f: ReviewFact)
    requires IsAnswer(OnReview(f))
    ensures VerdictFollows(AnswerResult(f).0, AnswerResult(f).1, f)
  {
  }

  // ---------------------------------------------------------------- requests

  /** What a review is about, and what was asked for, follow the approval request. */
  predicate FollowsRequest(r: PendingReview, f: ReviewFact)
    requires f.ApprovalRequested?
  {
    && r.threadId == f.threadId && r.turnId == f.turnId && r.itemId == Some(f.itemId) && r.startedAt == f.startedAt
    && (r.subject == Permissions <==> f.approval.PermissionsApproval?)
    && (r.subject == FileChange <==> f.approval.FileApproval?)
    && (r.subject == NetworkAccess <==> f.approval.CommandApproval? && f.approval.networkContext)
    && (r.subject == CommandExecution <==> f.approval.CommandApproval? && !f.approval.networkContext)
    && match f.approval
       case CommandApproval(context, amendments, extra) =>
         (r.permissions <==> extra.Some?) && (r.network <==> context || amendments || extra == Some(true))
       case FileApproval(grantRoot) => (r.permissions <==> grantRoot) && !r.network
       case PermissionsApproval(networkEnabled, fileSystem) =>
         (r.permissions <==> networkEnabled || fileSystem) && (r.network <==> networkEnabled)
  }

  /** The same for a guardian's review and the action it was about. */
  predicate FollowsAction(r: PendingReview, f: ReviewFact)
    requires f.GuardianCompleted?
  {
    && r.threadId == f.threadId && r.turnId == f.turnId && r.itemId == f.targetItemId && r.startedAt == f.startedAt
    && (r.subject == CommandExecution <==> f.action.CommandAction? || f.action.ExecveAction?)
    && (r.subject == FileChange <==> f.action.ApplyPatchAction?)
    && (r.subject == NetworkAccess <==> f.action.NetworkAction?)
    && (r.subject == Permissions <==> f.action.PermissionsAction?)
    && (r.subject == McpToolCall <==> f.action.McpAction?)
    && (r.permissions <==> f.action.ApplyPatchAction? || f.action.NetworkAction?
                           || (f.action.PermissionsAction? && (f.action.networkEnabled || f.action.fileSystem)))
    && (r.network <==> f.action.NetworkAction? || (f.action.PermissionsAction? && f.action.networkEnabled))
  }

  /** Fact `j` asked for the approval that is open under `id` before fact `i`. */
  predicate AskedAt(facts: seq<Fact>, j: nat, i: nat, id: RequestId) {
    && j < i <= |facts| && Accepts(facts[j], id)
    && forall m :: j < m < i ==> !Accepts(facts[m], id) && !Answers(facts[m], id)
  }

  /** A review as a fact of the run ended it. */
  ghost predicate EndedAt(facts: seq<Fact>, i: nat, e: Ended) {
    && i < |facts| && facts[i].OnReview?
    && var f := facts[i].reviewFact;
       if f.GuardianCompleted? then
         e.reviewer == Guardian && f.status == Some(e.status) && e.resolution == NoResolution && e.at == f.completedAt
         && FollowsAction(e.review, f)
       else
         && IsAnswer(facts[i]) && e.reviewer == User && e.at == f.answeredAt && VerdictFollows(e.status, e.resolution, f)
         && exists j: nat :: AskedAt(facts, j, i, f.requestId) && FollowsRequest(e.review, facts[j].reviewFact)
  }

  lemma RequestFollows(f: ReviewFact)
    requires f.ApprovalRequested? && f.startedAt >= 0
    ensures FollowsRequest(Requested(f), f)
  {
  }

  /** An outstanding review was asked for by the latest request under its id. */
  lemma {:induction false} OutstandingWasAsked(facts: seq<Fact>, id: RequestId) returns (j: nat)
    requires Outstanding(facts, id).Some?
    ensures AskedAt(facts, j, |facts|, id) && FollowsRequest(Outstanding(facts, id).value, facts[j].reviewFact)
    decreases facts
  {
    var n := |facts| - 1;
    if Accepts(facts[n], id) {
      j := n;
      RequestFollows(facts[n].reviewFact);
    } else {
      j := OutstandingWasAsked(facts[..n], id);
      assert facts[..n][j] == facts[j];
      forall m | j < m < |facts|
        ensures !Accepts(facts[m], id) && !Answers(facts[m], id)
      {
        if m < n { assert facts[..n][m] == facts[m]; }
      }
    }
  }

  lemma GuardianFollows(before: seq<Fact>, f: Fact, e: Ended)
    requires f.OnReview? && f.reviewFact.GuardianCompleted? && EndedBy(before, f) == Some(e)
    ensures e.reviewer == Guardian && f.reviewFact.status == Some(e.status) && e.resolution == NoResolution
    ensures e.at == f.reviewFact.completedAt && FollowsAction(e.review, f.reviewFact)
  {
  }

  /** What `EndedBy` says of a fact is what the facts say. */
  lemma EndedIsJust(facts: seq<Fact>, i: nat, e: Ended)
    requires i < |facts| && EndedBy(facts[..i], facts[i]) == Some(e)
    ensures EndedAt(facts, i, e)
  {
    var f := facts[i].reviewFact;
    if f.GuardianCompleted? {
      GuardianFollows(facts[..i], facts[i], e);
    } else {
      AnswerFollows(f);
      var j := OutstandingWasAsked(facts[..i], f.requestId);
      assert facts[..i][j] == facts[j];
      forall m | j < m < i
        ensures !Accepts(facts[m], f.requestId) && !Answers(facts[m], f.requestId)
      {
        assert facts[..i][m] == facts[m];
      }
      assert AskedAt(facts, j, i, f.requestId);
    }
  }

  // ---------------------------------------------------------------- events

  /** A review event says what ended the review. */
  ghost predicate EventTells(facts: seq<Fact>, i: nat, event: Event) {
    event.ReviewEvent? && EndedAt(facts, i, Ended(event.review, event.reviewer, event.status, event.resolution, event.completedAt))
  }

  lemma EndedInPrefix(facts: seq<Fact>, n: nat, i: nat, e: Ended)
    requires n <= |facts| && EndedAt(facts[..n], i, e)
    ensures EndedAt(facts, i, e)
  {
    assert facts[..n][i] == facts[i];
    var f := facts[i].reviewFact;
    if !f.GuardianCompleted? {
      var j: nat :| AskedAt(facts[..n], j, i, f.requestId) && FollowsRequest(e.review, facts[..n][j].reviewFact);
      assert facts[..n][j] == facts[j];
      forall m | j < m < i
        ensures !Accepts(facts[m], f.requestId) && !Answers(facts[m], f.requestId)
      {
        assert facts[..n][m] == facts[m];
      }
      assert AskedAt(facts, j, i, f.requestId);
    }
  }

  lemma OnlyReviewsEmit(s: State, f: Fact, e: Event)
    requires e in Ingest(s, f).events && e.ReviewEvent?
    ensures f.OnReview?
  {
    match f
    case Initialize(_, _) =>
    case OnReview(_) =>
    case OnItem(itf) => ItemFactEffect(s, itf);
    case OnTurn(id, tf) => TurnFactEffect(s, id, tf);
    case OnRequest(c, q, rf) => RequestFactEffect(s, c, q, rf);
    case OnThread(tf) => ThreadFactEffect(s, tf);
  }

  /**
   Review events, on every run: each was caused by a fact that ended a review. A user's review is approved,
   denied or aborted as the answer says, and is about what the latest request under that id asked for; a
   guardian's review has the status it was given and is about its action.
   */
  lemma {:induction false} ReviewEventsTell(facts: seq<Fact>, event: Event)
    requires event in Run(EMPTY, facts).events && event.ReviewEvent?
    ensures exists i: nat :: EventTells(facts, i, event)
    decreases facts
  {
    var n := |facts| - 1;
    var before := facts[..n];
    if event in Run(EMPTY, before).events {
      ReviewEventsTell(before, event);
      var i: nat :| EventTells(before, i, event);
      EndedInPrefix(facts, n, i, Ended(event.review, event.reviewer, event.status, event.resolution, event.completedAt));
      assert EventTells(facts, i, event);
    } else {
      OnlyReviewsEmit(Run(EMPTY, before).state, facts[n], event);
      ReviewEventExactly(before, facts[n]);
      EndedIsJust(facts, n, EndedBy(before, facts[n]).value);
      assert EventTells(facts, n, event);
    }
  }

  // ---------------------------------------------------------------- outcomes

  ghost predicate EverEnded(facts: seq<Fact>, e: Ended) {
    exists i: nat :: EndedAt(facts, i, e)
  }

  /** Every review since the last clear of an item was ended by a fact of the run, and concerns the item. */
  lemma {:induction false} SinceIsJust(facts: seq<Fact>, key: ItemKey, x: nat)
    requires x < |Since(facts, key)|
    ensures Concerns(Since(facts, key)[x].review, key) && EverEnded(facts, Since(facts, key)[x])
    decreases facts
  {
    var n := |facts| - 1;
    var before, f, e := facts[..n], facts[n], Since(facts, key)[x];
    if x < |Since(before, key)| {
      SinceIsJust(before, key, x);
      var i: nat :| EndedAt(before, i, e);
      EndedInPrefix(facts, n, i, e);
    } else {
      assert EndedFor(before, f, key) == [e];
      EndedIsJust(facts, n, e);
    }
  }

  /** The outcome an item reports is the verdict of its last review, which a fact of the run gave. */
  ghost predicate OutcomeTells(facts: seq<Fact>, event: Event, e: Ended) {
    && event.ToolItemEvent? && Concerns(e.review, event.key) && event.summary.outcome.Some?
    && Names(event.summary.outcome.value, e.reviewer, e.status, e.resolution)
    && EverEnded(facts, e)
  }

  /** Item outcomes, on every run: absent exactly without reviews, and else that of a review that the facts ended. */
  lemma ItemOutcomesTell(before: seq<Fact>, f: Fact, event: Event)
    requires event in Ingest(Run(EMPTY, before).state, f).events && event.ToolItemEvent?
    ensures event.summary.outcome.None? <==> event.summary.reviews == 0
    ensures event.summary.outcome.Some? ==> exists e :: LastReview(before, event.key, e) && OutcomeTells(before, event, e)
  {
    ToolItemReports(before, f, event);
    OutcomeSince(before, event, Since(before, event.key));
  }

  /** The last review of an item that ended since its summary was cleared. */
  ghost predicate LastReview(facts: seq<Fact>, key: ItemKey, e: Ended) {
    var es := Since(facts, key);
    es != [] && es[|es| - 1] == e
  }

  lemma OutcomeSince(facts: seq<Fact>, event: Event, es: seq<Ended>)
    requires event.ToolItemEvent? && es == Since(facts, event.key) && Summarizes(event.summary, es)
    ensures event.summary.outcome.None? <==> event.summary.reviews == 0
    ensures event.summary.outcome.Some? ==> exists e :: LastReview(facts, event.key, e) && OutcomeTells(facts, event, e)
  {
    if es != [] {
      SinceIsJust(facts, event.key, |es| - 1);
      assert LastReview(facts, event.key, es[|es| - 1]);
    }
    LastReviewTells(facts, event, es);
  }

  lemma LastReviewTells(facts: seq<Fact>, event: Event, es: seq<Ended>)
    requires event.ToolItemEvent? && Summarizes(event.summary, es)
    requires es != [] ==> Concerns(es[|es| - 1].review, event.key) && EverEnded(facts, es[|es| - 1])
    ensures event.summary.outcome.None? <==> event.summary.reviews == 0
    ensures event.summary.outcome.Some? ==> es != [] && OutcomeTells(facts, event, es[|es| - 1])
  {
  }
}
