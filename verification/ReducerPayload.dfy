/**
 What a turn event reports, read off the facts of the run: each field comes from the fact that told it,
 each count from the items and steers that came after the turn's first fact.
 */
module ReducerPayload {
  import opened Basics
  import opened Reducer
  import opened ReducerTurns
  import DiffParser

  // ---------------------------------------------------------------- fields

  /** A turn has what a fact told it. */
  predicate Shows(t: Turn, f: TurnFact) {
    match f
    case ResolvedConfig(_, _, config) => t.config == Some(config)
    case TokenUsage(_, tokens) => t.tokens == Some(tokens)
    case Profile(profile) => t.profile == Some(profile)
    case CodexError(_, error) => t.error == Some(error)
    case TurnStarted(at) => t.startedAt == if at.Some? && at.value >= 0 then Some(at.value) else None
    case DiffUpdated(_, diff) => t.diff == Some(diff)
    case TurnCompleted(completion) => t.completed == Some(completion)
  }

  predicate RequiredGrounded(k: Setting, t: Turn, ins: seq<Input>) {
    && (t.config.Some? ==> Told(ResolvedConfig(k.threadId, k.images, t.config.value)) in ins)
    && (t.profile.Some? ==> Told(Profile(t.profile.value)) in ins)
    && (t.completed.Some? ==> Told(TurnCompleted(t.completed.value)) in ins)
  }

  predicate OptionalGrounded(k: Setting, t: Turn, ins: seq<Input>) {
    && (t.tokens.Some? ==> Told(TokenUsage(k.threadId, t.tokens.value)) in ins)
    && (t.error.Some? ==> Told(CodexError(k.threadId, t.error.value)) in ins)
    && (t.startedAt.Some? ==> Told(TurnStarted(Some(t.startedAt.value))) in ins)
    && (t.diff.Some? ==> Told(DiffUpdated(k.threadId, t.diff.value)) in ins)
  }

  /** Everything a turn has was told to it. */
  predicate Grounded(k: Setting, t: Turn, ins: seq<Input>) {
    RequiredGrounded(k, t, ins) && OptionalGrounded(k, t, ins)
  }

  lemma ApplyShows(t: Turn, f: TurnFact)
    ensures Shows(Apply(t, Told(f)), f)
  {
  }

  lemma ApplyKeepsShown(t: Turn, f: TurnFact, x: Input)
    requires Shows(t, f) && KindOf(Told(f)) != KindOf(x)
    ensures Shows(Apply(t, x), f)
  {
  }

  lemma {:induction false} FoldShows(ins: seq<Input>, f: TurnFact)
    requires DistinctKinds(ins) && Told(f) in ins
    ensures Shows(Fold(NEW_TURN, ins), f)
    decreases ins
  {
    var front, x := ins[..|ins| - 1], ins[|ins| - 1];
    assert ins == front + [x];
    NewKind(front, x);
    if x == Told(f) {
      ApplyShows(Fold(NEW_TURN, front), f);
    } else {
      var i :| 0 <= i < |ins| && ins[i] == Told(f);
      assert Distinct(ins[i], ins[|ins| - 1]) && front[i] == Told(f);
      FoldShows(front, f);
      ApplyKeepsShown(Fold(NEW_TURN, front), f, x);
    }
  }

  lemma GroundedMono(k: Setting, t: Turn, front: seq<Input>, x: Input)
    requires Grounded(k, t, front)
    ensures Grounded(k, t, front + [x])
  {
    assert forall y :: y in front ==> y in front + [x];
  }

  lemma ApplyRequiredGrounded(k: Setting, t: Turn, ins: seq<Input>, x: Input)
    requires RequiredGrounded(k, t, ins) && Agrees(k, x) && x in ins
    ensures RequiredGrounded(k, Apply(t, x), ins)
  {
  }

  lemma ApplyOptionalGrounded(k: Setting, t: Turn, ins: seq<Input>, x: Input)
    requires OptionalGrounded(k, t, ins) && Agrees(k, x) && x in ins
    ensures OptionalGrounded(k, Apply(t, x), ins)
  {
  }

  lemma {:induction false} FoldGrounded(k: Setting, ins: seq<Input>)
    requires AllAgree(k, ins)
    ensures Grounded(k, Fold(NEW_TURN, ins), ins)
    decreases ins
  {
    if ins != [] {
      var front, x := ins[..|ins| - 1], ins[|ins| - 1];
      assert ins == front + [x] && Agrees(k, x);
      FoldGrounded(k, front);
      GroundedMono(k, Fold(NEW_TURN, front), front, x);
      ApplyRequiredGrounded(k, Fold(NEW_TURN, front), ins, x);
      ApplyOptionalGrounded(k, Fold(NEW_TURN, front), ins, x);
    }
  }

  /** What one more fact adds to the inputs of a turn. */
  function Adds(k: Setting, requests: map<(nat, RequestId), Request>, front: seq<Fact>, f: Fact): seq<Input> {
    InputOf(k, f) + TallyOf(k, RequestsAfter(requests, front), Inputs(k, requests, front) != [], f)
  }

  lemma InputsUnfold(k: Setting, requests: map<(nat, RequestId), Request>, front: seq<Fact>, f: Fact)
    ensures Inputs(k, requests, front + [f]) == Inputs(k, requests, front) + Adds(k, requests, front, f)
  {
    assert (front + [f])[..|front|] == front;
  }

  lemma AddsOne(k: Setting, requests: map<(nat, RequestId), Request>, front: seq<Fact>, f: Fact)
    ensures var added := Adds(k, requests, front, f);
            && |added| <= 1
            && (added != [] && Inputs(k, requests, front) == [] ==> Introduces(k, f))
            && (Introduces(k, f) ==> added != [])
            && forall tf :: Told(tf) in added <==> f == OnTurn(k.turnId, tf)
  {
  }

  lemma {:induction false} ToldExactly(k: Setting, requests: map<(nat, RequestId), Request>, facts: seq<Fact>, f: TurnFact)
    ensures Told(f) in Inputs(k, requests, facts) <==> OnTurn(k.turnId, f) in facts
    decreases facts
  {
    if facts != [] {
      var front, last := facts[..|facts| - 1], facts[|facts| - 1];
      assert facts == front + [last];
      ToldExactly(k, requests, front, f);
      InputsUnfold(k, requests, front, last);
      AddsOne(k, requests, front, last);
    }
  }

  // ---------------------------------------------------------------- counts

  /** A fact that makes the turn known: one of its own, or the answer to the request that started it. */
  predicate Introduces(k: Setting, f: Fact) {
    || (f.OnTurn? && f.turnId == k.turnId)
    || (f.OnRequest? && f.requestFact == TurnStartAnswered(k.turnId) && k.start == Some((f.connectionId, f.requestId)))
  }

  predicate Known(k: Setting, facts: seq<Fact>) {
    exists i :: 0 <= i < |facts| && Introduces(k, facts[i])
  }

  /** A completed item of the turn, of one of the given kinds. */
  predicate IsItem(k: Setting, f: Fact, kinds: set<ItemKind>) {
    f.OnItem? && f.itemFact.ItemCompleted? && f.itemFact.turnId == k.turnId && f.itemFact.item.kind in kinds
  }

  /** An answer that accepts a steer for the turn. */
  predicate IsSteer(k: Setting, f: Fact) {
    f.OnRequest? && f.requestFact == TurnSteerAnswered(k.turnId)
  }

  function KeyOf(f: Fact): (nat, RequestId)
    requires f.OnRequest?
  {
    (f.connectionId, f.requestId)
  }

  /** The completed items of the given kinds that came when the turn was known. */
  function ItemsOf(k: Setting, facts: seq<Fact>, kinds: set<ItemKind>): nat {
    if facts == [] then 0 else
    var front, f := facts[..|facts| - 1], facts[|facts| - 1];
    ItemsOf(k, front, kinds) + if IsItem(k, f, kinds) && Known(k, front) then 1 else 0
  }

  /** The last word about the request `id` was a steer that has not been answered. */
  predicate SteerPending(requests: map<(nat, RequestId), Request>, facts: seq<Fact>, id: (nat, RequestId)) {
    if facts == [] then id in requests && requests[id].TurnSteer? else
    var front, f := facts[..|facts| - 1], facts[|facts| - 1];
    if f.OnRequest? && KeyOf(f) == id then f.requestFact.TurnSteerRequested?
    else SteerPending(requests, front, id)
  }

  /** The steers that were accepted when the turn was known. */
  function SteersOf(k: Setting, requests: map<(nat, RequestId), Request>, facts: seq<Fact>): nat {
    if facts == [] then 0 else
    var front, f := facts[..|facts| - 1], facts[|facts| - 1];
    SteersOf(k, requests, front) + if IsSteer(k, f) && Known(k, front) && SteerPending(requests, front, KeyOf(f)) then 1 else 0
  }

  lemma KnownSnoc(k: Setting, front: seq<Fact>, f: Fact)
    ensures Known(k, front + [f]) <==> Known(k, front) || Introduces(k, f)
  {
    var all := front + [f];
    assert all[|front|] == f;
    if Known(k, front) {
      var i :| 0 <= i < |front| && Introduces(k, front[i]);
      assert Introduces(k, all[i]);
    }
  }

  lemma {:induction false} KnownExactly(k: Setting, requests: map<(nat, RequestId), Request>, facts: seq<Fact>)
    ensures Inputs(k, requests, facts) != [] <==> Known(k, facts)
    decreases facts
  {
    if facts != [] {
      var front, f := facts[..|facts| - 1], facts[|facts| - 1];
      assert facts == front + [f];
      KnownExactly(k, requests, front);
      KnownSnoc(k, front, f);
      InputsUnfold(k, requests, front, f);
      AddsOne(k, requests, front, f);
    }
  }

  predicate IsPendingSteer(requests: map<(nat, RequestId), Request>, id: (nat, RequestId)) {
    id in requests && requests[id].TurnSteer?
  }

  lemma {:induction false} SteerPendingExactly(requests: map<(nat, RequestId), Request>, facts: seq<Fact>, id: (nat, RequestId))
    ensures SteerPending(requests, facts, id) <==> IsPendingSteer(RequestsAfter(requests, facts), id)
    decreases facts
  {
    if facts != [] {
      SteerPendingExactly(requests, facts[..|facts| - 1], id);
    }
  }

  function CountKinds(ins: seq<Input>, kinds: set<ItemKind>): nat {
    if ins == [] then 0 else
    CountKinds(ins[..|ins| - 1], kinds) + if ins[|ins| - 1].Counted? && ins[|ins| - 1].kind in kinds then 1 else 0
  }

  function CountSteered(ins: seq<Input>): nat {
    if ins == [] then 0 else CountSteered(ins[..|ins| - 1]) + if ins[|ins| - 1].Steered? then 1 else 0
  }

  /** The counts of a turn are those of its inputs, kind by kind. */
  predicate CountsRight(c: ToolCounts, steers: nat, ins: seq<Input>) {
    && c.shellCommand == CountKinds(ins, {CommandItem})
    && c.fileChange == CountKinds(ins, {FileItem})
    && c.mcpToolCall == CountKinds(ins, {McpItem})
    && c.dynamicToolCall == CountKinds(ins, {DynamicItem})
    && c.subagentToolCall == CountKinds(ins, {CollabItem, SubAgentActivity})
    && c.webSearch == CountKinds(ins, {WebSearchItem})
    && c.imageGeneration == CountKinds(ins, {ImageItem})
    && c.total == CountKinds(ins, TOOL_KINDS)
    && steers == CountSteered(ins)
  }

  const TOOL_KINDS: set<ItemKind> :=
    {CommandItem, FileItem, McpItem, DynamicItem, CollabItem, SubAgentActivity, WebSearchItem, ImageItem}

  lemma ApplyCounts(t: Turn, front: seq<Input>, x: Input)
    requires CountsRight(t.counts, t.steers, front)
    ensures CountsRight(Apply(t, x).counts, Apply(t, x).steers, front + [x])
  {
    assert (front + [x])[..|front|] == front;
  }

  lemma {:induction false} FoldCounts(ins: seq<Input>)
    ensures CountsRight(Fold(NEW_TURN, ins).counts, Fold(NEW_TURN, ins).steers, ins)
    decreases ins
  {
    if ins != [] {
      var front, x := ins[..|ins| - 1], ins[|ins| - 1];
      assert ins == front + [x];
      FoldCounts(front);
      ApplyCounts(Fold(NEW_TURN, front), front, x);
    }
  }

  lemma CountAdded(ins: seq<Input>, own: seq<Input>, tally: seq<Input>, kinds: set<ItemKind>)
    requires |own| <= 1 && |tally| <= 1 && (own == [] || tally == []) && forall x :: x in own ==> !x.Counted? && !x.Steered?
    ensures CountKinds(ins + (own + tally), kinds) == CountKinds(ins, kinds) + CountKinds(tally, kinds)
    ensures CountSteered(ins + (own + tally)) == CountSteered(ins) + CountSteered(tally)
  {
    var added := own + tally;
    if added == [] {
      assert ins + added == ins;
    } else {
      assert (ins + added)[..|ins|] == ins && (ins + added)[|ins|] == added[0];
      if own != [] { assert own[0] in own; } else { assert tally[..0] == []; }
    }
  }

  lemma TallyCounts(k: Setting, requests: map<(nat, RequestId), Request>, known: bool, f: Fact, kinds: set<ItemKind>)
    requires kinds <= TOOL_KINDS
    ensures var tally := TallyOf(k, requests, known, f);
            && |tally| <= 1 && (InputOf(k, f) == [] || tally == [])
            && CountKinds(tally, kinds) == (if IsItem(k, f, kinds) && known then 1 else 0)
            && CountSteered(tally) == (if IsSteer(k, f) && known && IsPendingSteer(requests, KeyOf(f)) then 1 else 0)
  {
    var tally := TallyOf(k, requests, known, f);
    if tally != [] { assert tally[..0] == []; }
  }

  lemma AddedCounts(k: Setting, requests: map<(nat, RequestId), Request>, front: seq<Fact>, f: Fact, kinds: set<ItemKind>)
    requires kinds <= TOOL_KINDS
    ensures var ins, now := Inputs(k, requests, front), RequestsAfter(requests, front);
            var all := ins + Adds(k, requests, front, f);
            && CountKinds(all, kinds) == CountKinds(ins, kinds) + (if IsItem(k, f, kinds) && ins != [] then 1 else 0)
            && CountSteered(all) == CountSteered(ins) + (if IsSteer(k, f) && ins != [] && IsPendingSteer(now, KeyOf(f)) then 1 else 0)
  {
    var ins, now := Inputs(k, requests, front), RequestsAfter(requests, front);
    TallyCounts(k, now, ins != [], f, kinds);
    CountAdded(ins, InputOf(k, f), TallyOf(k, now, ins != [], f), kinds);
  }

  lemma CountsUnfold(k: Setting, requests: map<(nat, RequestId), Request>, front: seq<Fact>, f: Fact, kinds: set<ItemKind>)
    ensures ItemsOf(k, front + [f], kinds) == ItemsOf(k, front, kinds) + if IsItem(k, f, kinds) && Known(k, front) then 1 else 0
    ensures SteersOf(k, requests, front + [f]) == SteersOf(k, requests, front) +
              if IsSteer(k, f) && Known(k, front) && IsPendingSteer(RequestsAfter(requests, front), KeyOf(f)) then 1 else 0
  {
    assert (front + [f])[..|front|] == front;
    if f.OnRequest? { SteerPendingExactly(requests, front, KeyOf(f)); }
  }

  lemma {:induction false} InputCounts(k: Setting, requests: map<(nat, RequestId), Request>, facts: seq<Fact>, kinds: set<ItemKind>)
    requires kinds <= TOOL_KINDS
    ensures CountKinds(Inputs(k, requests, facts), kinds) == ItemsOf(k, facts, kinds)
    ensures CountSteered(Inputs(k, requests, facts)) == SteersOf(k, requests, facts)
    decreases facts
  {
    if facts != [] {
      var front, f := facts[..|facts| - 1], facts[|facts| - 1];
      assert facts == front + [f];
      InputCounts(k, requests, front, kinds);
      KnownExactly(k, requests, front);
      InputsUnfold(k, requests, front, f);
      CountsUnfold(k, requests, front, f, kinds);
      AddedCounts(k, requests, front, f, kinds);
    }
  }

  // ---------------------------------------------------------------- the event

  /** The fields of a turn event, each read off the facts of the run. */
  ghost predicate FieldsReported(p: TurnPayload, k: Setting, facts: seq<Fact>) {
    && p.turnId == k.turnId && p.threadId == k.threadId && p.images == k.images
    && OnTurn(k.turnId, ResolvedConfig(k.threadId, k.images, p.config)) in facts
    && OnTurn(k.turnId, Profile(p.profile)) in facts
    && OnTurn(k.turnId, TurnCompleted(p.completed)) in facts
    && (forall n: nat :: p.tokens == Some(n) <==> OnTurn(k.turnId, TokenUsage(k.threadId, n)) in facts)
    && (forall n: nat :: p.startedAt == Some(n) <==> OnTurn(k.turnId, TurnStarted(Some(n))) in facts)
    && (forall e :: p.error == Some(e) <==> OnTurn(k.turnId, CodexError(k.threadId, e)) in facts)
  }

  /** Its counts. */
  predicate CountsReported(p: TurnPayload, k: Setting, requests: map<(nat, RequestId), Request>, facts: seq<Fact>) {
    && p.counts.shellCommand == ItemsOf(k, facts, {CommandItem})
    && p.counts.fileChange == ItemsOf(k, facts, {FileItem})
    && p.counts.mcpToolCall == ItemsOf(k, facts, {McpItem})
    && p.counts.dynamicToolCall == ItemsOf(k, facts, {DynamicItem})
    && p.counts.subagentToolCall == ItemsOf(k, facts, {CollabItem, SubAgentActivity})
    && p.counts.webSearch == ItemsOf(k, facts, {WebSearchItem})
    && p.counts.imageGeneration == ItemsOf(k, facts, {ImageItem})
    && p.counts.total == ItemsOf(k, facts, TOOL_KINDS)
    && p.steers == SteersOf(k, requests, facts)
  }

  /** Its thread and connection: that of the starting request if that was answered, else that of the thread. */
  predicate ContextReported(p: TurnPayload, k: Setting, s: State, facts: seq<Fact>)
    requires Ready(k, s)
  {
    && p.metadata == s.threads[k.threadId].metadata.value
    && p.connection == s.connections[
         if k.start.Some? && OnRequest(k.start.value.0, k.start.value.1, TurnStartAnswered(k.turnId)) in facts
         then k.start.value.0 else k.connectionId]
  }

  /** What follows a turn event: the line counts of its diff, if that has any. */
  ghost predicate LinesReported(more: seq<Event>, k: Setting, facts: seq<Fact>) {
    && (forall diff, isAlphanumeric: char -> bool :: OnTurn(k.turnId, DiffUpdated(k.threadId, diff)) in facts ==>
          var lines := DiffParser.Parse(isAlphanumeric, DiffParser.Lines(diff));
          more == if lines.added + lines.deleted == 0 then [] else [AcceptedLines(k.turnId, k.threadId, lines.added, lines.deleted)])
    && ((forall diff :: OnTurn(k.turnId, DiffUpdated(k.threadId, diff)) !in facts) ==> more == [])
  }

  lemma ToldShown(k: Setting, requests: map<(nat, RequestId), Request>, facts: seq<Fact>, f: TurnFact)
    requires DistinctKinds(Inputs(k, requests, facts)) && OnTurn(k.turnId, f) in facts
    ensures Shows(Fold(NEW_TURN, Inputs(k, requests, facts)), f)
  {
    ToldExactly(k, requests, facts, f);
    FoldShows(Inputs(k, requests, facts), f);
  }

  lemma TokensReported(k: Setting, requests: map<(nat, RequestId), Request>, facts: seq<Fact>, n: nat)
    requires DistinctKinds(Inputs(k, requests, facts)) && AllAgree(k, Inputs(k, requests, facts))
    ensures Fold(NEW_TURN, Inputs(k, requests, facts)).tokens == Some(n) <==> OnTurn(k.turnId, TokenUsage(k.threadId, n)) in facts
  {
    FoldGrounded(k, Inputs(k, requests, facts));
    ToldExactly(k, requests, facts, TokenUsage(k.threadId, n));
    if OnTurn(k.turnId, TokenUsage(k.threadId, n)) in facts { ToldShown(k, requests, facts, TokenUsage(k.threadId, n)); }
  }

  lemma StartReported(k: Setting, requests: map<(nat, RequestId), Request>, facts: seq<Fact>, n: nat)
    requires DistinctKinds(Inputs(k, requests, facts)) && AllAgree(k, Inputs(k, requests, facts))
    ensures Fold(NEW_TURN, Inputs(k, requests, facts)).startedAt == Some(n) <==> OnTurn(k.turnId, TurnStarted(Some(n))) in facts
  {
    FoldGrounded(k, Inputs(k, requests, facts));
    ToldExactly(k, requests, facts, TurnStarted(Some(n)));
    if OnTurn(k.turnId, TurnStarted(Some(n))) in facts { ToldShown(k, requests, facts, TurnStarted(Some(n))); }
  }

  lemma ErrorReported(k: Setting, requests: map<(nat, RequestId), Request>, facts: seq<Fact>, e: string)
    requires DistinctKinds(Inputs(k, requests, facts)) && AllAgree(k, Inputs(k, requests, facts))
    ensures Fold(NEW_TURN, Inputs(k, requests, facts)).error == Some(e) <==> OnTurn(k.turnId, CodexError(k.threadId, e)) in facts
  {
    FoldGrounded(k, Inputs(k, requests, facts));
    ToldExactly(k, requests, facts, CodexError(k.threadId, e));
    if OnTurn(k.turnId, CodexError(k.threadId, e)) in facts { ToldShown(k, requests, facts, CodexError(k.threadId, e)); }
  }

  /** The inputs of a turn that is due, and its state. */
  predicate Due(k: Setting, s: State, facts: seq<Fact>) {
    var ins := Inputs(k, s.requests, facts);
    Ready(k, s) && DistinctKinds(ins) && AllAgree(k, ins) && HasRequired(ins)
  }

  lemma DuePayload(k: Setting, s: State, facts: seq<Fact>, p: TurnPayload)
    requires Due(k, s, facts) && DueEvents(k, s, Inputs(k, s.requests, facts))[0] == TurnEvent(p)
    ensures var t := Fold(NEW_TURN, Inputs(k, s.requests, facts));
            && IsComplete(t) && t.threadId == Some(k.threadId) && t.images == Some(k.images)
            && p.turnId == k.turnId && p.threadId == k.threadId && p.images == k.images
            && Some(p.config) == t.config && Some(p.profile) == t.profile && Some(p.completed) == t.completed
            && p.startedAt == t.startedAt && p.tokens == t.tokens && p.error == t.error && p.steers == t.steers && p.counts == t.counts
  {
    CompleteExactly(k, Inputs(k, s.requests, facts));
    FoldFields(k, Inputs(k, s.requests, facts));
  }

  lemma FieldsAreReported(k: Setting, s: State, facts: seq<Fact>, p: TurnPayload)
    requires Due(k, s, facts) && DueEvents(k, s, Inputs(k, s.requests, facts))[0] == TurnEvent(p)
    ensures FieldsReported(p, k, facts)
  {
    DuePayload(k, s, facts, p);
    FoldGrounded(k, Inputs(k, s.requests, facts));
    ToldExactly(k, s.requests, facts, ResolvedConfig(k.threadId, k.images, p.config));
    ToldExactly(k, s.requests, facts, Profile(p.profile));
    ToldExactly(k, s.requests, facts, TurnCompleted(p.completed));
    forall n: nat { TokensReported(k, s.requests, facts, n); }
    forall n: nat { StartReported(k, s.requests, facts, n); }
    forall e: string { ErrorReported(k, s.requests, facts, e); }
  }

  lemma CountsAreReported(k: Setting, s: State, facts: seq<Fact>, p: TurnPayload)
    requires Due(k, s, facts) && DueEvents(k, s, Inputs(k, s.requests, facts))[0] == TurnEvent(p)
    ensures CountsReported(p, k, s.requests, facts)
  {
    DuePayload(k, s, facts, p);
    FoldCounts(Inputs(k, s.requests, facts));
    InputCounts(k, s.requests, facts, {CommandItem});
    InputCounts(k, s.requests, facts, {FileItem});
    InputCounts(k, s.requests, facts, {McpItem});
    InputCounts(k, s.requests, facts, {DynamicItem});
    InputCounts(k, s.requests, facts, {CollabItem, SubAgentActivity});
    InputCounts(k, s.requests, facts, {WebSearchItem});
    InputCounts(k, s.requests, facts, {ImageItem});
    InputCounts(k, s.requests, facts, TOOL_KINDS);
  }

  lemma AddsAnswer(k: Setting, requests: map<(nat, RequestId), Request>, front: seq<Fact>, f: Fact)
    requires k.start.Some?
    ensures var added := Adds(k, requests, front, f);
            && |added| <= 1
            && ((added != [] && KindOf(added[0]) == AnswerKind) <==>
                  f == OnRequest(k.start.value.0, k.start.value.1, TurnStartAnswered(k.turnId)))
  {
  }

  lemma AnswerAdded(k: Setting, requests: map<(nat, RequestId), Request>, front: seq<Fact>, f: Fact)
    requires k.start.Some?
    ensures var ins := Inputs(k, requests, front);
            Has(ins + Adds(k, requests, front, f), AnswerKind) <==>
              Has(ins, AnswerKind) || f == OnRequest(k.start.value.0, k.start.value.1, TurnStartAnswered(k.turnId))
  {
    var ins, added := Inputs(k, requests, front), Adds(k, requests, front, f);
    AddsAnswer(k, requests, front, f);
    if added == [] {
      assert ins + added == ins;
    } else {
      assert added == [added[0]];
      HasSnoc(ins, added[0], AnswerKind);
    }
  }

  /** The turn saw the answer to its starting request exactly if that is among the facts. */
  lemma {:induction false} AnswerSeen(k: Setting, requests: map<(nat, RequestId), Request>, facts: seq<Fact>)
    requires k.start.Some?
    ensures Has(Inputs(k, requests, facts), AnswerKind) <==>
              OnRequest(k.start.value.0, k.start.value.1, TurnStartAnswered(k.turnId)) in facts
    decreases facts
  {
    if facts != [] {
      var front, f := facts[..|facts| - 1], facts[|facts| - 1];
      assert facts == front + [f];
      AnswerSeen(k, requests, front);
      InputsUnfold(k, requests, front, f);
      AnswerAdded(k, requests, front, f);
    }
  }

  lemma ContextIsReported(k: Setting, s: State, facts: seq<Fact>, p: TurnPayload)
    requires Due(k, s, facts) && DueEvents(k, s, Inputs(k, s.requests, facts))[0] == TurnEvent(p)
    ensures ContextReported(p, k, s, facts)
  {
    DuePayload(k, s, facts, p);
    if k.start.Some? { AnswerSeen(k, s.requests, facts); }
  }

  /** The test for letters decides about fingerprints only, never about counts. */
  lemma {:induction false} CountsIgnoreLetters(f: char -> bool, g: char -> bool, p: DiffParser.Parser, q: DiffParser.Parser, lines: seq<string>)
    requires p.inHunk == q.inHunk && p.summary.added == q.summary.added && p.summary.deleted == q.summary.deleted
    ensures var a, b := DiffParser.ParseFrom(f, p, lines).summary, DiffParser.ParseFrom(g, q, lines).summary;
            a.added == b.added && a.deleted == b.deleted
    decreases lines
  {
    if lines != [] {
      CountsIgnoreLetters(f, g, DiffParser.ParseLine(f, p, lines[0]), DiffParser.ParseLine(g, q, lines[0]), lines[1..]);
    }
  }

  lemma DueLines(k: Setting, s: State, facts: seq<Fact>)
    requires Due(k, s, facts)
    ensures var due, t := DueEvents(k, s, Inputs(k, s.requests, facts)), Fold(NEW_TURN, Inputs(k, s.requests, facts));
            && due != [] && (t.diff.None? ==> due[1..] == [])
            && (t.diff.Some? ==>
                  var lines := DiffParser.Parse(_ => false, DiffParser.Lines(t.diff.value));
                  due[1..] == if lines.added + lines.deleted == 0 then [] else [AcceptedLines(k.turnId, k.threadId, lines.added, lines.deleted)])
  {
    CompleteExactly(k, Inputs(k, s.requests, facts));
    FoldFields(k, Inputs(k, s.requests, facts));
  }

  lemma LinesAreReported(k: Setting, s: State, facts: seq<Fact>)
    requires Due(k, s, facts)
    ensures LinesReported(DueEvents(k, s, Inputs(k, s.requests, facts))[1..], k, facts)
  {
    DueLines(k, s, facts);
    var ins := Inputs(k, s.requests, facts);
    var t := Fold(NEW_TURN, ins);
    FoldGrounded(k, ins);
    if t.diff.Some? { ToldExactly(k, s.requests, facts, DiffUpdated(k.threadId, t.diff.value)); }
    forall diff, isAlphanumeric: char -> bool | OnTurn(k.turnId, DiffUpdated(k.threadId, diff)) in facts
      ensures var lines := DiffParser.Parse(isAlphanumeric, DiffParser.Lines(diff));
              DueEvents(k, s, ins)[1..] == if lines.added + lines.deleted == 0 then [] else [AcceptedLines(k.turnId, k.threadId, lines.added, lines.deleted)]
    {
      ToldShown(k, s.requests, facts, DiffUpdated(k.threadId, diff));
      CountsIgnoreLetters(isAlphanumeric, _ => false, DiffParser.START, DiffParser.START, DiffParser.Lines(diff));
    }
  }

  /**
   What a turn event says, under the conditions of its emission: every field is the one that a fact of the
   turn told, every optional field is absent exactly if none did, the counts are those of the items and
   steers since the turn's first fact, and the accepted lines are those of its diff.
   */
  lemma TurnEventReports(k: Setting, s: State, facts: seq<Fact>, last: Fact)
    requires Ready(k, s) && CompletesAt(k, s, facts, last)
    ensures var events := EventsOf(k.turnId, Run(s, facts + [last]).events);
            && events != [] && events[0].TurnEvent?
            && FieldsReported(events[0].payload, k, facts + [last])
            && CountsReported(events[0].payload, k, s.requests, facts + [last])
            && ContextReported(events[0].payload, k, s, facts + [last])
            && LinesReported(events[1..], k, facts + [last])
  {
    EmittedAtLastRequired(k, s, facts, last);
    var all := facts + [last];
    var due := DueEvents(k, s, Inputs(k, s.requests, all));
    DueShape(k, s, Inputs(k, s.requests, all));
    assert Due(k, s, all) && due[0] == TurnEvent(due[0].payload);
    FieldsAreReported(k, s, all, due[0].payload);
    CountsAreReported(k, s, all, due[0].payload);
    ContextIsReported(k, s, all, due[0].payload);
    LinesAreReported(k, s, all);
  }

  // ---------------------------------------------------------------- late context

  /** A turn that has everything and waits only for somebody to look: its thread and connection are known by now. */
  predicate Overdue(s: State, turnId: string, threadId: string) {
    && turnId in s.turns && threadId in s.threads && s.threads[threadId].metadata.Some?
    && var t := s.turns[turnId];
       && t.threadId == Some(threadId) && t.images.Some? && t.config.Some? && t.profile.Some? && t.completed.Some?
       && (t.connectionId.Some? ==> t.connectionId.value in s.connections)
       && (t.connectionId.None? ==> s.threads[threadId].connectionId.Some? && s.threads[threadId].connectionId.value in s.connections)
  }

  /** Which facts make the reducer look: an overdue turn is emitted by a config, token, profile or completion fact, and by no other of its own. */
  lemma OverdueTurnEmits(s: State, turnId: string, threadId: string, f: TurnFact)
    requires Overdue(s, turnId, threadId)
    requires (f.ResolvedConfig? || f.TokenUsage? || f.CodexError? || f.DiffUpdated?) ==> f.threadId == threadId
    ensures var r := Ingest(s, OnTurn(turnId, f));
            && (turnId !in r.state.turns <==> f.ResolvedConfig? || f.TokenUsage? || f.Profile? || f.TurnCompleted?)
            && (r.events != [] <==> turnId !in r.state.turns)
  {
  }

  /** The answer to a starting request makes it look, too. */
  lemma OverdueAnswerEmits(s: State, turnId: string, threadId: string, c: nat, r: RequestId)
    requires Overdue(s, turnId, threadId) && c in s.connections
    requires (c, r) in s.requests && s.requests[(c, r)].TurnStart? && s.requests[(c, r)].threadId == threadId
    ensures turnId !in Ingest(s, OnRequest(c, r, TurnStartAnswered(turnId))).state.turns
  {
  }
}
