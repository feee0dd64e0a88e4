/** What no run of the reducer can exceed: turn events, tool-item events, and tool counts that add up. */
module ReducerBounds {
  import opened Basics
  import opened Reducer
  import opened ReducerTurns

  // ---------------------------------------------------------------- turn events

  function FactsOfKind(facts: seq<Fact>, turnId: string, k: Kind): nat {
    if facts == [] then 0 else
    FactsOfKind(facts[..|facts| - 1], turnId, k) + Brings(facts[|facts| - 1], turnId, k)
  }

  function Brings(f: Fact, turnId: string, k: Kind): nat {
    if f.OnTurn? && f.turnId == turnId && KindOf(Told(f.turnFact)) == k then 1 else 0
  }

  function TurnEvents(events: seq<Event>, turnId: string): nat {
    if events == [] then 0 else
    var e := events[|events| - 1];
    TurnEvents(events[..|events| - 1], turnId) + if e.TurnEvent? && e.payload.turnId == turnId then 1 else 0
  }

  lemma {:induction false} TurnEventsConcat(a: seq<Event>, b: seq<Event>, turnId: string)
    ensures TurnEvents(a + b, turnId) == TurnEvents(a, turnId) + TurnEvents(b, turnId)
    decreases b
  {
    if b == [] {
      assert a + b == a;
    } else {
      assert (a + b)[..|a + b| - 1] == a + b[..|b| - 1];
      TurnEventsConcat(a, b[..|b| - 1], turnId);
    }
  }

  /** A required fact that the turn holds and has not been reported yet. */
  function Unspent(s: State, turnId: string, k: Kind): nat {
    var t := TurnOf(s, turnId);
    match k
    case ConfigKind => if t.config.Some? then 1 else 0
    case ProfileKind => if t.profile.Some? then 1 else 0
    case CompletedKind => if t.completed.Some? then 1 else 0
    case _ => 0
  }

  lemma NoTurnEvent(e: Event, turnId: string)
    ensures TurnEvents([e], turnId) == if e.TurnEvent? && e.payload.turnId == turnId then 1 else 0
  {
    assert [e][..0] == [];
  }

  lemma {:induction false} NoTurnEvents(events: seq<Event>, turnId: string)
    requires forall i :: 0 <= i < |events| && events[i].TurnEvent? ==> events[i].payload.turnId != turnId
    ensures TurnEvents(events, turnId) == 0
    decreases events
  {
    if events != [] {
      NoTurnEvents(events[..|events| - 1], turnId);
    }
  }

  lemma OneTurnEvent(events: seq<Event>, turnId: string)
    requires 1 <= |events| <= 2 && events[0].TurnEvent? && events[0].payload.turnId == turnId
    requires |events| == 2 ==> !events[1].TurnEvent?
    ensures TurnEvents(events, turnId) == 1
  {
    assert events == [events[0]] + events[1..];
    TurnEventsConcat([events[0]], events[1..], turnId);
    NoTurnEvent(events[0], turnId);
    NoTurnEvents(events[1..], turnId);
  }

  /** An emission spends one fact of every required kind. */
  lemma EmissionSpends(s: State, id: string, turnId: string, k: Kind)
    requires IsRequired(k)
    ensures var r := MaybeEmitTurn(s, id);
            TurnEvents(r.events, turnId) + Unspent(r.state, turnId, k) == Unspent(s, turnId, k)
  {
    var r := MaybeEmitTurn(s, id);
    EmissionHasShape(s, id);
    if id == turnId && r.events != [] {
      OneTurnEvent(r.events, turnId);
    } else {
      NoTurnEvents(r.events, turnId);
    }
  }

  lemma TurnFactSpends(s: State, id: string, f: TurnFact, turnId: string, k: Kind)
    requires IsRequired(k)
    ensures var r := IngestTurnFact(s, id, f);
            TurnEvents(r.events, turnId) + Unspent(r.state, turnId, k) <= Unspent(s, turnId, k) + Brings(OnTurn(id, f), turnId, k)
  {
    EmissionSpends(SetTurn(s, id, ApplyTurnFact(TurnOf(s, id), f)), id, turnId, k);
  }

  lemma StartAnswerSpends(s: State, c: nat, q: RequestId, id: string, turnId: string, k: Kind)
    requires IsRequired(k)
    ensures var r := AnswerTurnStart(s, c, q, id);
            TurnEvents(r.events, turnId) + Unspent(r.state, turnId, k) == Unspent(s, turnId, k)
  {
    if (c, q) in s.requests && s.requests[(c, q)].TurnStart? {
      var p := s.requests[(c, q)];
      var t := TurnOf(s, id).(connectionId := Some(c), threadId := Some(p.threadId), images := Some(p.images));
      EmissionSpends(SetTurn(s.(requests := s.requests - {(c, q)}), id, t), id, turnId, k);
    }
  }

  /** The required facts of a turn are the same in both states. */
  predicate SameRequired(s: State, s': State, turnId: string) {
    var t, t' := TurnOf(s, turnId), TurnOf(s', turnId);
    t'.config == t.config && t'.profile == t.profile && t'.completed == t.completed
  }

  lemma SameUnspent(s: State, s': State, turnId: string, k: Kind)
    requires SameRequired(s, s', turnId)
    ensures Unspent(s', turnId, k) == Unspent(s, turnId, k)
  {
  }

  lemma SteerKeeps(s: State, c: nat, q: RequestId, steered: string, turnId: string)
    ensures SameRequired(s, AnswerTurnSteer(s, c, q, steered).state, turnId)
  {
  }

  /** Requests other than a turn-start answer leave the required facts of turns alone. */
  lemma RequestFactKeeps(s: State, c: nat, q: RequestId, f: RequestFact, turnId: string)
    requires !f.TurnStartAnswered?
    ensures SameRequired(s, IngestRequestFact(s, c, q, f).state, turnId)
  {
    if f.TurnSteerAnswered? { SteerKeeps(s, c, q, f.turnId, turnId); }
  }

  lemma RequestFactSpends(s: State, c: nat, q: RequestId, f: RequestFact, turnId: string, k: Kind)
    requires IsRequired(k)
    ensures var r := IngestRequestFact(s, c, q, f);
            TurnEvents(r.events, turnId) + Unspent(r.state, turnId, k) == Unspent(s, turnId, k)
  {
    if f.TurnStartAnswered? {
      StartAnswerSpends(s, c, q, f.turnId, turnId, k);
    } else {
      RequestFactEffect(s, c, q, f);
      RequestFactKeeps(s, c, q, f, turnId);
      SameUnspent(s, IngestRequestFact(s, c, q, f).state, turnId, k);
      NoTurnEvents(IngestRequestFact(s, c, q, f).events, turnId);
    }
  }

  lemma ItemFactKeeps(s: State, f: ItemFact, turnId: string)
    ensures SameRequired(s, IngestItemFact(s, f).state, turnId)
  {
  }

  lemma ItemFactSpends(s: State, f: ItemFact, turnId: string, k: Kind)
    ensures var r := IngestItemFact(s, f);
            TurnEvents(r.events, turnId) == 0 && Unspent(r.state, turnId, k) == Unspent(s, turnId, k)
  {
    ItemFactEffect(s, f);
    ItemFactKeeps(s, f, turnId);
    SameUnspent(s, IngestItemFact(s, f).state, turnId, k);
    NoTurnEvents(IngestItemFact(s, f).events, turnId);
  }

  /** No fact makes more turn events than the required facts it brings and finds. */
  lemma StepSpends(s: State, f: Fact, turnId: string, k: Kind)
    requires IsRequired(k)
    ensures var r := Ingest(s, f);
            TurnEvents(r.events, turnId) + Unspent(r.state, turnId, k) <= Unspent(s, turnId, k) + Brings(f, turnId, k)
  {
    match f
    case Initialize(_, _) =>
    case OnTurn(id, tf) => TurnFactSpends(s, id, tf, turnId, k);
    case OnRequest(c, q, rf) => RequestFactSpends(s, c, q, rf, turnId, k);
    case OnItem(itf) => ItemFactSpends(s, itf, turnId, k);
    case OnThread(tf) =>
      ThreadFactEffect(s, tf);
      NoTurnEvents(IngestThreadFact(s, tf).events, turnId);
    case OnReview(rf) =>
      ReviewFactEffect(s, rf);
      NoTurnEvents(IngestReviewFact(s, rf).events, turnId);
  }

  lemma {:induction false} RunSpends(facts: seq<Fact>, turnId: string, k: Kind)
    requires IsRequired(k)
    ensures var r := Run(EMPTY, facts);
            TurnEvents(r.events, turnId) + Unspent(r.state, turnId, k) <= FactsOfKind(facts, turnId, k)
    decreases facts
  {
    if facts != [] {
      var front, f := facts[..|facts| - 1], facts[|facts| - 1];
      RunSpends(front, turnId, k);
      StepSpends(Run(EMPTY, front).state, f, turnId, k);
      TurnEventsConcat(Run(EMPTY, front).events, Ingest(Run(EMPTY, front).state, f).events, turnId);
    }
  }

  /**
   Turn-event bound: on every run, the turn events of a turn never exceed the number of its
   resolved-config, of its profile or of its completion facts.
   */
  lemma TurnEventBound(facts: seq<Fact>, turnId: string)
    ensures var n := TurnEvents(Run(EMPTY, facts).events, turnId);
            && n <= FactsOfKind(facts, turnId, ConfigKind)
            && n <= FactsOfKind(facts, turnId, ProfileKind)
            && n <= FactsOfKind(facts, turnId, CompletedKind)
  {
    RunSpends(facts, turnId, ConfigKind);
    RunSpends(facts, turnId, ProfileKind);
    RunSpends(facts, turnId, CompletedKind);
  }

  // ---------------------------------------------------------------- tool counts

  predicate AddsUp(c: ToolCounts) {
    c.total == c.shellCommand + c.fileChange + c.mcpToolCall + c.dynamicToolCall + c.subagentToolCall + c.webSearch + c.imageGeneration
  }

  predicate CountsInv(s: State) {
    forall id :: id in s.turns ==> AddsUp(s.turns[id].counts)
  }

  predicate EventsAddUp(events: seq<Event>) {
    forall i :: 0 <= i < |events| && events[i].TurnEvent? ==> AddsUp(events[i].payload.counts)
  }

  lemma RecordAddsUp(c: ToolCounts, kind: ItemKind)
    requires AddsUp(c)
    ensures AddsUp(RecordItem(c, kind))
  {
  }

  lemma EmissionAddsUp(s: State, id: string)
    requires CountsInv(s)
    ensures CountsInv(MaybeEmitTurn(s, id).state) && EventsAddUp(MaybeEmitTurn(s, id).events)
  {
  }

  lemma SetTurnAddsUp(s: State, id: string, t: Turn)
    requires CountsInv(s) && t.counts == TurnOf(s, id).counts
    ensures CountsInv(SetTurn(s, id, t))
  {
  }

  /** A turn shown anew, with its counts as they were. */
  lemma ShowAddsUp(s: State, id: string, t: Turn, emits: bool)
    requires CountsInv(s) && t.counts == TurnOf(s, id).counts
    ensures var r := if emits then MaybeEmitTurn(SetTurn(s, id, t), id) else Result(SetTurn(s, id, t), []);
            CountsInv(r.state) && EventsAddUp(r.events)
  {
    SetTurnAddsUp(s, id, t);
    EmissionAddsUp(SetTurn(s, id, t), id);
  }

  lemma RequestAddsUp(s: State, c: nat, q: RequestId, f: RequestFact)
    requires CountsInv(s)
    ensures CountsInv(IngestRequestFact(s, c, q, f).state) && EventsAddUp(IngestRequestFact(s, c, q, f).events)
  {
    var id := (c, q);
    if f.TurnStartAnswered? && id in s.requests && s.requests[id].TurnStart? {
      var p := s.requests[id];
      var t := TurnOf(s, f.turnId).(connectionId := Some(c), threadId := Some(p.threadId), images := Some(p.images));
      ShowAddsUp(s.(requests := s.requests - {id}), f.turnId, t, true);
    }
  }

  lemma TurnFactKeepsCounts(t: Turn, f: TurnFact)
    ensures ApplyTurnFact(t, f).counts == t.counts
  {
  }

  lemma TurnFactAddsUp(s: State, id: string, f: TurnFact)
    requires CountsInv(s)
    ensures CountsInv(IngestTurnFact(s, id, f).state) && EventsAddUp(IngestTurnFact(s, id, f).events)
  {
    TurnFactKeepsCounts(TurnOf(s, id), f);
    ShowAddsUp(s, id, ApplyTurnFact(TurnOf(s, id), f), ChecksForEmission(f));
  }

  lemma ItemFactAddsUp(s: State, f: ItemFact)
    requires CountsInv(s)
    ensures CountsInv(IngestItemFact(s, f).state) && EventsAddUp(IngestItemFact(s, f).events)
  {
    ItemFactEffect(s, f);
    if f.ItemCompleted? && f.turnId in s.turns {
      RecordAddsUp(s.turns[f.turnId].counts, f.item.kind);
    }
  }

  lemma StepAddsUp(s: State, f: Fact)
    requires CountsInv(s)
    ensures CountsInv(Ingest(s, f).state) && EventsAddUp(Ingest(s, f).events)
  {
    match f
    case Initialize(_, _) =>
    case OnTurn(id, tf) => TurnFactAddsUp(s, id, tf);
    case OnRequest(c, q, rf) => RequestAddsUp(s, c, q, rf);
    case OnItem(itf) => ItemFactAddsUp(s, itf);
    case OnThread(tf) => ThreadFactEffect(s, tf);
    case OnReview(rf) => ReviewFactEffect(s, rf);
  }

  /** On every run, every total tool count that is reported is the sum of its seven categories. */
  lemma {:induction false} ToolCountsAddUp(facts: seq<Fact>)
    ensures CountsInv(Run(EMPTY, facts).state) && EventsAddUp(Run(EMPTY, facts).events)
    decreases facts
  {
    if facts != [] {
      ToolCountsAddUp(facts[..|facts| - 1]);
      StepAddsUp(Run(EMPTY, facts[..|facts| - 1]).state, facts[|facts| - 1]);
    }
  }

  // ---------------------------------------------------------------- tool items

  function StartsOf(facts: seq<Fact>, key: ItemKey): nat {
    if facts == [] then 0 else StartsOf(facts[..|facts| - 1], key) + Starts(facts[|facts| - 1], key)
  }

  function Starts(f: Fact, key: ItemKey): nat {
    match f
    case OnItem(ItemStarted(threadId, turnId, item, at)) =>
      if IsTracked(item.kind) && at >= 0 && ItemKey(threadId, turnId, item.id) == key then 1 else 0
    case _ => 0
  }

  function ItemEvents(events: seq<Event>, key: ItemKey): nat {
    if events == [] then 0 else
    var e := events[|events| - 1];
    ItemEvents(events[..|events| - 1], key) + if e.ToolItemEvent? && e.key == key then 1 else 0
  }

  function Open(s: State, key: ItemKey): nat {
    if key in s.started then 1 else 0
  }

  lemma {:induction false} ItemEventsConcat(a: seq<Event>, b: seq<Event>, key: ItemKey)
    ensures ItemEvents(a + b, key) == ItemEvents(a, key) + ItemEvents(b, key)
    decreases b
  {
    if b == [] {
      assert a + b == a;
    } else {
      assert (a + b)[..|a + b| - 1] == a + b[..|b| - 1];
      ItemEventsConcat(a, b[..|b| - 1], key);
    }
  }

  lemma {:induction false} NoItemEvents(events: seq<Event>, key: ItemKey)
    requires forall i :: 0 <= i < |events| ==> !events[i].ToolItemEvent?
    ensures ItemEvents(events, key) == 0
    decreases events
  {
    if events != [] {
      NoItemEvents(events[..|events| - 1], key);
    }
  }

  lemma ItemFactOpens(s: State, f: ItemFact, key: ItemKey)
    ensures var r := IngestItemFact(s, f);
            ItemEvents(r.events, key) + Open(r.state, key) <= Open(s, key) + Starts(OnItem(f), key)
  {
    var r := IngestItemFact(s, f);
    if r.events != [] {
      assert r.events[..0] == [] && |r.events| == 1;
    }
  }

  lemma StepOpens(s: State, f: Fact, key: ItemKey)
    ensures var r := Ingest(s, f);
            ItemEvents(r.events, key) + Open(r.state, key) <= Open(s, key) + Starts(f, key)
  {
    match f
    case Initialize(_, _) =>
    case OnItem(itf) => ItemFactOpens(s, itf, key);
    case OnTurn(id, tf) =>
      TurnFactEffect(s, id, tf);
      NoItemEvents(IngestTurnFact(s, id, tf).events, key);
    case OnRequest(c, q, rf) =>
      RequestFactEffect(s, c, q, rf);
      NoItemEvents(IngestRequestFact(s, c, q, rf).events, key);
    case OnThread(tf) =>
      ThreadFactEffect(s, tf);
      NoItemEvents(IngestThreadFact(s, tf).events, key);
    case OnReview(rf) =>
      ReviewFactEffect(s, rf);
      NoItemEvents(IngestReviewFact(s, rf).events, key);
  }

  /** On every run, an item has at most one event per accepted start, and an open start is not yet spent. */
  lemma {:induction false} ToolItemBound(facts: seq<Fact>, key: ItemKey)
    ensures var r := Run(EMPTY, facts);
            ItemEvents(r.events, key) + Open(r.state, key) <= StartsOf(facts, key)
    decreases facts
  {
    if facts != [] {
      var front, f := facts[..|facts| - 1], facts[|facts| - 1];
      ToolItemBound(front, key);
      StepOpens(Run(EMPTY, front).state, f, key);
      ItemEventsConcat(Run(EMPTY, front).events, Ingest(Run(EMPTY, front).state, f).events, key);
    }
  }
}
