/**
 Turn events: whatever the order of the facts about a turn, and whatever else happens in
 between, one event is emitted, at the last required fact, with the same payload.
 */
module ReducerTurns {
  import opened Basics
  import opened Reducer

  // ---------------------------------------------------------------- inputs of one turn

  /** What reaches a turn: a turn fact, the answer to the request that started it, a completed item, an accepted steer. */
  datatype Input =
    | Told(fact: TurnFact)
    | Started(connectionId: nat, threadId: string, images: nat)
    | Counted(kind: ItemKind)
    | Steered

  datatype Kind =
    | ConfigKind | TokensKind | ProfileKind | ErrorKind | StartedKind | DiffKind | CompletedKind | AnswerKind | TallyKind

  function KindOf(i: Input): Kind {
    match i
    case Told(ResolvedConfig(_, _, _)) => ConfigKind
    case Told(TokenUsage(_, _)) => TokensKind
    case Told(Profile(_)) => ProfileKind
    case Told(CodexError(_, _)) => ErrorKind
    case Told(TurnStarted(_)) => StartedKind
    case Told(DiffUpdated(_, _)) => DiffKind
    case Told(TurnCompleted(_)) => CompletedKind
    case Started(_, _, _) => AnswerKind
    case Counted(_) => TallyKind
    case Steered => TallyKind
  }

  predicate IsRequired(k: Kind) {
    k == ConfigKind || k == ProfileKind || k == CompletedKind
  }

  function Apply(t: Turn, i: Input): Turn {
    match i
    case Told(f) => ApplyTurnFact(t, f)
    case Started(c, threadId, images) => t.(connectionId := Some(c), threadId := Some(threadId), images := Some(images))
    case Counted(kind) => t.(counts := RecordItem(t.counts, kind))
    case Steered => t.(steers := t.steers + 1)
  }

  function Fold(t: Turn, ins: seq<Input>): Turn {
    if ins == [] then t else Apply(Fold(t, ins[..|ins| - 1]), ins[|ins| - 1])
  }

  predicate Has(ins: seq<Input>, k: Kind) {
    exists i :: 0 <= i < |ins| && KindOf(ins[i]) == k
  }

  predicate HasRequired(ins: seq<Input>) {
    Has(ins, ConfigKind) && Has(ins, ProfileKind) && Has(ins, CompletedKind)
  }

  /** Items and steers may repeat; of anything else one is enough. */
  predicate Distinct(a: Input, b: Input) {
    KindOf(a) != KindOf(b) || KindOf(a) == TallyKind
  }

  predicate DistinctKinds(ins: seq<Input>) {
    forall i, j :: 0 <= i < j < |ins| ==> Distinct(ins[i], ins[j])
  }

  /**
   The turn in question, the thread, image count and connection its facts agree on, and the
   key of the turn-start request, if the turn was started by one.
   */
  datatype Setting = Setting(turnId: string, threadId: string, images: nat, connectionId: nat, start: Option<(nat, RequestId)>)

  predicate Agrees(k: Setting, i: Input) {
    match i
    case Told(ResolvedConfig(threadId, images, _)) => threadId == k.threadId && images == k.images
    case Told(TokenUsage(threadId, _)) => threadId == k.threadId
    case Told(CodexError(threadId, _)) => threadId == k.threadId
    case Told(DiffUpdated(threadId, _)) => threadId == k.threadId
    case Started(c, threadId, images) => k.start.Some? && c == k.start.value.0 && threadId == k.threadId && images == k.images
    case _ => true
  }

  predicate AllAgree(k: Setting, ins: seq<Input>) {
    forall i :: 0 <= i < |ins| ==> Agrees(k, ins[i])
  }

  lemma FoldSnoc(t: Turn, ins: seq<Input>, i: Input)
    ensures Fold(t, ins + [i]) == Apply(Fold(t, ins), i)
  {
    assert (ins + [i])[..|ins|] == ins;
  }

  lemma HasSnoc(ins: seq<Input>, i: Input, k: Kind)
    ensures Has(ins + [i], k) <==> Has(ins, k) || KindOf(i) == k
  {
    var all := ins + [i];
    assert all[|ins|] == i;
    if Has(ins, k) {
      var j :| 0 <= j < |ins| && KindOf(ins[j]) == k;
      assert KindOf(all[j]) == k;
    }
  }

  /** Among inputs of distinct kinds the last one brings a new kind, or is an item or steer. */
  lemma NewKind(ins: seq<Input>, i: Input)
    requires DistinctKinds(ins + [i])
    ensures DistinctKinds(ins) && (KindOf(i) == TallyKind || !Has(ins, KindOf(i)))
  {
    var all := ins + [i];
    assert all[|ins|] == i && forall j :: 0 <= j < |ins| ==> all[j] == ins[j];
    if Has(ins, KindOf(i)) {
      var j :| 0 <= j < |ins| && KindOf(ins[j]) == KindOf(i);
      assert Distinct(all[j], all[|ins|]);
    }
  }

  /** What a turn that only saw agreeing inputs can hold. */
  predicate Settled(k: Setting, t: Turn) {
    && (t.threadId == None || t.threadId == Some(k.threadId))
    && (t.images == None || t.images == Some(k.images))
    && (t.config.Some? ==> t.threadId.Some? && t.images.Some?)
  }

  /** What one input sets. */
  lemma ApplyFields(k: Setting, t: Turn, i: Input)
    requires Settled(k, t) && Agrees(k, i)
    ensures var t' := Apply(t, i);
            && Settled(k, t')
            && (t'.config.Some? <==> t.config.Some? || KindOf(i) == ConfigKind)
            && (t'.profile.Some? <==> t.profile.Some? || KindOf(i) == ProfileKind)
            && (t'.completed.Some? <==> t.completed.Some? || KindOf(i) == CompletedKind)
            && t'.connectionId == if KindOf(i) == AnswerKind then Some(k.start.value.0) else t.connectionId
    ensures KindOf(i) == AnswerKind ==> k.start.Some?
  {
  }

  /** Which fields are set tells which kinds of input there were. */
  lemma {:induction false} FoldFields(k: Setting, ins: seq<Input>)
    requires AllAgree(k, ins)
    ensures var t := Fold(NEW_TURN, ins);
            && Settled(k, t)
            && (t.config.Some? <==> Has(ins, ConfigKind))
            && (t.profile.Some? <==> Has(ins, ProfileKind))
            && (t.completed.Some? <==> Has(ins, CompletedKind))
            && (t.connectionId.Some? <==> Has(ins, AnswerKind))
            && (t.connectionId.Some? ==> k.start.Some? && t.connectionId == Some(k.start.value.0))
    decreases ins
  {
    if ins != [] {
      var front, last := ins[..|ins| - 1], ins[|ins| - 1];
      assert ins == front + [last] && Agrees(k, last);
      FoldFields(k, front);
      ApplyFields(k, Fold(NEW_TURN, front), last);
      HasSnoc(front, last, ConfigKind);
      HasSnoc(front, last, ProfileKind);
      HasSnoc(front, last, CompletedKind);
      HasSnoc(front, last, AnswerKind);
    }
  }

  lemma CompleteExactly(k: Setting, ins: seq<Input>)
    requires AllAgree(k, ins)
    ensures IsComplete(Fold(NEW_TURN, ins)) <==> HasRequired(ins)
  {
    FoldFields(k, ins);
  }

  // ---------------------------------------------------------------- the order does not matter

  lemma InputsCommute(k: Setting, t: Turn, a: Input, b: Input)
    requires Settled(k, t) && Agrees(k, a) && Agrees(k, b) && Distinct(a, b)
    ensures Apply(Apply(t, a), b) == Apply(Apply(t, b), a)
    ensures Settled(k, Apply(t, a))
  {
    if a.Counted? && b.Counted? { ItemsCommute(t.counts, a.kind, b.kind); }
  }

  lemma ItemsCommute(c: ToolCounts, a: ItemKind, b: ItemKind)
    ensures RecordItem(RecordItem(c, a), b) == RecordItem(RecordItem(c, b), a)
  {
  }

  lemma {:induction false} FoldSettled(k: Setting, t: Turn, ins: seq<Input>)
    requires Settled(k, t) && AllAgree(k, ins)
    ensures Settled(k, Fold(t, ins))
    decreases ins
  {
    if ins != [] {
      FoldSettled(k, t, ins[..|ins| - 1]);
      assert Agrees(k, ins[|ins| - 1]);
    }
  }

  lemma {:induction false} FoldConcat(t: Turn, a: seq<Input>, b: seq<Input>)
    ensures Fold(t, a + b) == Fold(Fold(t, a), b)
    decreases b
  {
    if b == [] {
      assert a + b == a;
    } else {
      assert (a + b)[..|a + b| - 1] == a + b[..|b| - 1];
      FoldConcat(t, a, b[..|b| - 1]);
    }
  }

  /** An input may be moved past inputs of other kinds. */
  lemma {:induction false} MoveToEnd(k: Setting, t: Turn, x: Input, q: seq<Input>)
    requires Settled(k, t) && Agrees(k, x) && AllAgree(k, q)
    requires forall j :: 0 <= j < |q| ==> Distinct(x, q[j])
    ensures Fold(Apply(t, x), q) == Apply(Fold(t, q), x)
    decreases q
  {
    if q != [] {
      var front, last := q[..|q| - 1], q[|q| - 1];
      MoveToEnd(k, t, x, front);
      FoldSettled(k, t, front);
      InputsCommute(k, Fold(t, front), x, last);
    }
  }

  /** An input in the middle may as well come last. */
  lemma PullOut(k: Setting, t: Turn, p: seq<Input>, x: Input, q: seq<Input>)
    requires Settled(k, t) && AllAgree(k, p) && Agrees(k, x) && AllAgree(k, q)
    requires forall j :: 0 <= j < |q| ==> Distinct(x, q[j])
    ensures Fold(t, p + [x] + q) == Apply(Fold(t, p + q), x)
  {
    FoldConcat(t, p, q);
    FoldConcat(t, p + [x], q);
    FoldSnoc(t, p, x);
    FoldSettled(k, t, p);
    MoveToEnd(k, Fold(t, p), x, q);
  }

  /** A sequence with the elements of `front + [x]` has `x` somewhere, and the rest is `front` reordered. */
  lemma FindLast(front: seq<Input>, x: Input, b: seq<Input>) returns (p: seq<Input>, q: seq<Input>)
    requires multiset(front + [x]) == multiset(b)
    ensures b == p + [x] + q && multiset(front) == multiset(p + q)
  {
    assert x in multiset(front + [x]);
    var i :| 0 <= i < |b| && b[i] == x;
    p, q := b[..i], b[i + 1..];
    assert b == p + [x] + q;
    SameWithout(front, x, p, q);
  }

  lemma SameWithout(front: seq<Input>, x: Input, p: seq<Input>, q: seq<Input>)
    requires multiset(front + [x]) == multiset(p + [x] + q)
    ensures multiset(front) == multiset(p + q)
  {
    var a, b := multiset(front), multiset(p) + multiset(q);
    assert a + multiset{x} == multiset(front + [x]);
    assert b + multiset{x} == multiset(p + [x] + q);
    assert a == (a + multiset{x}) - multiset{x} && b == (b + multiset{x}) - multiset{x};
    assert multiset(p + q) == b;
  }

  lemma PartsAgree(k: Setting, p: seq<Input>, x: Input, q: seq<Input>)
    requires AllAgree(k, p + [x] + q)
    ensures AllAgree(k, p + q) && AllAgree(k, p) && AllAgree(k, q) && Agrees(k, x)
  {
    var b := p + [x] + q;
    assert b[|p|] == x;
    assert forall j :: 0 <= j < |p| ==> p[j] == b[j];
    assert forall j :: 0 <= j < |q| ==> q[j] == b[|p| + 1 + j];
  }

  lemma PartsDistinct(p: seq<Input>, x: Input, q: seq<Input>)
    requires DistinctKinds(p + [x] + q)
    ensures DistinctKinds(p + q)
    ensures forall j :: 0 <= j < |q| ==> Distinct(x, q[j])
  {
    var b, c := p + [x] + q, p + q;
    assert b[|p|] == x;
    forall j | 0 <= j < |q|
      ensures Distinct(x, q[j])
    {
      assert Distinct(b[|p|], b[|p| + 1 + j]);
    }
    forall i, j | 0 <= i < j < |c|
      ensures Distinct(c[i], c[j])
    {
      var i', j' := if i < |p| then i else i + 1, if j < |p| then j else j + 1;
      assert c[i] == b[i'] && c[j] == b[j'] && Distinct(b[i'], b[j']);
    }
  }

  /** A turn is the same however its inputs are ordered. */
  lemma {:induction false} FoldPermutation(k: Setting, t: Turn, a: seq<Input>, b: seq<Input>)
    requires multiset(a) == multiset(b) && DistinctKinds(b) && AllAgree(k, b) && Settled(k, t)
    ensures Fold(t, a) == Fold(t, b)
    decreases a
  {
    if a == [] {
      assert |multiset(b)| == 0;
      assert b == [];
    } else {
      var front, x := a[..|a| - 1], a[|a| - 1];
      assert a == front + [x];
      var p, q := FindLast(front, x, b);
      PartsAgree(k, p, x, q);
      PartsDistinct(p, x, q);
      FoldPermutation(k, t, front, p + q);
      PullOut(k, t, p, x, q);
    }
  }

  // ---------------------------------------------------------------- runs that concern the turn

  /** The input that a fact which sets fields of the turn holds for it. */
  function InputOf(k: Setting, f: Fact): seq<Input> {
    match f
    case OnTurn(id, tf) => if id == k.turnId then [Told(tf)] else []
    case OnRequest(c, r, TurnStartAnswered(id)) =>
      if id == k.turnId && k.start == Some((c, r)) then [Started(c, k.threadId, k.images)] else []
    case _ => []
  }

  /**
   The input that a completed item or an accepted steer holds for the turn. It is lost while the
   turn is not `known`, and a steer is one only if its request is among the pending `requests`.
   */
  function TallyOf(k: Setting, requests: map<(nat, RequestId), Request>, known: bool, f: Fact): seq<Input> {
    match f
    case OnItem(ItemCompleted(_, id, item, _)) =>
      if id == k.turnId && known && !item.kind.UntrackedItem? then [Counted(item.kind)] else []
    case OnRequest(c, r, TurnSteerAnswered(id)) =>
      if id == k.turnId && known && (c, r) in requests && requests[(c, r)].TurnSteer? then [Steered] else []
    case _ => []
  }

  /** The pending requests after a fact. */
  function NextRequests(requests: map<(nat, RequestId), Request>, f: Fact): map<(nat, RequestId), Request> {
    match f
    case OnRequest(c, r, TurnStartRequested(threadId, images)) => requests[(c, r) := TurnStart(threadId, images)]
    case OnRequest(c, r, TurnSteerRequested(threadId, expected, images)) => requests[(c, r) := TurnSteer(threadId, expected, images)]
    case OnRequest(c, r, _) => requests - {(c, r)}
    case _ => requests
  }

  function RequestsAfter(requests: map<(nat, RequestId), Request>, facts: seq<Fact>): map<(nat, RequestId), Request> {
    if facts == [] then requests else NextRequests(RequestsAfter(requests, facts[..|facts| - 1]), facts[|facts| - 1])
  }

  /** What a run that begins with the given pending requests shows the turn. */
  function Inputs(k: Setting, requests: map<(nat, RequestId), Request>, facts: seq<Fact>): seq<Input> {
    if facts == [] then [] else
    var front, f := facts[..|facts| - 1], facts[|facts| - 1];
    var ins := Inputs(k, requests, front);
    ins + (InputOf(k, f) + TallyOf(k, RequestsAfter(requests, front), ins != [], f))
  }

  /**
   Facts about anything else: other turns, other threads and connections, all reviews. A subagent
   start may even name the turn's own thread, and items and steers may be the turn's own.
   */
  predicate Spares(k: Setting, f: Fact) {
    match f
    case Initialize(c, _) => c != k.connectionId && (k.start.Some? ==> c != k.start.value.0)
    case OnThread(ThreadReady(_, threadId, _)) => threadId != k.threadId
    case OnRequest(c, r, rf) => k.start != Some((c, r)) && (rf.TurnStartAnswered? ==> rf.turnId != k.turnId)
    case _ => true
  }

  predicate Fits(k: Setting, f: Fact) {
    if InputOf(k, f) == [] then Spares(k, f) else Agrees(k, InputOf(k, f)[0])
  }

  predicate AllFit(k: Setting, facts: seq<Fact>) {
    forall i :: 0 <= i < |facts| ==> Fits(k, facts[i])
  }

  /** The turn is new, and the connection and thread metadata it will need are there. */
  predicate Ready(k: Setting, s: State) {
    && k.turnId !in s.turns
    && k.threadId in s.threads && s.threads[k.threadId].connectionId == Some(k.connectionId)
    && s.threads[k.threadId].metadata.Some? && k.connectionId in s.connections
    && (k.start.Some? ==> k.start.value in s.requests && k.start.value.0 in s.connections
                          && s.requests[k.start.value] == TurnStart(k.threadId, k.images))
  }

  function EventsOf(turnId: string, events: seq<Event>): seq<Event> {
    if events == [] then [] else
    var e := events[|events| - 1];
    EventsOf(turnId, events[..|events| - 1]) +
    if (e.TurnEvent? && e.payload.turnId == turnId) || (e.AcceptedLines? && e.turnId == turnId) then [e] else []
  }

  lemma {:induction false} EventsOfConcat(turnId: string, a: seq<Event>, b: seq<Event>)
    ensures EventsOf(turnId, a + b) == EventsOf(turnId, a) + EventsOf(turnId, b)
    decreases b
  {
    if b == [] {
      assert a + b == a;
    } else {
      assert (a + b)[..|a + b| - 1] == a + b[..|b| - 1];
      EventsOfConcat(turnId, a, b[..|b| - 1]);
    }
  }

  /** The events the turn deserves: read off its inputs and the initial context alone. */
  function DueEvents(k: Setting, s: State, ins: seq<Input>): seq<Event>
    requires Ready(k, s) && AllAgree(k, ins) && HasRequired(ins)
  {
    CompleteExactly(k, ins);
    var t := Fold(NEW_TURN, ins);
    var c := s.connections[if Has(ins, AnswerKind) && k.start.Some? then k.start.value.0 else k.connectionId];
    [TurnEvent(Payload(k.turnId, t, c, s.threads[k.threadId].metadata.value))] + AcceptedLinesOf(k.turnId, t)
  }

  /** Where a run stands that has shown the turn `ins` and not emitted it. */
  predicate Tracking(k: Setting, s0: State, s: State, ins: seq<Input>)
    requires Ready(k, s0)
  {
    && k.threadId in s.threads && s.threads[k.threadId] == s0.threads[k.threadId]
    && k.connectionId in s.connections && s.connections[k.connectionId] == s0.connections[k.connectionId]
    && (k.start.Some? ==> k.start.value.0 in s.connections && s.connections[k.start.value.0] == s0.connections[k.start.value.0])
    && (k.start.Some? && !Has(ins, AnswerKind) ==>
          k.start.value in s.requests && s.requests[k.start.value] == TurnStart(k.threadId, k.images))
    && TurnOf(s, k.turnId) == Fold(NEW_TURN, ins)
    && (k.turnId in s.turns <==> ins != [])
  }

  lemma EmptyEvents(turnId: string, e: Event)
    ensures EventsOf(turnId, [e]) ==
            if (e.TurnEvent? && e.payload.turnId == turnId) || (e.AcceptedLines? && e.turnId == turnId) then [e] else []
  {
    assert [e][..0] == [];
  }

  lemma {:induction false} ForeignEvents(turnId: string, events: seq<Event>)
    requires forall i :: 0 <= i < |events| ==> !(events[i].TurnEvent? && events[i].payload.turnId == turnId)
    requires forall i :: 0 <= i < |events| ==> !(events[i].AcceptedLines? && events[i].turnId == turnId)
    ensures EventsOf(turnId, events) == []
    decreases events
  {
    if events != [] {
      ForeignEvents(turnId, events[..|events| - 1]);
    }
  }

  /** Another turn's emission neither touches nor mentions this turn. */
  lemma OtherTurnEmits(k: Setting, s: State, other: string)
    requires other != k.turnId
    ensures var r := MaybeEmitTurn(s, other);
            && EventsOf(k.turnId, r.events) == []
            && TurnOf(r.state, k.turnId) == TurnOf(s, k.turnId) && (k.turnId in r.state.turns <==> k.turnId in s.turns)
            && r.state == s.(turns := r.state.turns)
  {
    EmissionHasShape(s, other);
    ForeignEvents(k.turnId, MaybeEmitTurn(s, other).events);
  }

  /** Tracking looks at the turn, its thread, its connections and its request only. */
  lemma KeepTracking(k: Setting, s0: State, s: State, s': State, ins: seq<Input>)
    requires Ready(k, s0) && Tracking(k, s0, s, ins)
    requires s'.threads == s.threads && s'.connections == s.connections && s'.requests == s.requests
    requires TurnOf(s', k.turnId) == TurnOf(s, k.turnId) && (k.turnId in s'.turns <==> k.turnId in s.turns)
    ensures Tracking(k, s0, s', ins)
  {
  }

  /** Items of other turns, or of this one while it is not known, leave it alone. */
  lemma SparedTurn(k: Setting, s: State, itf: ItemFact)
    requires TallyOf(k, s.requests, k.turnId in s.turns, OnItem(itf)) == []
    ensures var s' := IngestItemFact(s, itf).state;
            TurnOf(s', k.turnId) == TurnOf(s, k.turnId) && (k.turnId in s'.turns <==> k.turnId in s.turns)
  {
  }

  lemma SparedOnTurn(k: Setting, s0: State, s: State, ins: seq<Input>, id: string, tf: TurnFact)
    requires Ready(k, s0) && Tracking(k, s0, s, ins) && id != k.turnId
    ensures var r := IngestTurnFact(s, id, tf);
            Tracking(k, s0, r.state, ins) && EventsOf(k.turnId, r.events) == []
  {
    OtherTurnEmits(k, SetTurn(s, id, ApplyTurnFact(TurnOf(s, id), tf)), id);
  }

  /** Requests other than the turn's own may come and go. */
  lemma ForgetRequest(k: Setting, s0: State, s: State, ins: seq<Input>, id: (nat, RequestId))
    requires Ready(k, s0) && Tracking(k, s0, s, ins) && k.start != Some(id)
    ensures Tracking(k, s0, s.(requests := s.requests - {id}), ins)
  {
  }

  lemma SparedStart(k: Setting, s0: State, s: State, ins: seq<Input>, c: nat, r: RequestId, turnId: string)
    requires Ready(k, s0) && Tracking(k, s0, s, ins) && k.start != Some((c, r)) && turnId != k.turnId
    ensures var res := AnswerTurnStart(s, c, r, turnId);
            Tracking(k, s0, res.state, ins) && EventsOf(k.turnId, res.events) == []
  {
    var id := (c, r);
    ForgetRequest(k, s0, s, ins, id);
    if id in s.requests && s.requests[id].TurnStart? {
      var q := s.requests[id];
      var t := TurnOf(s, turnId).(connectionId := Some(c), threadId := Some(q.threadId), images := Some(q.images));
      OtherTurnEmits(k, SetTurn(s.(requests := s.requests - {id}), turnId, t), turnId);
    }
  }

  lemma SparedSteer(k: Setting, s0: State, s: State, ins: seq<Input>, c: nat, r: RequestId, turnId: string)
    requires Ready(k, s0) && Tracking(k, s0, s, ins) && k.start != Some((c, r))
    ensures var res := AnswerTurnSteer(s, c, r, turnId);
            && Tracking(k, s0, res.state, ins + TallyOf(k, s.requests, ins != [], OnRequest(c, r, TurnSteerAnswered(turnId))))
            && EventsOf(k.turnId, res.events) == []
  {
    var tally := TallyOf(k, s.requests, ins != [], OnRequest(c, r, TurnSteerAnswered(turnId)));
    if tally == [] { assert ins + tally == ins; } else { FoldSnoc(NEW_TURN, ins, Steered); HasSnoc(ins, Steered, AnswerKind); }
    ForgetRequest(k, s0, s, ins, (c, r));
    var res := AnswerTurnSteer(s, c, r, turnId);
    if res.events != [] { EmptyEvents(k.turnId, res.events[0]); }
  }

  lemma SparedOnRequest(k: Setting, s0: State, s: State, ins: seq<Input>, c: nat, r: RequestId, rf: RequestFact)
    requires Ready(k, s0) && Tracking(k, s0, s, ins) && Spares(k, OnRequest(c, r, rf))
    ensures var res := IngestRequestFact(s, c, r, rf);
            && Tracking(k, s0, res.state, ins + TallyOf(k, s.requests, ins != [], OnRequest(c, r, rf)))
            && EventsOf(k.turnId, res.events) == []
  {
    if !rf.TurnSteerAnswered? { assert ins + TallyOf(k, s.requests, ins != [], OnRequest(c, r, rf)) == ins; }
    match rf
    case TurnStartAnswered(turnId) => SparedStart(k, s0, s, ins, c, r, turnId);
    case TurnSteerAnswered(turnId) => SparedSteer(k, s0, s, ins, c, r, turnId);
    case RequestFailed =>
      ForgetRequest(k, s0, s, ins, (c, r));
      var res := FailRequest(s, c, r);
      if res.events != [] { EmptyEvents(k.turnId, res.events[0]); }
    case _ =>
  }

  lemma SparedOnReview(k: Setting, s0: State, s: State, ins: seq<Input>, rf: ReviewFact)
    requires Ready(k, s0) && Tracking(k, s0, s, ins)
    ensures var r := IngestReviewFact(s, rf);
            Tracking(k, s0, r.state, ins) && EventsOf(k.turnId, r.events) == []
  {
    ReviewFactEffect(s, rf);
    ForeignEvents(k.turnId, IngestReviewFact(s, rf).events);
    KeepTracking(k, s0, s, IngestReviewFact(s, rf).state, ins);
  }

  lemma SparedOnThread(k: Setting, s0: State, s: State, ins: seq<Input>, tf: ThreadFact)
    requires Ready(k, s0) && Tracking(k, s0, s, ins) && Spares(k, OnThread(tf))
    ensures var r := IngestThreadFact(s, tf);
            Tracking(k, s0, r.state, ins) && EventsOf(k.turnId, r.events) == []
  {
    ThreadFactEffect(s, tf);
    ForeignEvents(k.turnId, IngestThreadFact(s, tf).events);
  }

  /** A completed item of the turn is counted, whatever becomes of its own event. */
  lemma CountedItem(k: Setting, s0: State, s: State, ins: seq<Input>, itf: ItemFact)
    requires Ready(k, s0) && Tracking(k, s0, s, ins) && TallyOf(k, s.requests, ins != [], OnItem(itf)) != []
    ensures Tracking(k, s0, IngestItemFact(s, itf).state, ins + TallyOf(k, s.requests, ins != [], OnItem(itf)))
  {
    var i, s' := Counted(itf.item.kind), IngestItemFact(s, itf).state;
    FoldSnoc(NEW_TURN, ins, i);
    HasSnoc(ins, i, AnswerKind);
    ItemFactEffect(s, itf);
    assert TurnOf(s', k.turnId) == Apply(TurnOf(s, k.turnId), i) && k.turnId in s'.turns;
  }

  lemma SparedOnItem(k: Setting, s0: State, s: State, ins: seq<Input>, itf: ItemFact)
    requires Ready(k, s0) && Tracking(k, s0, s, ins)
    ensures var r := IngestItemFact(s, itf);
            && Tracking(k, s0, r.state, ins + TallyOf(k, s.requests, ins != [], OnItem(itf)))
            && EventsOf(k.turnId, r.events) == []
  {
    var r, tally := IngestItemFact(s, itf), TallyOf(k, s.requests, ins != [], OnItem(itf));
    ItemFactEffect(s, itf);
    ForeignEvents(k.turnId, r.events);
    if tally == [] {
      assert ins + tally == ins;
      SparedTurn(k, s, itf);
      KeepTracking(k, s0, s, r.state, ins);
    } else {
      CountedItem(k, s0, s, ins, itf);
    }
  }

  /** A fact that sets no field of the turn leaves it as it is, but for its tallies. */
  lemma SparedStep(k: Setting, s0: State, s: State, ins: seq<Input>, f: Fact)
    requires Ready(k, s0) && Tracking(k, s0, s, ins) && InputOf(k, f) == [] && Spares(k, f)
    ensures Tracking(k, s0, Ingest(s, f).state, ins + TallyOf(k, s.requests, ins != [], f)) && EventsOf(k.turnId, Ingest(s, f).events) == []
  {
    if !f.OnRequest? && !f.OnItem? { assert ins + TallyOf(k, s.requests, ins != [], f) == ins; }
    match f
    case Initialize(_, _) =>
    case OnThread(tf) => SparedOnThread(k, s0, s, ins, tf);
    case OnRequest(c, r, rf) => SparedOnRequest(k, s0, s, ins, c, r, rf);
    case OnTurn(id, tf) => SparedOnTurn(k, s0, s, ins, id, tf);
    case OnItem(itf) => SparedOnItem(k, s0, s, ins, itf);
    case OnReview(rf) => SparedOnReview(k, s0, s, ins, rf);
  }

  /** The state in which a fact for the turn looks for emission. */
  function Shown(k: Setting, s: State, f: Fact): State
    requires |InputOf(k, f)| == 1
  {
    var s1 := if f.OnRequest? then s.(requests := s.requests - {(f.connectionId, f.requestId)}) else s;
    SetTurn(s1, k.turnId, Apply(TurnOf(s, k.turnId), InputOf(k, f)[0]))
  }

  /** A fact for the turn shows it one more input and, at most, tries to emit. */
  lemma InputStep(k: Setting, s0: State, s: State, ins: seq<Input>, f: Fact)
    requires Ready(k, s0) && Tracking(k, s0, s, ins) && |InputOf(k, f)| == 1 && Agrees(k, InputOf(k, f)[0])
    requires DistinctKinds(ins + InputOf(k, f))
    ensures var i, s1 := InputOf(k, f)[0], Shown(k, s, f);
            && Tracking(k, s0, s1, ins + [i])
            && Ingest(s, f) == if i.Told? && !ChecksForEmission(i.fact) then Result(s1, []) else MaybeEmitTurn(s1, k.turnId)
  {
    var i := InputOf(k, f)[0];
    assert InputOf(k, f) == [i];
    FoldSnoc(NEW_TURN, ins, i);
    HasSnoc(ins, i, AnswerKind);
    NewKind(ins, i);
  }

  lemma EarlyEmission(k: Setting, s0: State, s: State, ins: seq<Input>, i: Input)
    requires Ready(k, s0) && Tracking(k, s0, s, ins + [i]) && AllAgree(k, ins) && Agrees(k, i) && !HasRequired(ins + [i])
    ensures MaybeEmitTurn(s, k.turnId) == Result(s, [])
  {
    assert AllAgree(k, ins + [i]);
    CompleteExactly(k, ins + [i]);
    NoEmission(s, k.turnId);
  }

  lemma EarlyInput(k: Setting, s0: State, s: State, ins: seq<Input>, f: Fact)
    requires Ready(k, s0) && Tracking(k, s0, s, ins) && |InputOf(k, f)| == 1 && Agrees(k, InputOf(k, f)[0]) && AllAgree(k, ins)
    requires DistinctKinds(ins + InputOf(k, f)) && !HasRequired(ins + InputOf(k, f))
    ensures Tracking(k, s0, Ingest(s, f).state, ins + InputOf(k, f)) && Ingest(s, f).events == []
  {
    var i := InputOf(k, f)[0];
    assert InputOf(k, f) == [i];
    InputStep(k, s0, s, ins, f);
    EarlyEmission(k, s0, Shown(k, s, f), ins, i);
  }

  /** All that a fact adds to the inputs of the turn. */
  function AddedBy(k: Setting, s: State, ins: seq<Input>, f: Fact): seq<Input> {
    InputOf(k, f) + TallyOf(k, s.requests, ins != [], f)
  }

  /** While a required input is missing, nothing is emitted. */
  lemma EarlyStep(k: Setting, s0: State, s: State, ins: seq<Input>, f: Fact)
    requires Ready(k, s0) && Tracking(k, s0, s, ins) && Fits(k, f) && AllAgree(k, ins)
    requires DistinctKinds(ins + AddedBy(k, s, ins, f)) && !HasRequired(ins + AddedBy(k, s, ins, f))
    ensures Tracking(k, s0, Ingest(s, f).state, ins + AddedBy(k, s, ins, f)) && EventsOf(k.turnId, Ingest(s, f).events) == []
  {
    if InputOf(k, f) == [] {
      assert AddedBy(k, s, ins, f) == TallyOf(k, s.requests, ins != [], f);
      SparedStep(k, s0, s, ins, f);
    } else {
      assert AddedBy(k, s, ins, f) == InputOf(k, f);
      EarlyInput(k, s0, s, ins, f);
    }
  }

  lemma {:induction false} RequestsTracked(s: State, facts: seq<Fact>)
    ensures Run(s, facts).state.requests == RequestsAfter(s.requests, facts)
    decreases facts
  {
    if facts != [] {
      RequestsTracked(s, facts[..|facts| - 1]);
      RequestsStep(Run(s, facts[..|facts| - 1]).state, facts[|facts| - 1]);
    }
  }

  lemma RequestsStep(s: State, f: Fact)
    ensures Ingest(s, f).state.requests == NextRequests(s.requests, f)
  {
    match f
    case Initialize(_, _) =>
    case OnThread(tf) => ThreadFactEffect(s, tf);
    case OnTurn(id, tf) => TurnFactEffect(s, id, tf);
    case OnItem(itf) => ItemFactEffect(s, itf);
    case OnReview(rf) => ReviewFactEffect(s, rf);
    case OnRequest(c, r, rf) => RequestsOnRequest(s, c, r, rf);
  }

  lemma RequestsOnRequest(s: State, c: nat, r: RequestId, rf: RequestFact)
    ensures IngestRequestFact(s, c, r, rf).state.requests == NextRequests(s.requests, OnRequest(c, r, rf))
  {
    if rf.RequestFailed? && (c, r) !in s.requests { assert s.requests - {(c, r)} == s.requests; }
  }

  lemma InputsSnoc(k: Setting, s: State, facts: seq<Fact>, f: Fact)
    ensures Inputs(k, s.requests, facts + [f]) ==
            Inputs(k, s.requests, facts) + AddedBy(k, Run(s, facts).state, Inputs(k, s.requests, facts), f)
  {
    RequestsTracked(s, facts);
    assert (facts + [f])[..|facts|] == facts;
  }

  lemma AddedAgree(k: Setting, ins: seq<Input>, requests: map<(nat, RequestId), Request>, f: Fact)
    requires AllAgree(k, ins) && Fits(k, f)
    ensures AllAgree(k, ins + (InputOf(k, f) + TallyOf(k, requests, ins != [], f)))
  {
  }

  lemma {:induction false} InputsAgree(k: Setting, requests: map<(nat, RequestId), Request>, facts: seq<Fact>)
    requires AllFit(k, facts)
    ensures AllAgree(k, Inputs(k, requests, facts))
    decreases facts
  {
    if facts != [] {
      var front, f := facts[..|facts| - 1], facts[|facts| - 1];
      InputsAgree(k, requests, front);
      assert Fits(k, f);
      AddedAgree(k, Inputs(k, requests, front), RequestsAfter(requests, front), f);
    }
  }

  lemma RequiredMono(a: seq<Input>, b: seq<Input>)
    requires HasRequired(a)
    ensures HasRequired(a + b)
  {
    assert forall i :: 0 <= i < |a| ==> (a + b)[i] == a[i];
    var x :| 0 <= x < |a| && KindOf(a[x]) == ConfigKind;
    var y :| 0 <= y < |a| && KindOf(a[y]) == ProfileKind;
    var z :| 0 <= z < |a| && KindOf(a[z]) == CompletedKind;
    assert KindOf((a + b)[x]) == ConfigKind && KindOf((a + b)[y]) == ProfileKind && KindOf((a + b)[z]) == CompletedKind;
  }

  lemma EarlierInputs(ins: seq<Input>, added: seq<Input>)
    requires DistinctKinds(ins + added) && !HasRequired(ins + added)
    ensures DistinctKinds(ins) && !HasRequired(ins)
  {
    var all := ins + added;
    forall i, j | 0 <= i < j < |ins|
      ensures Distinct(ins[i], ins[j])
    {
      assert Distinct(all[i], all[j]);
    }
    if HasRequired(ins) { RequiredMono(ins, added); }
  }

  lemma {:induction false} EarlyRun(k: Setting, s: State, facts: seq<Fact>)
    requires Ready(k, s) && AllFit(k, facts)
    requires DistinctKinds(Inputs(k, s.requests, facts)) && !HasRequired(Inputs(k, s.requests, facts))
    ensures Tracking(k, s, Run(s, facts).state, Inputs(k, s.requests, facts)) && EventsOf(k.turnId, Run(s, facts).events) == []
    decreases facts
  {
    if facts != [] {
      var front, f := facts[..|facts| - 1], facts[|facts| - 1];
      var ins, s1 := Inputs(k, s.requests, front), Run(s, front).state;
      var added := AddedBy(k, s1, ins, f);
      assert facts == front + [f];
      InputsSnoc(k, s, front, f);
      EarlierInputs(ins, added);
      EarlyRun(k, s, front);
      InputsAgree(k, s.requests, front);
      assert Fits(k, f);
      EarlyStep(k, s, s1, ins, f);
      EventsOfConcat(k.turnId, Run(s, front).events, Ingest(s1, f).events);
    }
  }

  /** `last` is the last required fact of the turn, and no two facts of one kind came but items and steers. */
  predicate CompletesAt(k: Setting, s: State, facts: seq<Fact>, last: Fact) {
    var ins := Inputs(k, s.requests, facts + [last]);
    && AllFit(k, facts) && Fits(k, last)
    && DistinctKinds(ins) && HasRequired(ins)
    && InputOf(k, last) != [] && IsRequired(KindOf(InputOf(k, last)[0]))
  }

  /** Before a required input of a new kind, something required is missing. */
  lemma LastRequired(ins: seq<Input>, i: Input)
    requires DistinctKinds(ins + [i]) && IsRequired(KindOf(i))
    ensures DistinctKinds(ins) && !HasRequired(ins)
  {
    NewKind(ins, i);
  }

  lemma LastAdds(k: Setting, s: State, ins: seq<Input>, f: Fact)
    requires InputOf(k, f) != []
    ensures |InputOf(k, f)| == 1 && AddedBy(k, s, ins, f) == [InputOf(k, f)[0]]
  {
  }

  lemma NotYetRequired(k: Setting, s: State, facts: seq<Fact>, last: Fact)
    requires CompletesAt(k, s, facts, last)
    ensures var ins := Inputs(k, s.requests, facts);
            && DistinctKinds(ins) && !HasRequired(ins) && |InputOf(k, last)| == 1
            && Inputs(k, s.requests, facts + [last]) == ins + [InputOf(k, last)[0]]
            && AllAgree(k, ins) && AllAgree(k, ins + [InputOf(k, last)[0]])
  {
    var ins, i := Inputs(k, s.requests, facts), InputOf(k, last)[0];
    InputsSnoc(k, s, facts, last);
    InputsAgree(k, s.requests, facts);
    LastAdds(k, Run(s, facts).state, ins, last);
    LastRequired(ins, i);
  }

  /** What `MaybeEmitTurn` makes of a turn that is complete and has its context. */
  lemma EmitDue(k: Setting, s0: State, s: State, ins: seq<Input>)
    requires Ready(k, s0) && Tracking(k, s0, s, ins) && AllAgree(k, ins) && HasRequired(ins)
    ensures var r := MaybeEmitTurn(s, k.turnId);
            r.events == DueEvents(k, s0, ins) && k.turnId !in r.state.turns
  {
    CompleteExactly(k, ins);
    FoldFields(k, ins);
  }

  lemma {:induction false} DueAreOwn(k: Setting, s: State, ins: seq<Input>)
    requires Ready(k, s) && AllAgree(k, ins) && HasRequired(ins)
    ensures EventsOf(k.turnId, DueEvents(k, s, ins)) == DueEvents(k, s, ins)
  {
    var due := DueEvents(k, s, ins);
    EmptyEvents(k.turnId, due[0]);
    EventsOfConcat(k.turnId, [due[0]], due[1..]);
    assert due == [due[0]] + due[1..];
    if |due| == 2 {
      EmptyEvents(k.turnId, due[1]);
      assert due[1..] == [due[1]];
    }
  }

  /**
   Turn-event emission: with the context in place and at most one agreeing fact of each kind, in
   any order and interleaved with completed items, steers and any facts about other things, nothing
   is emitted for the turn until the last required fact. That fact emits exactly the due events and
   forgets the turn.
   */
  lemma EmittedAtLastRequired(k: Setting, s: State, facts: seq<Fact>, last: Fact)
    requires Ready(k, s) && CompletesAt(k, s, facts, last)
    ensures AllAgree(k, Inputs(k, s.requests, facts + [last]))
    ensures EventsOf(k.turnId, Run(s, facts).events) == []
    ensures var r := Run(s, facts + [last]);
            && EventsOf(k.turnId, r.events) == DueEvents(k, s, Inputs(k, s.requests, facts + [last]))
            && k.turnId !in r.state.turns
  {
    NotYetRequired(k, s, facts, last);
    EarlyRun(k, s, facts);
    var s1, ins := Run(s, facts).state, Inputs(k, s.requests, facts + [last]);
    InputStep(k, s, s1, Inputs(k, s.requests, facts), last);
    EmitDue(k, s, Shown(k, s1, last), ins);
    DueAreOwn(k, s, ins);
    RunSnoc(s, facts, last);
    EventsOfConcat(k.turnId, Run(s, facts).events, Ingest(s1, last).events);
  }

  lemma SameKinds(a: seq<Input>, b: seq<Input>, k: Kind)
    requires multiset(a) == multiset(b) && Has(a, k)
    ensures Has(b, k)
  {
    var i :| 0 <= i < |a| && KindOf(a[i]) == k;
    assert a[i] in multiset(a);
    assert a[i] in b;
  }

  lemma DueShape(k: Setting, s: State, ins: seq<Input>)
    requires Ready(k, s) && AllAgree(k, ins) && HasRequired(ins)
    ensures 1 <= |DueEvents(k, s, ins)| <= 2 && DueEvents(k, s, ins)[0].TurnEvent?
  {
  }

  lemma SameDue(k: Setting, s: State, x: seq<Input>, y: seq<Input>)
    requires Ready(k, s) && multiset(x) == multiset(y) && DistinctKinds(y)
    requires AllAgree(k, x) && AllAgree(k, y) && HasRequired(x) && HasRequired(y)
    ensures DueEvents(k, s, x) == DueEvents(k, s, y)
  {
    FoldPermutation(k, NEW_TURN, x, y);
    if Has(x, AnswerKind) { SameKinds(x, y, AnswerKind); }
    if Has(y, AnswerKind) { SameKinds(y, x, AnswerKind); }
  }

  /**
   Turn-event confluence: two runs from the same context that show the turn the same facts, in
   whatever orders and among whatever other facts, emit the same events for it: exactly one turn
   event and, if its diff changed lines, one accepted-lines event.
   */
  lemma TurnConfluence(k: Setting, s: State, a: seq<Fact>, lastA: Fact, b: seq<Fact>, lastB: Fact)
    requires Ready(k, s) && CompletesAt(k, s, a, lastA) && CompletesAt(k, s, b, lastB)
    requires multiset(Inputs(k, s.requests, a + [lastA])) == multiset(Inputs(k, s.requests, b + [lastB]))
    ensures EventsOf(k.turnId, Run(s, a + [lastA]).events) == EventsOf(k.turnId, Run(s, b + [lastB]).events)
    ensures 1 <= |EventsOf(k.turnId, Run(s, a + [lastA]).events)| <= 2
    ensures EventsOf(k.turnId, Run(s, a + [lastA]).events)[0].TurnEvent?
  {
    EmittedAtLastRequired(k, s, a, lastA);
    EmittedAtLastRequired(k, s, b, lastB);
    var x, y := Inputs(k, s.requests, a + [lastA]), Inputs(k, s.requests, b + [lastB]);
    SameDue(k, s, x, y);
    DueShape(k, s, x);
  }
}
