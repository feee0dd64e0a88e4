/**
 The in-process event forwarder: a worker takes events from the embedded
 app-server and pushes them into a bounded queue that a consumer drains.

 `Step` is the worker and its consumer as one transition system. Every channel
 operation of the source is one atomic `Run` step; the consumer may pop or hang
 up between any two of them. `Exec` runs an arbitrary interleaving.
 */
module EventForwarding {

  /** The counter `skipped_events` is a 64-bit `usize` that saturates. */
  const USIZE_MAX: nat := 0xFFFF_FFFF_FFFF_FFFF

  const QUEUE_FULL_CODE := -32001
  const REFRESH_UNSUPPORTED_CODE := -32000

  datatype NotificationKind =
    | TurnCompleted
    | ThreadSettingsUpdated
    | ItemCompleted
    | ExternalAgentConfigImportCompleted
    | AgentMessageDelta
    | PlanDelta
    | ReasoningSummaryTextDelta
    | ReasoningTextDelta
    | CommandExecutionOutputDelta
    | OtherNotification(method_: string)

  datatype ServerRequest =
    | ChatgptAuthTokensRefresh(id: int)
    | OtherRequest(id: int, params: string)

  /** An event taken from the runtime; `UpstreamLagged` is a lag marker of an earlier layer. */
  datatype Event =
    | UpstreamLagged(upstreamSkipped: nat)
    | Notification(kind: NotificationKind, payload: string)
    | Request(request: ServerRequest)

  /** A queue slot: a forwarded event, or a lag marker made by this layer. */
  datatype Item = Forwarded(event: Event) | Marker(skipped: nat)

  predicate RequiresDelivery(e: Event) {
    match e
    case Notification(kind, _) => !kind.CommandExecutionOutputDelta? && !kind.OtherNotification?
    case _ => false
  }

  predicate IsRefresh(e: Event) {
    e.Request? && e.request.ChatgptAuthTokensRefresh?
  }

  /** Where the worker stands inside its loop body. `Disabled` keeps the event it gave up on. */
  datatype Pc =
    | Idle
    | Entry(entering: Event)
    | Flushing(behind: Event)
    | Sending(sending: Event)
    | Disabled(lost: Event)

  /** What became of an event whose forwarding completed. */
  datatype Fate = Delivered(event: Event) | Dropped(event: Event)

  datatype Rejection = Rejection(request: ServerRequest, code: int)

  /**
   `queue`, `open`, `skipped` and `pc` are the running state; the other fields are
   history. `saturated` counts increments swallowed by the saturating add.
   */
  datatype State = State(
    capacity: nat,
    queue: seq<Item>,
    open: bool,
    skipped: nat,
    pc: Pc,
    consumed: seq<Item>,
    taken: seq<Event>,
    fates: seq<Fate>,
    rejections: seq<Rejection>,
    saturated: nat)

  datatype Action = Take(event: Event) | Run | Pop | Close

  /** The channel capacity is clamped to at least one slot. */
  function Init(requestedCapacity: nat): State {
    State(if requestedCapacity < 1 then 1 else requestedCapacity, [], true, 0, Idle, [], [], [], [], 0)
  }

  predicate HasRoom(s: State) {
    |s.queue| < s.capacity
  }

  function Reject(s: State, r: ServerRequest, code: int): State {
    s.(rejections := s.rejections + [Rejection(r, code)])
  }

  /** Dropping counts the event and answers it when it was a server request. */
  function Drop(s: State, e: Event): State {
    var counted := s.(
      skipped := if s.skipped < USIZE_MAX then s.skipped + 1 else s.skipped,
      saturated := if s.skipped < USIZE_MAX then s.saturated else s.saturated + 1,
      fates := s.fates + [Dropped(e)],
      pc := Idle);
    if e.Request? then Reject(counted, e.request, QUEUE_FULL_CODE) else counted
  }

  function Push(s: State, item: Item): State {
    s.(queue := s.queue + [item])
  }

  /** The state after a lag marker went in ahead of `e`. */
  function Flushed(s: State, e: Event): State {
    Push(s, Marker(s.skipped)).(skipped := 0, pc := Sending(e))
  }

  /** The state after `e` itself went in. */
  function Enqueued(s: State, e: Event): State {
    Push(s, Forwarded(e)).(fates := s.fates + [Delivered(e)], pc := Idle)
  }

  function TakeEvent(s: State, e: Event): State {
    var s' := s.(taken := s.taken + [e]);
    if IsRefresh(e) then Reject(s', e.request, REFRESH_UNSUPPORTED_CODE) else s'.(pc := Entry(e))
  }

  /** The next channel operation of the worker; a full queue leaves a blocking send where it is. */
  function RunWorker(s: State): State {
    match s.pc
    case Idle => s
    case Disabled(_) => s
    case Entry(e) =>
      if s.skipped == 0 then s.(pc := Sending(e))
      else if RequiresDelivery(e) then s.(pc := Flushing(e))
      else if !s.open then s.(pc := Disabled(e))
      else if HasRoom(s) then Flushed(s, e)
      else Drop(s, e)
    case Flushing(e) =>
      if !s.open then s.(pc := Disabled(e))
      else if HasRoom(s) then Flushed(s, e)
      else s
    case Sending(e) =>
      if !s.open then s.(pc := Disabled(e))
      else if HasRoom(s) then Enqueued(s, e)
      else if RequiresDelivery(e) then s
      else Drop(s, e)
  }

  function Step(s: State, a: Action): State {
    match a
    case Take(e) => if s.pc.Idle? then TakeEvent(s, e) else s
    case Run => RunWorker(s)
    case Pop => if s.open && s.queue != [] then s.(queue := s.queue[1..], consumed := s.consumed + [s.queue[0]]) else s
    case Close => s.(open := false)
  }

  function Exec(s: State, actions: seq<Action>): State {
    if actions == [] then s else Step(Exec(s, actions[..|actions| - 1]), actions[|actions| - 1])
  }

  lemma ExecSnoc(s: State, actions: seq<Action>, a: Action)
    ensures Exec(s, actions + [a]) == Step(Exec(s, actions), a)
  {
    assert (actions + [a])[..|actions|] == actions;
  }

  // ---------------------------------------------------------------- accounting

  /** Everything ever enqueued, in order: what the consumer saw and what it will see. */
  function Stream(s: State): seq<Item> {
    s.consumed + s.queue
  }

  /**
   A reading of a stream: each event with the size of the gap before it, and the
   gap after the last event.
   */
  datatype Gaps = Gaps(before: seq<(nat, Event)>, after: nat)

  function Last<T>(s: seq<T>): T
    requires s != []
  {
    s[|s| - 1]
  }

  function Front<T>(s: seq<T>): seq<T>
    requires s != []
  {
    s[..|s| - 1]
  }

  /** The gaps a consumer reads off the lag markers. */
  function AnnouncedGaps(items: seq<Item>): Gaps {
    if items == [] then Gaps([], 0) else
    var g := AnnouncedGaps(Front(items));
    match Last(items)
    case Forwarded(e) => Gaps(g.before + [(g.after, e)], 0)
    case Marker(n) => Gaps(g.before, g.after + n)
  }

  /** The gaps there really are: runs of dropped inputs between delivered ones. */
  function ActualGaps(fates: seq<Fate>): Gaps {
    if fates == [] then Gaps([], 0) else
    var g := ActualGaps(Front(fates));
    match Last(fates)
    case Delivered(e) => Gaps(g.before + [(g.after, e)], 0)
    case Dropped(_) => Gaps(g.before, g.after + 1)
  }

  function Sum(s: seq<(nat, Event)>): nat {
    if s == [] then 0 else Sum(Front(s)) + Last(s).0
  }

  function Total(g: Gaps): nat {
    Sum(g.before) + g.after
  }

  function FatedEvents(fates: seq<Fate>): seq<Event> {
    if fates == [] then [] else FatedEvents(Front(fates)) + [Last(fates).event]
  }

  function DeliveredEvents(fates: seq<Fate>): seq<Event> {
    if fates == [] then [] else
    DeliveredEvents(Front(fates)) + if Last(fates).Delivered? then [Last(fates).event] else []
  }

  function EnqueuedEvents(items: seq<Item>): seq<Event> {
    if items == [] then [] else
    EnqueuedEvents(Front(items)) + if Last(items).Forwarded? then [Last(items).event] else []
  }

  function MustDeliver(events: seq<Event>): seq<Event> {
    if events == [] then [] else
    MustDeliver(Front(events)) + if RequiresDelivery(Last(events)) then [Last(events)] else []
  }

  /** Inputs that reach the forwarder: everything but token refreshes. */
  function Forwardable(events: seq<Event>): seq<Event> {
    if events == [] then [] else
    Forwardable(Front(events)) + if IsRefresh(Last(events)) then [] else [Last(events)]
  }

  function Requests(events: seq<Event>): multiset<ServerRequest> {
    if events == [] then multiset{} else
    Requests(Front(events)) + if Last(events).Request? then multiset{Last(events).request} else multiset{}
  }

  function RejectedRequests(rs: seq<Rejection>): multiset<ServerRequest> {
    if rs == [] then multiset{} else RejectedRequests(Front(rs)) + multiset{Last(rs).request}
  }

  function InFlight(pc: Pc): seq<Event> {
    match pc
    case Idle => []
    case Entry(e) => [e]
    case Flushing(e) => [e]
    case Sending(e) => [e]
    case Disabled(e) => [e]
  }

  /** The announced gaps, together with the unsent counter, are exactly the real gaps. */
  predicate ExactGaps(s: State) {
    && AnnouncedGaps(Stream(s)).before == ActualGaps(s.fates).before
    && AnnouncedGaps(Stream(s)).after + s.skipped == ActualGaps(s.fates).after
  }

  // ---------------------------------------------------------------- invariants

  predicate Bounds(s: State) {
    && 1 <= s.capacity
    && |s.queue| <= s.capacity
    && s.skipped <= USIZE_MAX
    && (s.pc.Flushing? ==> RequiresDelivery(s.pc.behind) && s.skipped > 0)
    && (s.pc.Sending? ==> s.skipped == 0)
    && NoRefresh(InFlight(s.pc))
  }

  predicate GapInvariant(s: State) {
    && (s.saturated == 0 ==> ExactGaps(s))
    && Total(AnnouncedGaps(Stream(s))) + s.skipped + s.saturated == Total(ActualGaps(s.fates))
    && (s.saturated > 0 ==> Total(ActualGaps(s.fates)) > USIZE_MAX)
  }

  predicate OrderInvariant(s: State) {
    && Forwardable(s.taken) == FatedEvents(s.fates) + InFlight(s.pc)
    && EnqueuedEvents(Stream(s)) == DeliveredEvents(s.fates)
    && MustDeliver(DeliveredEvents(s.fates)) == MustDeliver(FatedEvents(s.fates))
  }

  /** Every rejection carries the code of its reason. */
  predicate WellCoded(rs: seq<Rejection>) {
    forall r :: r in rs ==> r.code == if r.request.ChatgptAuthTokensRefresh? then REFRESH_UNSUPPORTED_CODE else QUEUE_FULL_CODE
  }

  predicate NoRefresh(events: seq<Event>) {
    forall e :: e in events ==> !IsRefresh(e)
  }

  predicate Balanced(s: State) {
    Requests(s.taken) == Requests(EnqueuedEvents(Stream(s))) + RejectedRequests(s.rejections) + Requests(InFlight(s.pc))
  }

  predicate RequestInvariant(s: State) {
    Balanced(s) && WellCoded(s.rejections) && NoRefresh(EnqueuedEvents(Stream(s)))
  }

  predicate Inv(s: State) {
    Bounds(s) && GapInvariant(s) && OrderInvariant(s) && RequestInvariant(s)
  }

  // Appending one element unfolds each fold once.

  lemma SnocItems(items: seq<Item>, x: Item)
    ensures AnnouncedGaps(items + [x]) ==
            var g := AnnouncedGaps(items);
            match x
            case Forwarded(e) => Gaps(g.before + [(g.after, e)], 0)
            case Marker(n) => Gaps(g.before, g.after + n)
    ensures EnqueuedEvents(items + [x]) == EnqueuedEvents(items) + if x.Forwarded? then [x.event] else []
  {
    assert Front(items + [x]) == items;
  }

  lemma SnocFates(fates: seq<Fate>, x: Fate)
    ensures ActualGaps(fates + [x]) ==
            var g := ActualGaps(fates);
            match x
            case Delivered(e) => Gaps(g.before + [(g.after, e)], 0)
            case Dropped(_) => Gaps(g.before, g.after + 1)
    ensures FatedEvents(fates + [x]) == FatedEvents(fates) + [x.event]
    ensures DeliveredEvents(fates + [x]) == DeliveredEvents(fates) + if x.Delivered? then [x.event] else []
  {
    assert Front(fates + [x]) == fates;
  }

  lemma SnocEvents(events: seq<Event>, e: Event)
    ensures MustDeliver(events + [e]) == MustDeliver(events) + if RequiresDelivery(e) then [e] else []
    ensures Forwardable(events + [e]) == Forwardable(events) + if IsRefresh(e) then [] else [e]
    ensures Requests(events + [e]) == Requests(events) + if e.Request? then multiset{e.request} else multiset{}
  {
    assert Front(events + [e]) == events;
  }

  lemma SnocRejections(rs: seq<Rejection>, r: Rejection)
    ensures RejectedRequests(rs + [r]) == RejectedRequests(rs) + multiset{r.request}
  {
    assert Front(rs + [r]) == rs;
  }

  lemma SnocSum(s: seq<(nat, Event)>, x: (nat, Event))
    ensures Sum(s + [x]) == Sum(s) + x.0
  {
    assert Front(s + [x]) == s;
  }

  lemma SingletonRequests(e: Event)
    ensures Requests([e]) == if e.Request? then multiset{e.request} else multiset{}
  {
    assert Front([e]) == [];
  }

  lemma FreshInv(s: State)
    requires s.queue == [] && s.consumed == [] && s.taken == [] && s.fates == [] && s.rejections == []
    requires s.skipped == 0 && s.saturated == 0 && s.pc == Idle && 1 <= s.capacity
    ensures Inv(s)
  {
  }

  lemma InitInv(requestedCapacity: nat)
    ensures Inv(Init(requestedCapacity))
  {
    FreshInv(Init(requestedCapacity));
  }

  lemma TakeKeepsOrder(s: State, e: Event)
    requires OrderInvariant(s) && s.pc.Idle?
    ensures OrderInvariant(TakeEvent(s, e))
  {
    SnocEvents(s.taken, e);
    assert FatedEvents(s.fates) + [] == FatedEvents(s.fates);
  }

  lemma TakeKeepsRequests(s: State, e: Event)
    requires RequestInvariant(s) && s.pc.Idle?
    ensures RequestInvariant(TakeEvent(s, e))
  {
    SnocEvents(s.taken, e);
    SingletonRequests(e);
    if IsRefresh(e) {
      SnocRejections(s.rejections, Rejection(e.request, REFRESH_UNSUPPORTED_CODE));
    }
  }

  lemma TakeKeepsInv(s: State, e: Event)
    requires Inv(s) && s.pc.Idle?
    ensures Inv(TakeEvent(s, e))
  {
    TakeKeepsOrder(s, e);
    TakeKeepsRequests(s, e);
    assert Stream(TakeEvent(s, e)) == Stream(s);
  }

  lemma DropKeepsGaps(s: State, e: Event)
    requires GapInvariant(s) && s.skipped <= USIZE_MAX
    ensures GapInvariant(Drop(s, e))
  {
    SnocFates(s.fates, Dropped(e));
    assert Stream(Drop(s, e)) == Stream(s);
  }

  lemma DropKeepsOrder(s: State, e: Event)
    requires OrderInvariant(s) && InFlight(s.pc) == [e] && !RequiresDelivery(e)
    ensures OrderInvariant(Drop(s, e))
  {
    SnocFates(s.fates, Dropped(e));
    SnocEvents(FatedEvents(s.fates), e);
    assert Stream(Drop(s, e)) == Stream(s);
    assert FatedEvents(s.fates) + [e] + [] == FatedEvents(s.fates) + [e];
    assert DeliveredEvents(s.fates) + [] == DeliveredEvents(s.fates);
  }

  /** What leaves one part of a sum and joins another leaves the sum as it was. */
  lemma Moved(a: multiset<ServerRequest>, b: multiset<ServerRequest>, m: multiset<ServerRequest>)
    ensures a + b + m == (a + m) + b + multiset{} && a + b + m == a + (b + m) + multiset{}
  {
  }

  lemma DropKeepsRequests(s: State, e: Event)
    requires RequestInvariant(s) && InFlight(s.pc) == [e] && !IsRefresh(e)
    ensures RequestInvariant(Drop(s, e))
  {
    assert Stream(Drop(s, e)) == Stream(s);
    SingletonRequests(e);
    var queued := Requests(EnqueuedEvents(Stream(s)));
    if e.Request? {
      SnocRejections(s.rejections, Rejection(e.request, QUEUE_FULL_CODE));
      Moved(queued, RejectedRequests(s.rejections), multiset{e.request});
    } else {
      Moved(queued, RejectedRequests(s.rejections), multiset{});
    }
  }

  lemma DropKeepsBounds(s: State, e: Event)
    requires Bounds(s) && InFlight(s.pc) == [e]
    ensures Bounds(Drop(s, e)) && !IsRefresh(e)
  {
    assert e in InFlight(s.pc);
    assert InFlight(Drop(s, e).pc) == [];
  }

  lemma DropKeepsInv(s: State, e: Event)
    requires Inv(s) && InFlight(s.pc) == [e] && !RequiresDelivery(e)
    ensures Inv(Drop(s, e))
  {
    DropKeepsBounds(s, e);
    DropKeepsGaps(s, e);
    DropKeepsOrder(s, e);
    DropKeepsRequests(s, e);
  }

  lemma FlushKeepsInv(s: State, e: Event)
    requires Inv(s) && (s.pc == Entry(e) || s.pc == Flushing(e)) && HasRoom(s)
    ensures Inv(Flushed(s, e))
  {
    var item := Marker(s.skipped);
    assert Stream(Flushed(s, e)) == Stream(s) + [item];
    SnocItems(Stream(s), item);
    assert EnqueuedEvents(Stream(s)) + [] == EnqueuedEvents(Stream(s));
    assert InFlight(Sending(e)) == InFlight(s.pc);
  }

  lemma DeliverKeepsGaps(s: State, e: Event)
    requires GapInvariant(s) && s.skipped == 0
    ensures GapInvariant(Enqueued(s, e))
  {
    assert Stream(Enqueued(s, e)) == Stream(s) + [Forwarded(e)];
    SnocItems(Stream(s), Forwarded(e));
    SnocFates(s.fates, Delivered(e));
    SnocSum(AnnouncedGaps(Stream(s)).before, (AnnouncedGaps(Stream(s)).after, e));
    SnocSum(ActualGaps(s.fates).before, (ActualGaps(s.fates).after, e));
  }

  lemma DeliverKeepsOrder(s: State, e: Event)
    requires OrderInvariant(s) && s.pc == Sending(e)
    ensures OrderInvariant(Enqueued(s, e))
  {
    assert Stream(Enqueued(s, e)) == Stream(s) + [Forwarded(e)];
    SnocItems(Stream(s), Forwarded(e));
    SnocFates(s.fates, Delivered(e));
    SnocEvents(FatedEvents(s.fates), e);
    SnocEvents(DeliveredEvents(s.fates), e);
    assert FatedEvents(s.fates) + [e] + [] == FatedEvents(s.fates) + [e];
  }

  lemma DeliverKeepsBalance(s: State, e: Event)
    requires Balanced(s) && s.pc == Sending(e)
    ensures Balanced(Enqueued(s, e))
    ensures EnqueuedEvents(Stream(Enqueued(s, e))) == EnqueuedEvents(Stream(s)) + [e]
  {
    EnqueuedGrows(s, e);
    BalanceMoves(Requests(s.taken), EnqueuedEvents(Stream(s)), RejectedRequests(s.rejections), e);
  }

  lemma EnqueuedGrows(s: State, e: Event)
    ensures EnqueuedEvents(Stream(Enqueued(s, e))) == EnqueuedEvents(Stream(s)) + [e]
  {
    assert Stream(Enqueued(s, e)) == Stream(s) + [Forwarded(e)];
    SnocItems(Stream(s), Forwarded(e));
  }

  lemma BalanceMoves(taken: multiset<ServerRequest>, queued: seq<Event>, rejected: multiset<ServerRequest>, e: Event)
    requires taken == Requests(queued) + rejected + Requests([e])
    ensures taken == Requests(queued + [e]) + rejected + Requests([])
  {
    SnocEvents(queued, e);
    SingletonRequests(e);
    Moved(Requests(queued), rejected, Requests([e]));
  }

  lemma DeliverKeepsRequests(s: State, e: Event)
    requires RequestInvariant(s) && s.pc == Sending(e) && !IsRefresh(e)
    ensures RequestInvariant(Enqueued(s, e))
  {
    DeliverKeepsBalance(s, e);
  }

  lemma DeliverKeepsInv(s: State, e: Event)
    requires Inv(s) && s.pc == Sending(e) && HasRoom(s)
    ensures Inv(Enqueued(s, e))
  {
    assert e in InFlight(s.pc);
    DeliverKeepsGaps(s, e);
    DeliverKeepsOrder(s, e);
    DeliverKeepsRequests(s, e);
  }

  /** Moving on without touching the channel or the history. */
  lemma MoveKeepsInv(s: State, pc': Pc)
    requires Inv(s) && InFlight(pc') == InFlight(s.pc)
    requires pc'.Flushing? ==> RequiresDelivery(pc'.behind) && s.skipped > 0
    requires pc'.Sending? ==> s.skipped == 0
    ensures Inv(s.(pc := pc'))
  {
    assert Stream(s.(pc := pc')) == Stream(s);
  }

  lemma EntryKeepsInv(s: State, e: Event)
    requires Inv(s) && s.pc == Entry(e)
    ensures Inv(RunWorker(s))
  {
    if s.skipped == 0 {
      MoveKeepsInv(s, Sending(e));
    } else if RequiresDelivery(e) {
      MoveKeepsInv(s, Flushing(e));
    } else if !s.open {
      MoveKeepsInv(s, Disabled(e));
    } else if HasRoom(s) {
      FlushKeepsInv(s, e);
    } else {
      DropKeepsInv(s, e);
    }
  }

  lemma SendingKeepsInv(s: State, e: Event)
    requires Inv(s) && s.pc == Sending(e)
    ensures Inv(RunWorker(s))
  {
    if !s.open {
      MoveKeepsInv(s, Disabled(e));
    } else if HasRoom(s) {
      DeliverKeepsInv(s, e);
    } else if !RequiresDelivery(e) {
      DropKeepsInv(s, e);
    }
  }

  lemma RunKeepsInv(s: State)
    requires Inv(s)
    ensures Inv(RunWorker(s))
  {
    match s.pc
    case Idle =>
    case Disabled(_) =>
    case Entry(e) => EntryKeepsInv(s, e);
    case Flushing(e) =>
      if !s.open {
        MoveKeepsInv(s, Disabled(e));
      } else if HasRoom(s) {
        FlushKeepsInv(s, e);
      }
    case Sending(e) => SendingKeepsInv(s, e);
  }

  /** Nothing but the split of the stream between consumer and queue, or the queue's openness, differs. */
  predicate SameAccounts(s: State, s': State) {
    && Stream(s') == Stream(s) && s'.taken == s.taken && s'.fates == s.fates && s'.rejections == s.rejections
    && s'.skipped == s.skipped && s'.saturated == s.saturated && s'.pc == s.pc
  }

  lemma SameGaps(s: State, s': State)
    requires SameAccounts(s, s') && GapInvariant(s)
    ensures GapInvariant(s')
  {
  }

  lemma SameOrder(s: State, s': State)
    requires SameAccounts(s, s') && OrderInvariant(s)
    ensures OrderInvariant(s')
  {
  }

  lemma SameRequests(s: State, s': State)
    requires SameAccounts(s, s') && RequestInvariant(s)
    ensures RequestInvariant(s')
  {
  }

  lemma AccountsKeepInv(s: State, s': State)
    requires Inv(s) && SameAccounts(s, s') && Bounds(s')
    ensures Inv(s')
  {
    SameGaps(s, s');
    SameOrder(s, s');
    SameRequests(s, s');
  }

  lemma PopKeepsAccounts(s: State)
    requires Bounds(s)
    ensures SameAccounts(s, Step(s, Pop)) && Bounds(Step(s, Pop))
  {
    assert Stream(Step(s, Pop)) == Stream(s);
  }

  lemma CloseKeepsAccounts(s: State)
    requires Bounds(s)
    ensures SameAccounts(s, Step(s, Close)) && Bounds(Step(s, Close))
  {
    assert Stream(Step(s, Close)) == Stream(s);
  }

  lemma PopKeepsInv(s: State)
    requires Inv(s)
    ensures Inv(Step(s, Pop))
  {
    PopKeepsAccounts(s);
    AccountsKeepInv(s, Step(s, Pop));
  }

  lemma CloseKeepsInv(s: State)
    requires Inv(s)
    ensures Inv(Step(s, Close))
  {
    CloseKeepsAccounts(s);
    AccountsKeepInv(s, Step(s, Close));
  }

  lemma StepKeepsInv(s: State, a: Action)
    requires Inv(s)
    ensures Inv(Step(s, a))
  {
    match a
    case Take(e) => if s.pc.Idle? { TakeKeepsInv(s, e); }
    case Run => RunKeepsInv(s);
    case Pop => PopKeepsInv(s);
    case Close => CloseKeepsInv(s);
  }

  lemma {:induction false} ExecKeepsInv(s: State, actions: seq<Action>)
    requires Inv(s)
    ensures Inv(Exec(s, actions))
  {
    if actions != [] {
      ExecKeepsInv(s, actions[..|actions| - 1]);
      StepKeepsInv(Exec(s, actions[..|actions| - 1]), actions[|actions| - 1]);
    }
  }

  lemma ReachableInv(requestedCapacity: nat, actions: seq<Action>)
    ensures Inv(Exec(Init(requestedCapacity), actions))
  {
    InitInv(requestedCapacity);
    ExecKeepsInv(Init(requestedCapacity), actions);
  }

  // ---------------------------------------------------------------- results

  lemma ExactUnlessSaturated(s: State)
    requires GapInvariant(s)
    ensures ExactGaps(s) <==> s.saturated == 0
    ensures Total(ActualGaps(s.fates)) <= USIZE_MAX ==> ExactGaps(s)
  {
  }

  /**
   Exact gap accounting, for every interleaving: the markers between neighbouring
   delivered events sum to the drops between them, and the markers after the last one
   plus the unsent counter to the drops since. It holds exactly while no increment was
   swallowed by saturation, hence whenever at most `USIZE_MAX` events were dropped.
   */
  lemma ExactGapAccounting(requestedCapacity: nat, actions: seq<Action>)
    ensures var s := Exec(Init(requestedCapacity), actions);
            && (ExactGaps(s) <==> s.saturated == 0)
            && (Total(ActualGaps(s.fates)) <= USIZE_MAX ==> ExactGaps(s))
  {
    ReachableInv(requestedCapacity, actions);
    ExactUnlessSaturated(Exec(Init(requestedCapacity), actions));
  }

  /** `n` best-effort events handled while the consumer never pops. */
  function Flood(n: nat): seq<Action> {
    if n == 0 then [] else Flood(n - 1) + [Take(UpstreamLagged(0))] + [Run] + [Run]
  }

  /** One best-effort event, handled without a pop in between. */
  function Handled(s: State): State {
    Step(Step(Step(s, Take(UpstreamLagged(0))), Run), Run)
  }

  /** The state after `n` of them. */
  function Flooded(n: nat): State {
    if n == 0 then Init(1) else Handled(Flooded(n - 1))
  }

  lemma HandledNext(actions: seq<Action>, s: State)
    requires Exec(Init(1), actions) == s
    ensures Exec(Init(1), actions + [Take(UpstreamLagged(0))] + [Run] + [Run]) == Handled(s)
  {
    var e := UpstreamLagged(0);
    ExecSnoc(Init(1), actions, Take(e));
    ExecSnoc(Init(1), actions + [Take(e)], Run);
    ExecSnoc(Init(1), actions + [Take(e)] + [Run], Run);
  }

  lemma {:induction false} FloodUnfolds(n: nat)
    ensures Exec(Init(1), Flood(n)) == Flooded(n)
  {
    if n == 0 {
      assert Flood(0) == [];
    } else {
      FloodUnfolds(n - 1);
      HandledNext(Flood(n - 1), Flooded(n - 1));
    }
  }

  predicate Clogged(s: State) {
    s.open && s.capacity == 1 && |s.queue| == 1 && s.pc == Idle && s.skipped <= USIZE_MAX
  }

  lemma HandledWhenClogged(s: State)
    requires Clogged(s)
    ensures Clogged(Handled(s))
    ensures Handled(s).skipped + Handled(s).saturated == s.skipped + s.saturated + 1
    ensures Handled(s).saturated == s.saturated + if s.skipped < USIZE_MAX then 0 else 1
  {
  }

  /** The queue is clogged after `n` drops, as many of them counted as the counter holds. */
  predicate CloggedAfter(s: State, n: nat) {
    Clogged(s) && s.skipped == (if n < USIZE_MAX then n else USIZE_MAX) && s.saturated == n - s.skipped
  }

  lemma FirstFills()
    ensures CloggedAfter(Handled(Init(1)), 0)
  {
  }

  lemma {:induction false} FloodSaturates(n: nat)
    ensures CloggedAfter(Flooded(n + 1), n)
  {
    if n == 0 {
      FirstFills();
    } else {
      FloodSaturates(n - 1);
      HandledWhenClogged(Flooded(n));
    }
  }

  /** Saturation is reachable: one drop more than the counter can hold and the accounting is off. */
  lemma SaturationWitness()
    ensures exists actions :: !ExactGaps(Exec(Init(1), actions))
  {
    var n := USIZE_MAX + 1;
    FloodSaturates(n);
    FloodUnfolds(n + 1);
    ExactGapAccounting(1, Flood(n + 1));
    assert !ExactGaps(Exec(Init(1), Flood(n + 1)));
  }

  lemma {:induction false} MustDeliverConcat(a: seq<Event>, b: seq<Event>)
    ensures MustDeliver(a + b) == MustDeliver(a) + MustDeliver(b)
  {
    if b == [] {
      assert a + b == a;
    } else {
      MustDeliverConcat(a, Front(b));
      assert Front(a + b) == a + Front(b);
    }
  }

  lemma {:induction false} MustDeliverForwardable(events: seq<Event>)
    ensures MustDeliver(Forwardable(events)) == MustDeliver(events)
  {
    if events != [] {
      MustDeliverForwardable(Front(events));
      if IsRefresh(Last(events)) {
        assert Forwardable(Front(events)) + [] == Forwardable(Front(events));
      } else {
        SnocEvents(Forwardable(Front(events)), Last(events));
      }
    }
  }

  lemma {:induction false} CapacityKept(s: State, actions: seq<Action>)
    ensures Exec(s, actions).capacity == s.capacity
  {
    if actions != [] {
      CapacityKept(s, actions[..|actions| - 1]);
    }
  }

  /**
   Losslessness, for every interleaving: the queue stays within its capacity, delivered
   events are the inputs minus the dropped ones in input order, and the must-deliver
   inputs are all enqueued in order and without duplicates, but for the one in flight.
   */
  lemma Losslessness(requestedCapacity: nat, actions: seq<Action>)
    ensures var s := Exec(Init(requestedCapacity), actions);
            && |s.queue| <= s.capacity && s.capacity == (if requestedCapacity == 0 then 1 else requestedCapacity)
            && Forwardable(s.taken) == FatedEvents(s.fates) + InFlight(s.pc)
            && EnqueuedEvents(Stream(s)) == DeliveredEvents(s.fates)
            && MustDeliver(s.taken) == MustDeliver(EnqueuedEvents(Stream(s))) + MustDeliver(InFlight(s.pc))
  {
    ReachableInv(requestedCapacity, actions);
    CapacityKept(Init(requestedCapacity), actions);
    var s := Exec(Init(requestedCapacity), actions);
    MustDeliverForwardable(s.taken);
    MustDeliverConcat(FatedEvents(s.fates), InFlight(s.pc));
  }

  /**
   Server-request dichotomy, for every interleaving: as multisets, the server requests
   taken are those enqueued plus those failed plus the one in flight. Token refreshes
   are failed with their own code and never enqueued.
   */
  lemma ServerRequestDichotomy(requestedCapacity: nat, actions: seq<Action>)
    ensures var s := Exec(Init(requestedCapacity), actions);
            && Requests(s.taken) == Requests(EnqueuedEvents(Stream(s))) + RejectedRequests(s.rejections) + Requests(InFlight(s.pc))
            && WellCoded(s.rejections)
            && NoRefresh(EnqueuedEvents(Stream(s)))
  {
    ReachableInv(requestedCapacity, actions);
  }

  /** Once disabled, the worker takes, drops, fails and enqueues nothing more. */
  lemma {:induction false} DisabledIsFinal(s: State, actions: seq<Action>)
    requires s.pc.Disabled?
    ensures var s' := Exec(s, actions);
            s'.pc == s.pc && s'.taken == s.taken && s'.fates == s.fates && s'.rejections == s.rejections && Stream(s') == Stream(s)
  {
    if actions != [] {
      DisabledIsFinal(s, actions[..|actions| - 1]);
      var s1 := Exec(s, actions[..|actions| - 1]);
      assert Stream(Step(s1, Pop)) == Stream(s1);
    }
  }

  /** The worker acts, then the consumer pops. */
  function Turn(s: State): State {
    Step(Step(s, Run), Pop)
  }

  lemma TurnMakesRoom(s: State)
    requires 1 <= s.capacity && |s.queue| <= s.capacity && s.open && !s.pc.Disabled?
    ensures Turn(s).open && HasRoom(Turn(s)) && Turn(s).capacity == s.capacity
    ensures !Turn(s).pc.Entry? && !Turn(s).pc.Disabled?
    ensures HasRoom(s) && !s.pc.Entry? ==> !Turn(s).pc.Flushing?
  {
  }

  /** A consumer that keeps popping always unblocks the worker: two pops finish any forward. */
  lemma PopsUnblock(s: State)
    requires 1 <= s.capacity && |s.queue| <= s.capacity && s.open && !s.pc.Disabled?
    ensures Step(Turn(Turn(s)), Run).pc == Idle
  {
    TurnMakesRoom(s);
    TurnMakesRoom(Turn(s));
  }

  // ---------------------------------------------------------------- delivered or dropped

  /** The notifications whose loss would corrupt the transcript or leave a surface waiting. */
  const LOSSLESS: set<NotificationKind> := {
    TurnCompleted, ThreadSettingsUpdated, ItemCompleted, ExternalAgentConfigImportCompleted,
    AgentMessageDelta, PlanDelta, ReasoningSummaryTextDelta, ReasoningTextDelta}

  predicate Lossless(e: Event) {
    e.Notification? && e.kind in LOSSLESS
  }

  lemma LosslessTier(e: Event)
    ensures RequiresDelivery(e) <==> Lossless(e)
  {
  }

  /** The answers a dropped event causes. */
  function QueueFullAnswers(e: Event): seq<Rejection> {
    if e.Request? then [Rejection(e.request, -32001)] else []
  }

  /** A step drops `e`: it finds the channel open and its queue full, and fails `e` if that is a request. */
  predicate Drops(s: State, s': State, e: Event) {
    && s'.fates == s.fates + [Dropped(e)] && s'.rejections == s.rejections + QueueFullAnswers(e)
    && s.open && |s.queue| == s.capacity && s'.queue == s.queue && !Lossless(e)
  }

  /** A step delivers `e`: it finds a free slot and puts `e` there. */
  predicate Delivers(s: State, s': State, e: Event) {
    && s'.fates == s.fates + [Delivered(e)] && s'.rejections == s.rejections
    && s.open && |s.queue| < s.capacity && s'.queue == s.queue + [Forwarded(e)]
  }

  /** A step settles nothing; at most it fails a token refresh that it takes. */
  predicate SettlesNothing(s: State, s': State, a: Action) {
    && s'.fates == s.fates
    && (|| s'.rejections == s.rejections
        || (a.Take? && a.event.Request? && a.event.request.ChatgptAuthTokensRefresh?
            && s'.rejections == s.rejections + [Rejection(a.event.request, -32000)]))
  }

  /**
   What settles an event, on every run: it is dropped only by a step that finds the channel open and
   its queue full, and only if it is not lossless; a dropped server request is failed by that very
   step. It is delivered by a step that finds a free slot and puts it there. No other step settles
   anything, and apart from drops only token refreshes are failed.
   */
  lemma DroppedOnlyWhenFull(requestedCapacity: nat, actions: seq<Action>, a: Action)
    ensures var s := Exec(Init(requestedCapacity), actions);
            var s' := Step(s, a);
            SettlesNothing(s, s', a) || exists e :: Drops(s, s', e) || Delivers(s, s', e)
  {
    ReachableInv(requestedCapacity, actions);
    StepSettles(Exec(Init(requestedCapacity), actions), a);
  }

  lemma StepSettles(s: State, a: Action)
    requires Bounds(s)
    ensures SettlesNothing(s, Step(s, a), a) || exists e :: Drops(s, Step(s, a), e) || Delivers(s, Step(s, a), e)
  {
    if a.Run? && (s.pc.Entry? || s.pc.Sending?) {
      var e := InFlight(s.pc)[0];
      LosslessTier(e);
      assert SettlesNothing(s, Step(s, a), a) || Drops(s, Step(s, a), e) || Delivers(s, Step(s, a), e);
    }
  }

  /** One event from the runtime, with nobody on the other end of the channel acting meanwhile. */
  function Undisturbed(s: State, e: Event): State {
    Step(Step(Step(Step(s, Take(e)), Run), Run), Run)
  }

  /**
   What becomes of an event when the consumer does not act: a token refresh is failed; on a closed
   channel the stream is disabled; with room for the event, and for the marker that has to go before
   it, both go in and nothing stays counted; without that room a lossless event waits, and any other
   is dropped, counted and, if it is a request, failed. The marker goes in if it fits, even alone.
   */
  lemma ForwardedWhenRoom(s: State, e: Event)
    requires s.pc == Idle && 1 <= s.capacity && |s.queue| <= s.capacity
    ensures var s' := Undisturbed(s, e);
            var marker := if s.skipped > 0 then [Marker(s.skipped)] else [];
            var markerFits := s.skipped > 0 && |s.queue| < s.capacity;
            if e.Request? && e.request.ChatgptAuthTokensRefresh? then
              s'.pc == Idle && s'.queue == s.queue && s'.fates == s.fates && s'.skipped == s.skipped
              && s'.rejections == s.rejections + [Rejection(e.request, -32000)]
            else if !s.open then
              s'.pc == Disabled(e) && s'.queue == s.queue && s'.fates == s.fates && s'.rejections == s.rejections
            else if |s.queue| + |marker| < s.capacity then
              s'.pc == Idle && s'.queue == s.queue + marker + [Forwarded(e)] && s'.skipped == 0
              && s'.fates == s.fates + [Delivered(e)] && s'.rejections == s.rejections
            else
              && s'.queue == s.queue + (if markerFits then marker else [])
              && if Lossless(e) then
                   s'.pc != Idle && !s'.pc.Disabled? && s'.fates == s.fates && s'.rejections == s.rejections
                   && s'.skipped == (if markerFits then 0 else s.skipped)
                 else
                   s'.pc == Idle && s'.fates == s.fates + [Dropped(e)] && s'.rejections == s.rejections + QueueFullAnswers(e)
                   && s'.skipped == (if markerFits then 1 else if s.skipped < 0xFFFF_FFFF_FFFF_FFFF then s.skipped + 1 else s.skipped)
  {
    LosslessTier(e);
    assert s.queue + [] == s.queue;
  }

  /** A consumer that hangs up gets nothing more, and the next event disables the stream. */
  lemma HangUpDisables(s: State, e: Event)
    requires s.pc == Idle && !IsRefresh(e)
    ensures var s' := Undisturbed(Step(s, Close), e);
            s'.pc == Disabled(e) && Step(s', Pop) == s' && s'.consumed == s.consumed && s'.taken == s.taken + [e]
  {
  }

  // ---------------------------------------------------------------- the worker

  /** What the consumer does while the worker runs; `Pause` lets the worker act. */
  datatype ConsumerMove = PopOne | HangUp | Pause

  datatype ForwardResult = Continue | DisableStream | Pending

  /** Either the event itself is next, or the forward ended at its lag marker. */
  datatype FlushResult = Proceed | Finished(result: ForwardResult)

  datatype Readiness = Room | Closed | Full

  /**
   The worker task, with the consumer's side of the channel as a script. A forward that
   is still blocked when the script ends is `Pending`. Fields declared `ghost` are history;
   `history` is the run of the transition system that the object has performed so far.
   */
  class InProcessWorker {
    ghost const requestedCapacity: nat
    const capacity: nat
    var queue: seq<Item>
    var open: bool
    var skipped: nat
    var eventStreamEnabled: bool
    var rejections: seq<Rejection>
    ghost var pc: Pc
    ghost var consumed: seq<Item>
    ghost var taken: seq<Event>
    ghost var fates: seq<Fate>
    ghost var saturated: nat
    ghost var history: seq<Action>

    ghost function View(): State
      reads this
    {
      State(capacity, queue, open, skipped, pc, consumed, taken, fates, rejections, saturated)
    }

    /** The object is where its history of atomic steps leads, so every result about runs applies to it. */
    ghost predicate Valid()
      reads this
    {
      View() == Exec(Init(requestedCapacity), history)
    }

    constructor (channelCapacity: nat)
      ensures Valid() && requestedCapacity == channelCapacity && history == [] && eventStreamEnabled
    {
      requestedCapacity := channelCapacity;
      capacity := if channelCapacity < 1 then 1 else channelCapacity;
      queue, open, skipped, eventStreamEnabled, rejections := [], true, 0, true, [];
      pc, consumed, taken, fates, saturated, history := Idle, [], [], [], 0, [];
    }

    /** The consumer acts up to its next pause. */
    method LetConsumerRun(env: seq<ConsumerMove>) returns (rest: seq<ConsumerMove>)
      requires Valid()
      modifies this`queue, this`open, this`consumed, this`history
      ensures Valid() && old(history) <= history
      ensures env != [] ==> |rest| < |env|
      ensures env == [] ==> rest == [] && View() == old(View())
    {
      rest := env;
      while rest != [] && rest[0] != Pause
        invariant Valid() && old(history) <= history
        invariant |rest| <= |env|
        invariant env == [] ==> View() == old(View())
        decreases |rest|
      {
        if rest[0] == HangUp {
          ExecSnoc(Init(requestedCapacity), history, Close);
          open := false;
          history := history + [Close];
        } else {
          ExecSnoc(Init(requestedCapacity), history, Pop);
          if open && queue != [] {
            consumed := consumed + [queue[0]];
            queue := queue[1..];
          }
          history := history + [Pop];
        }
        rest := rest[1..];
      }
      if rest != [] {
        rest := rest[1..];
      }
    }

    /** A blocking send waits until there is a free slot or the consumer is gone. */
    method AwaitSlot(env: seq<ConsumerMove>) returns (r: Readiness, rest: seq<ConsumerMove>)
      requires Valid()
      modifies this`queue, this`open, this`consumed, this`history
      ensures Valid() && old(history) <= history
      ensures match r
              case Room => open && |queue| < capacity
              case Closed => !open
              case Full => open && |queue| >= capacity && rest == []
    {
      rest := LetConsumerRun(env);
      while open && |queue| >= capacity && rest != []
        invariant Valid() && old(history) <= history
        decreases |rest|
      {
        rest := LetConsumerRun(rest);
      }
      r := if !open then Closed else if |queue| < capacity then Room else Full;
    }

    /** The saturating count of a dropped event, and the answer owed to a dropped request. */
    method DropEvent(event: Event)
      modifies this`skipped, this`rejections, this`saturated, this`fates, this`pc
      ensures View() == Drop(old(View()), event)
    {
      if skipped < USIZE_MAX {
        skipped := skipped + 1;
      } else {
        saturated := saturated + 1;
      }
      fates := fates + [Dropped(event)];
      pc := Idle;
      if event.Request? {
        rejections := rejections + [Rejection(event.request, QUEUE_FULL_CODE)];
      }
    }

    /** The marker's channel operation, once it may be tried. */
    method TryFlush(event: Event) returns (outcome: FlushResult)
      requires Valid() && skipped > 0
      requires pc == (if RequiresDelivery(event) then Flushing(event) else Entry(event))
      requires RequiresDelivery(event) && open ==> |queue| < capacity
      modifies this`queue, this`skipped, this`rejections, this`saturated, this`fates, this`pc, this`history
      ensures Valid() && history == old(history) + [Run]
      ensures match outcome
              case Proceed => pc == Sending(event)
              case Finished(Continue) => pc == Idle
              case Finished(DisableStream) => pc == Disabled(event) && !open
              case Finished(Pending) => false
    {
      ExecSnoc(Init(requestedCapacity), history, Run);
      history := history + [Run];
      if !open {
        pc, outcome := Disabled(event), Finished(DisableStream);
      } else if |queue| < capacity {
        queue := queue + [Marker(skipped)];
        skipped, pc, outcome := 0, Sending(event), Proceed;
      } else {
        DropEvent(event);
        outcome := Finished(Continue);
      }
    }

    /** The first half of a forward: a pending lag marker goes ahead of the event. */
    method FlushLag(event: Event, env: seq<ConsumerMove>)
      returns (outcome: FlushResult, rest: seq<ConsumerMove>)
      requires Valid() && pc == Entry(event)
      modifies this`queue, this`open, this`consumed, this`skipped, this`rejections, this`saturated, this`fates, this`pc, this`history
      ensures Valid() && old(history) <= history
      ensures match outcome
              case Proceed => pc == Sending(event)
              case Finished(Continue) => pc == Idle
              case Finished(DisableStream) => pc == Disabled(event) && !open
              case Finished(Pending) => pc == Flushing(event) && open && |queue| >= capacity && rest == []
    {
      rest := env;
      if skipped == 0 {
        ExecSnoc(Init(requestedCapacity), history, Run);
        pc, history := Sending(event), history + [Run];
        return Proceed, rest;
      }
      if RequiresDelivery(event) {
        ExecSnoc(Init(requestedCapacity), history, Run);
        pc, history := Flushing(event), history + [Run];
        var slot;
        slot, rest := AwaitSlot(rest);
        if slot == Full {
          return Finished(Pending), rest;
        }
      } else {
        rest := LetConsumerRun(rest);
      }
      outcome := TryFlush(event);
    }

    /** The second half of a forward: the event itself, blocking only when it must be delivered. */
    method SendEvent(event: Event, env: seq<ConsumerMove>)
      returns (result: ForwardResult, rest: seq<ConsumerMove>)
      requires Valid() && pc == Sending(event)
      modifies this`queue, this`open, this`consumed, this`skipped, this`rejections, this`saturated, this`fates, this`pc, this`history
      ensures Valid() && old(history) <= history
      ensures match result
              case Continue => pc == Idle
              case DisableStream => pc == Disabled(event) && !open
              case Pending => pc == Sending(event) && open && |queue| >= capacity && rest == []
    {
      if RequiresDelivery(event) {
        var slot;
        slot, rest := AwaitSlot(env);
        if slot == Full {
          return Pending, rest;
        }
      } else {
        rest := LetConsumerRun(env);
      }
      ExecSnoc(Init(requestedCapacity), history, Run);
      history := history + [Run];
      result := Continue;
      if !open {
        pc, result := Disabled(event), DisableStream;
      } else if |queue| < capacity {
        queue := queue + [Forwarded(event)];
        fates, pc := fates + [Delivered(event)], Idle;
      } else {
        DropEvent(event);
      }
    }

    /** One turn of the worker loop on an event of the runtime. */
    method HandleRuntimeEvent(event: Event, env: seq<ConsumerMove>)
      returns (result: ForwardResult, rest: seq<ConsumerMove>)
      requires Valid() && pc == Idle && eventStreamEnabled
      modifies this
      ensures Valid() && old(history) + [Take(event)] <= history
      ensures match result
              case Continue => pc == Idle && eventStreamEnabled
              case DisableStream => pc == Disabled(event) && !open && !eventStreamEnabled
              case Pending => (pc == Flushing(event) || pc == Sending(event)) && open && |queue| >= capacity && rest == []
    {
      ExecSnoc(Init(requestedCapacity), history, Take(event));
      history := history + [Take(event)];
      taken := taken + [event];
      if IsRefresh(event) {
        rejections := rejections + [Rejection(event.request, REFRESH_UNSUPPORTED_CODE)];
        return Continue, env;
      }
      pc := Entry(event);
      var flush;
      flush, rest := FlushLag(event, env);
      if flush.Proceed? {
        result, rest := SendEvent(event, rest);
      } else {
        result := flush.result;
      }
      if result == DisableStream {
        eventStreamEnabled := false;
      }
    }
  }
}
