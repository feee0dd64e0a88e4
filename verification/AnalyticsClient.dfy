/**
 The sending side of analytics: the partition of events into request batches, and the sets of
 keys that keep repeated "used" events from being queued twice.
 */
module AnalyticsClient {

  // ---------------------------------------------------------------- batching

  /** The events of the source, told apart by whether they must travel alone. */
  datatype TrackEvent = AcceptedLineFingerprints(id: int) | Ordinary(id: int)

  /** `should_send_in_isolated_request`. */
  predicate Isolated(e: TrackEvent) {
    e.AcceptedLineFingerprints?
  }

  type Batch = seq<TrackEvent>

  function Concat(batches: seq<Batch>): seq<TrackEvent> {
    if batches == [] then [] else batches[0] + Concat(batches[1..])
  }

  /** A batch the server accepts: not empty, and an isolated event is in it alone. */
  predicate Sendable(b: Batch) {
    b != [] && (|b| == 1 || forall i :: 0 <= i < |b| ==> b[i].Ordinary?)
  }

  predicate IsOrdinary(b: Batch) {
    forall i :: 0 <= i < |b| ==> b[i].Ordinary?
  }

  /** Keeps the order and isolates what has to be. */
  predicate Partition(batches: seq<Batch>, events: seq<TrackEvent>) {
    Concat(batches) == events && forall i :: 0 <= i < |batches| ==> Sendable(batches[i])
  }

  /** No two neighbours could have been sent as one. */
  predicate Merged(batches: seq<Batch>) {
    forall i :: 0 <= i < |batches| - 1 ==> !IsOrdinary(batches[i]) || !IsOrdinary(batches[i + 1])
  }

  lemma {:induction false} ConcatSnoc(batches: seq<Batch>, b: Batch)
    ensures Concat(batches + [b]) == Concat(batches) + b
    decreases batches
  {
    if batches == [] {
      assert batches + [b] == [b] && [b][1..] == [];
    } else {
      assert (batches + [b])[1..] == batches[1..] + [b];
      ConcatSnoc(batches[1..], b);
    }
  }

  /** What the loop has built so far: everything sendable, nothing left to merge. */
  predicate Good(batches: seq<Batch>) {
    (forall i :: 0 <= i < |batches| ==> Sendable(batches[i])) && Merged(batches)
  }

  lemma GoodSnoc(batches: seq<Batch>, b: Batch)
    requires Good(batches) && Sendable(b)
    requires batches == [] || !IsOrdinary(batches[|batches| - 1]) || !IsOrdinary(b)
    ensures Good(batches + [b]) && Concat(batches + [b]) == Concat(batches) + b
  {
    ConcatSnoc(batches, b);
    var all := batches + [b];
    forall i | 0 <= i < |all| - 1
      ensures !IsOrdinary(all[i]) || !IsOrdinary(all[i + 1])
    {
      if i + 1 < |batches| {
        assert all[i] == batches[i] && all[i + 1] == batches[i + 1];
      }
    }
  }

  lemma IsolatedAlone(e: TrackEvent)
    requires Isolated(e)
    ensures Sendable([e]) && !IsOrdinary([e])
  {
    assert [e][0] == e;
  }

  /** The source's loop returns a partition in which nothing more can be merged. */
  method TrackEventRequestBatches(events: seq<TrackEvent>) returns (batches: seq<Batch>)
    ensures Partition(batches, events) && Merged(batches)
  {
    batches := [];
    var current: Batch := [];
    for k := 0 to |events|
      invariant Concat(batches) + current == events[..k]
      invariant Good(batches) && IsOrdinary(current)
      invariant batches != [] ==> !IsOrdinary(batches[|batches| - 1])
    {
      var event := events[k];
      assert events[..k + 1] == events[..k] + [event];
      if Isolated(event) {
        if current != [] {
          GoodSnoc(batches, current);
          batches := batches + [current];
          current := [];
        }
        IsolatedAlone(event);
        GoodSnoc(batches, [event]);
        batches := batches + [[event]];
      } else {
        current := current + [event];
      }
    }
    assert events[..|events|] == events;
    if current != [] {
      GoodSnoc(batches, current);
      batches := batches + [current];
    }
  }

  /** Where the first batch of a merged partition ends is dictated by the events. */
  function FirstCut(events: seq<TrackEvent>): (n: nat)
    requires events != []
    ensures 1 <= n <= |events|
  {
    if Isolated(events[0]) then 1
    else if |events| == 1 || Isolated(events[1]) then 1
    else 1 + FirstCut(events[1..])
  }

  lemma {:induction false} FirstCutSpec(events: seq<TrackEvent>)
    requires events != [] && !Isolated(events[0])
    ensures var n := FirstCut(events);
            && (forall i :: 0 <= i < n ==> !Isolated(events[i]))
            && (n < |events| ==> Isolated(events[n]))
    decreases events
  {
    if |events| > 1 && !Isolated(events[1]) {
      FirstCutSpec(events[1..]);
    }
  }

  /** A sendable first batch never reaches past the first cut. */
  lemma FirstBatchBound(batches: seq<Batch>, events: seq<TrackEvent>)
    requires Partition(batches, events) && batches != []
    ensures events != [] && batches[0] <= events && 1 <= |batches[0]| <= FirstCut(events)
    ensures Partition(batches[1..], events[|batches[0]|..])
  {
    var b := batches[0];
    assert Sendable(b);
    assert events == b + Concat(batches[1..]);
    assert events[..|b|] == b && events[|b|..] == Concat(batches[1..]);
    if |b| > 1 {
      assert !Isolated(b[0]);
      FirstCutSpec(events);
      assert forall i :: 0 <= i < |b| ==> events[i] == b[i];
    }
  }

  /** A first batch that stops short of the cut could have been sent together with the next. */
  lemma ShortBatchMerges(batches: seq<Batch>, events: seq<TrackEvent>)
    requires Partition(batches, events) && batches != [] && events != [] && |batches[0]| < FirstCut(events)
    ensures |batches| > 1 && IsOrdinary(batches[0]) && IsOrdinary(batches[1])
  {
    FirstBatchBound(batches, events);
    FirstCutSpec(events);
    var b, rest := batches[0], events[|batches[0]|..];
    assert batches[1..] != [];
    FirstBatchBound(batches[1..], rest);
    var c := batches[1];
    assert Sendable(c) && c == batches[1..][0] && c <= rest;
    assert forall i :: 0 <= i < |b| ==> b[i] == events[i];
    assert c[0] == rest[0] == events[|b|];
  }

  /** In a merged partition it reaches exactly that far. */
  lemma FirstBatchExact(batches: seq<Batch>, events: seq<TrackEvent>)
    requires Partition(batches, events) && Merged(batches) && batches != []
    ensures events != [] && |batches[0]| == FirstCut(events)
  {
    FirstBatchBound(batches, events);
    if |batches[0]| < FirstCut(events) { ShortBatchMerges(batches, events); }
  }

  /** The canonical partition is unique: sendable, order-keeping and merged leaves no choice. */
  lemma {:induction false} BatchingUnique(a: seq<Batch>, b: seq<Batch>, events: seq<TrackEvent>)
    requires Partition(a, events) && Merged(a)
    requires Partition(b, events) && Merged(b)
    ensures a == b
    decreases a
  {
    if a == [] || b == [] {
      EmptyPartition(a, events);
      EmptyPartition(b, events);
    } else {
      FirstBatchExact(a, events);
      FirstBatchExact(b, events);
      FirstBatchBound(a, events);
      FirstBatchBound(b, events);
      assert a[0] == b[0];
      assert Merged(a[1..]) by { assert forall i :: 0 <= i < |a| - 1 ==> a[1..][i] == a[i + 1]; }
      assert Merged(b[1..]) by { assert forall i :: 0 <= i < |b| - 1 ==> b[1..][i] == b[i + 1]; }
      BatchingUnique(a[1..], b[1..], events[|a[0]|..]);
      assert a == [a[0]] + a[1..] && b == [b[0]] + b[1..];
    }
  }

  lemma EmptyPartition(a: seq<Batch>, events: seq<TrackEvent>)
    requires Partition(a, events)
    ensures a == [] <==> events == []
  {
    if a != [] {
      FirstBatchBound(a, events);
    }
  }

  /** The number of runs that order and isolation force. */
  function ForcedBatches(events: seq<TrackEvent>): nat
    decreases |events|
  {
    if events == [] then 0 else 1 + ForcedBatches(events[FirstCut(events)..])
  }

  lemma {:induction false} FirstCutOfSuffix(events: seq<TrackEvent>, m: nat)
    requires events != [] && m < FirstCut(events)
    ensures FirstCut(events[m..]) == FirstCut(events) - m
    decreases m
  {
    if m > 0 {
      FirstCutOfSuffix(events[1..], m - 1);
      assert events[1..][m - 1..] == events[m..];
    } else {
      assert events[0..] == events;
    }
  }

  /** Cutting the first run short saves nothing. */
  lemma ShortCutSavesNothing(events: seq<TrackEvent>, m: nat)
    requires events != [] && 1 <= m <= FirstCut(events)
    ensures ForcedBatches(events) <= 1 + ForcedBatches(events[m..])
  {
    var n := FirstCut(events);
    if m < n {
      FirstCutOfSuffix(events, m);
      assert events[m..][n - m..] == events[n..];
    }
  }

  lemma {:induction false} ForcedIsLowerBound(batches: seq<Batch>, events: seq<TrackEvent>)
    requires Partition(batches, events)
    ensures ForcedBatches(events) <= |batches|
    decreases batches
  {
    if batches != [] {
      FirstBatchBound(batches, events);
      ForcedIsLowerBound(batches[1..], events[|batches[0]|..]);
      ShortCutSavesNothing(events, |batches[0]|);
    }
  }

  lemma {:induction false} MergedIsForced(batches: seq<Batch>, events: seq<TrackEvent>)
    requires Partition(batches, events) && Merged(batches)
    ensures |batches| == ForcedBatches(events)
    decreases batches
  {
    if batches != [] {
      FirstBatchExact(batches, events);
      FirstBatchBound(batches, events);
      assert Merged(batches[1..]) by { assert forall i :: 0 <= i < |batches| - 1 ==> batches[1..][i] == batches[i + 1]; }
      MergedIsForced(batches[1..], events[|batches[0]|..]);
    }
  }

  /** No order-keeping partition that isolates what must be isolated has fewer batches. */
  lemma BatchingMinimal(a: seq<Batch>, b: seq<Batch>, events: seq<TrackEvent>)
    requires Partition(a, events) && Merged(a)
    requires Partition(b, events)
    ensures |a| <= |b|
  {
    MergedIsForced(a, events);
    ForcedIsLowerBound(b, events);
  }

  // ---------------------------------------------------------------- dedupe windows

  const MAX_KEYS := 4096

  type Key = (string, string)

  /** The keys emitted in the current window. A full set is cleared before the next key. */
  class EmittedKeys {
    var emitted: set<Key>
    ghost var calls: seq<Key>

    ghost predicate Valid()
      reads this
    {
      emitted == Window(calls)
    }

    constructor ()
      ensures Valid() && calls == []
    {
      emitted, calls := {}, [];
    }

    /** `should_enqueue_plugin_used`, and `should_enqueue_app_used` with a connector id. */
    method ShouldEnqueue(turnId: string, id: string) returns (fresh_: bool)
      requires Valid()
      modifies this
      ensures Valid() && calls == old(calls) + [(turnId, id)]
      ensures fresh_ == Accepted(calls, |calls| - 1)
    {
      var key := (turnId, id);
      ghost var n := |calls|;
      assert (calls + [key])[..n] == calls;
      if |emitted| >= MAX_KEYS {
        emitted := {};
      }
      fresh_ := key !in emitted;
      emitted := emitted + {key};
      calls := calls + [key];
      assert calls[..n] == old(calls);
    }

    /** An app without a connector id is never deduplicated. */
    method ShouldEnqueueApp(turnId: string, connectorId: string, hasConnector: bool) returns (fresh_: bool)
      requires Valid()
      modifies this
      ensures Valid()
      ensures if hasConnector then calls == old(calls) + [(turnId, connectorId)] && fresh_ == Accepted(calls, |calls| - 1)
              else fresh_ && calls == old(calls) && emitted == old(emitted)
    {
      if !hasConnector {
        return true;
      }
      fresh_ := ShouldEnqueue(turnId, connectorId);
    }
  }

  /** A full set is emptied before it is used again. */
  function Reset(w: set<Key>): set<Key> {
    if |w| >= MAX_KEYS then {} else w
  }

  /** The set after a sequence of keyed calls. */
  function Window(calls: seq<Key>): set<Key> {
    if calls == [] then {} else Reset(Window(calls[..|calls| - 1])) + {calls[|calls| - 1]}
  }

  /** The set that the next call looks its key up in. */
  function Opened(calls: seq<Key>): set<Key> {
    Reset(Window(calls))
  }

  /** Call `i` clears the set first. */
  predicate Clears(calls: seq<Key>, i: nat)
    requires i < |calls|
  {
    |Window(calls[..i])| >= MAX_KEYS
  }

  /** Call `i` is answered true. */
  predicate Accepted(calls: seq<Key>, i: nat)
    requires i < |calls|
  {
    calls[i] !in Opened(calls[..i])
  }

  lemma WindowStep(calls: seq<Key>, i: nat)
    requires i < |calls|
    ensures Window(calls[..i + 1]) == Opened(calls[..i]) + {calls[i]}
  {
    assert calls[..i + 1][..i] == calls[..i];
  }

  lemma {:induction false} WindowBounded(calls: seq<Key>)
    ensures |Window(calls)| <= 4096
    decreases calls
  {
    if calls != [] {
      WindowBounded(calls[..|calls| - 1]);
      var before, key := Opened(calls[..|calls| - 1]), calls[|calls| - 1];
      if key in before {
        assert before + {key} == before;
      }
    }
  }

  /** A key stays in the window until a clear. */
  lemma {:induction false} KeyStays(calls: seq<Key>, i: nat, j: nat)
    requires i < j <= |calls|
    requires forall k :: i < k < j ==> !Clears(calls, k)
    ensures calls[i] in Window(calls[..j])
    decreases j
  {
    WindowStep(calls, j - 1);
    if j > i + 1 {
      assert !Clears(calls, j - 1);
      KeyStays(calls, i, j - 1);
    }
  }

  /** Two true answers for one key always have a clear between them, possibly at the second call. */
  lemma RepeatNeedsClear(calls: seq<Key>, i: nat, j: nat)
    requires i < j < |calls| && calls[i] == calls[j]
    requires Accepted(calls, i) && Accepted(calls, j)
    ensures exists k :: i < k <= j && Clears(calls, k)
  {
    if forall k :: i < k <= j ==> !Clears(calls, k) {
      assert !Clears(calls, j);
      KeyStays(calls, i, j);
      assert false;
    }
  }

  /** The keys answered true among calls `i..j`, in order. */
  function AcceptedKeys(calls: seq<Key>, i: nat, j: nat): seq<Key>
    requires i <= j <= |calls|
    decreases j
  {
    if i == j then [] else
    AcceptedKeys(calls, i, j - 1) + if Accepted(calls, j - 1) then [calls[j - 1]] else []
  }

  predicate Distinct(keys: seq<Key>) {
    forall a, b :: 0 <= a < b < |keys| ==> keys[a] != keys[b]
  }

  lemma DistinctSnoc(keys: seq<Key>, key: Key)
    requires Distinct(keys) && key !in (set k | k in keys)
    ensures Distinct(keys + [key])
    ensures (set k | k in keys + [key]) == (set k | k in keys) + {key}
  {
  }

  /** `keys` lists the set `window`, each member once. */
  ghost predicate Lists(keys: seq<Key>, window: set<Key>) {
    Distinct(keys) && (set k | k in keys) == window && |keys| == |window|
  }

  lemma FirstIsAccepted(calls: seq<Key>, i: nat)
    requires i < |calls| && Opened(calls[..i]) == {}
    ensures Listed(calls, i, i + 1)
  {
    WindowStep(calls, i);
    assert AcceptedKeys(calls, i, i) == [];
    assert AcceptedKeys(calls, i, i + 1) == [calls[i]];
    assert Window(calls[..i + 1]) == {calls[i]};
  }

  /** Since call `i` up to call `j` the window is the accepted keys, each once. */
  ghost predicate Listed(calls: seq<Key>, i: nat, j: nat)
    requires i <= j <= |calls|
  {
    Lists(AcceptedKeys(calls, i, j), Window(calls[..j]))
  }

  lemma NextIsAccepted(calls: seq<Key>, i: nat, j: nat)
    requires i < j < |calls| && !Clears(calls, j) && Listed(calls, i, j)
    ensures Listed(calls, i, j + 1)
  {
    WindowStep(calls, j);
    assert Opened(calls[..j]) == Window(calls[..j]);
    if Accepted(calls, j) {
      DistinctSnoc(AcceptedKeys(calls, i, j), calls[j]);
    } else {
      assert Window(calls[..j + 1]) == Window(calls[..j]);
    }
  }

  /** From a call that starts an empty set up to the next clear, the window is the accepted keys, each once. */
  lemma {:induction false} WindowIsAccepted(calls: seq<Key>, i: nat, j: nat)
    requires i < j <= |calls| && Opened(calls[..i]) == {}
    requires forall k :: i < k < j ==> !Clears(calls, k)
    ensures Listed(calls, i, j)
    decreases j
  {
    if j == i + 1 {
      FirstIsAccepted(calls, i);
    } else {
      var before := j - 1;
      WindowIsAccepted(calls, i, before);
      NextIsAccepted(calls, i, before);
    }
  }

  /** Between two consecutive clears exactly 4096 pairwise distinct keys are accepted. */
  lemma FullWindow(calls: seq<Key>, i: nat, j: nat)
    requires i < j < |calls| && Clears(calls, i) && Clears(calls, j)
    requires forall k :: i < k < j ==> !Clears(calls, k)
    ensures Distinct(AcceptedKeys(calls, i, j)) && |AcceptedKeys(calls, i, j)| == 4096
  {
    WindowIsAccepted(calls, i, j);
    WindowBounded(calls[..j]);
  }

  // ---------------------------------------------------------------- answers by the history of calls

  /** Call `i` begins a window: it is the first, or it clears the set. */
  predicate BeginsWindow(calls: seq<Key>, i: nat)
    requires i < |calls|
  {
    i == 0 || Clears(calls, i)
  }

  /** Calls `i..j` belong to the window that call `i` begins. */
  predicate OneWindow(calls: seq<Key>, i: nat, j: nat)
    requires i <= j <= |calls|
  {
    i < |calls| && BeginsWindow(calls, i) && forall k :: i < k < j ==> !Clears(calls, k)
  }

  /** One of the calls `i..j` had the key. */
  predicate Called(calls: seq<Key>, i: nat, j: nat, key: Key)
    requires i <= j <= |calls|
  {
    exists m :: i <= m < j && calls[m] == key
  }

  lemma CalledNext(calls: seq<Key>, i: nat, j: nat, key: Key)
    requires i <= j < |calls|
    ensures Called(calls, i, j + 1, key) <==> Called(calls, i, j, key) || calls[j] == key
  {
  }

  /** A window begins with an empty set. */
  lemma BeginsEmpty(calls: seq<Key>, i: nat)
    requires i < |calls| && BeginsWindow(calls, i)
    ensures Opened(calls[..i]) == {}
  {
    if i == 0 { assert calls[..0] == []; }
  }

  /** The set holds exactly the keys of the calls since the window began. */
  lemma {:induction false} WindowHolds(calls: seq<Key>, i: nat, j: nat, key: Key)
    requires i < j <= |calls| && OneWindow(calls, i, j)
    ensures key in Window(calls[..j]) <==> Called(calls, i, j, key)
    decreases j
  {
    var before := j - 1;
    WindowStep(calls, before);
    CalledNext(calls, i, before, key);
    if before == i {
      BeginsEmpty(calls, i);
    } else {
      WindowHolds(calls, i, before, key);
      assert !Clears(calls, before);
    }
  }

  /**
   A repeated call is answered false and any other true: call `j` of a window is accepted exactly if no earlier
   call of the window had its key. The call that begins a window is always accepted.
   */
  lemma AcceptedExactly(calls: seq<Key>, i: nat, j: nat)
    requires i <= j < |calls| && OneWindow(calls, i, j + 1)
    ensures Accepted(calls, j) <==> forall m :: i <= m < j ==> calls[m] != calls[j]
  {
    if j == i {
      BeginsEmpty(calls, i);
    } else {
      assert OneWindow(calls, i, j);
      WindowHolds(calls, i, j, calls[j]);
      assert !Clears(calls, j);
    }
  }

  /** A window ends exactly when 4096 of its calls have been accepted. */
  lemma ClearsExactly(calls: seq<Key>, i: nat, j: nat)
    requires i < j < |calls| && OneWindow(calls, i, j)
    ensures Clears(calls, j) <==> |AcceptedKeys(calls, i, j)| == 4096
  {
    BeginsEmpty(calls, i);
    WindowIsAccepted(calls, i, j);
    WindowBounded(calls[..j]);
  }
}
