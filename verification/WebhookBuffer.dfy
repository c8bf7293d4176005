/**
 The API's ingest buffer: requests put events in a bounded queue, one flusher
 takes batches out and publishes them.  Requests go on while a batch is being
 published.  A batch whose publication raises is gone from the process, and any
 of its events may have reached the stream before that: the pipeline of XADDs is
 not a transaction.
 */
module WebhookBuffer {
  import opened Prelude

  /** `buffer_queue_size`, where zero or less means unbounded, and `buffer_max_batch`. */
  datatype Limits = Limits(capacity: int, maxBatch: int)

  /** A settled batch: what was taken, what of it reached the stream, and whether the publication returned. */
  datatype Batch<T> = Batch(events: seq<T>, landed: seq<T>, published: bool)

  /**
   The queue, the batch being published, the counter, and what the process does
   not keep: everything accepted, the batches settled and the total acknowledged
   to the callers.
   */
  datatype State<T> = State(
    queue: seq<T>, inFlight: seq<T>, published: nat,
    accepted: seq<T>, batches: seq<Batch<T>>, acknowledged: nat)

  datatype Step<T> =
    | Ingest(events: seq<T>, overloaded: bool)
    | Take
    | Settle(ok: bool, landed: set<nat>)

  function Start<T>(): State<T> {
    State([], [], 0, [], [], 0)
  }

  predicate Full(limits: Limits, depth: nat) {
    limits.capacity > 0 && depth >= limits.capacity
  }

  /** How many of the next events a queue of this depth accepts. */
  function Room(limits: Limits, depth: nat, wanted: nat): (n: nat)
    ensures n <= wanted
  {
    if limits.capacity <= 0 then wanted else Min(wanted, Max(limits.capacity - depth, 0))
  }

  function BatchSize(limits: Limits, depth: nat): (n: nat)
    ensures n <= depth
  {
    Min(Max(limits.maxBatch, 0), depth)
  }

  /** The events at the given positions, in order. */
  function Pick<T>(events: seq<T>, positions: set<nat>): (r: seq<T>)
    ensures |r| <= |events|
    ensures forall x :: x in r ==> x in events
  {
    if events == [] then []
    else
      var n := |events| - 1;
      Pick(events[..n], positions) + if n in positions then [events[n]] else []
  }

  /** What a failed publication has landed can be any selection of the batch, and is it in order. */
  lemma {:induction false} PicksThePositions<T>(events: seq<T>, positions: set<nat>) returns (at: seq<nat>)
    ensures |at| == |Pick(events, positions)| && forall k :: 0 <= k < |at| ==> at[k] < |events| && Pick(events, positions)[k] == events[at[k]]
    ensures forall j, k :: 0 <= j < k < |at| ==> at[j] < at[k]
    ensures forall i :: i in at <==> i in positions && i < |events|
  {
    at := [];
    if events != [] {
      var n := |events| - 1;
      at := PicksThePositions(events[..n], positions);
      if n in positions { at := at + [n]; }
    }
  }

  predicate Enabled<T(==)>(s: State<T>, step: Step<T>) {
    // the one flusher takes nothing while it awaits a publication
    step.Take? ==> s.inFlight == []
  }

  function Apply<T>(limits: Limits, s: State<T>, step: Step<T>): State<T> {
    match step
    case Ingest(events, overloaded) =>
      var n := if overloaded then 0 else Room(limits, |s.queue|, |events|);
      s.(queue := s.queue + events[..n], accepted := s.accepted + events[..n], acknowledged := s.acknowledged + n)
    case Take =>
      var n := BatchSize(limits, |s.queue|);
      s.(inFlight := s.queue[..n], queue := s.queue[n..])
    case Settle(ok, landed) =>
      if |s.inFlight| == 0 then s
      else s.(inFlight := [], published := s.published + if ok then |s.inFlight| else 0,
              batches := s.batches + [Batch(s.inFlight, if ok then s.inFlight else Pick(s.inFlight, landed), ok)])
  }

  predicate Run<T(==)>(limits: Limits, s: State<T>, steps: seq<Step<T>>)
    decreases |steps|
  {
    steps == [] || (Enabled(s, steps[0]) && Run(limits, Apply(limits, s, steps[0]), steps[1..]))
  }

  function After<T>(limits: Limits, s: State<T>, steps: seq<Step<T>>): State<T>
    decreases |steps|
  {
    if steps == [] then s else After(limits, Apply(limits, s, steps[0]), steps[1..])
  }

  // ---- conservation ----

  function Events<T>(batches: seq<Batch<T>>): seq<T> {
    if batches == [] then [] else Events(batches[..|batches| - 1]) + batches[|batches| - 1].events
  }

  /** The events that reached the stream, in order. */
  function Delivered<T>(batches: seq<Batch<T>>): seq<T> {
    if batches == [] then [] else Delivered(batches[..|batches| - 1]) + batches[|batches| - 1].landed
  }

  /** The events of the batches whose publication returned. */
  function Returned<T>(batches: seq<Batch<T>>): seq<T> {
    if batches == [] then []
    else
      var last := batches[|batches| - 1];
      Returned(batches[..|batches| - 1]) + if last.published then last.events else []
  }

  ghost predicate Inv<T>(limits: Limits, s: State<T>) {
    && s.accepted == Events(s.batches) + s.inFlight + s.queue
    && s.published == |Returned(s.batches)|
    && s.acknowledged == |s.accepted|
    && (limits.capacity > 0 ==> |s.queue| <= limits.capacity)
    && |s.inFlight| <= Max(limits.maxBatch, 0)
    && (forall k :: 0 <= k < |s.batches| ==> 0 < |s.batches[k].events| <= limits.maxBatch && BatchOk(s.batches[k]))
  }

  ghost predicate BatchOk<T>(b: Batch<T>) {
    |b.landed| <= |b.events| && (b.published ==> b.landed == b.events)
  }

  lemma TakeKeeps<T>(limits: Limits, s: State<T>)
    requires Inv(limits, s) && s.inFlight == []
    ensures Inv(limits, Apply(limits, s, Take))
  {
    var n := BatchSize(limits, |s.queue|);
    assert s.queue == s.queue[..n] + s.queue[n..];
  }

  lemma SettleKeeps<T>(limits: Limits, s: State<T>, ok: bool, landed: set<nat>)
    requires Inv(limits, s)
    ensures Inv(limits, Apply(limits, s, Settle(ok, landed)))
  {
    if s.inFlight != [] {
      var batches := Apply(limits, s, Settle(ok, landed)).batches;
      assert batches[..|batches| - 1] == s.batches;
    }
  }

  lemma IngestKeeps<T>(limits: Limits, s: State<T>, events: seq<T>, overloaded: bool)
    requires Inv(limits, s)
    ensures Inv(limits, Apply(limits, s, Ingest(events, overloaded)))
  {
    var n := if overloaded then 0 else Room(limits, |s.queue|, |events|);
    var out := Events(s.batches) + s.inFlight;
    assert out + s.queue + events[..n] == out + (s.queue + events[..n]);
  }

  lemma {:induction false} RunKeepsInv<T>(limits: Limits, s: State<T>, steps: seq<Step<T>>)
    requires Inv(limits, s) && Run(limits, s, steps)
    ensures Inv(limits, After(limits, s, steps))
    decreases |steps|
  {
    if steps != [] {
      match steps[0] {
        case Ingest(events, overloaded) => IngestKeeps(limits, s, events, overloaded);
        case Take => TakeKeeps(limits, s);
        case Settle(ok, landed) => SettleKeeps(limits, s, ok, landed);
      }
      RunKeepsInv(limits, Apply(limits, s, steps[0]), steps[1..]);
    }
  }

  /**
   For any interleaving of requests and flushes: the accepted events are, in
   order, the batches taken, the batch being published and the queue; the counter
   is the number of events in batches whose publication returned, and no more have
   been counted than have reached the stream; the callers were acknowledged
   exactly the accepted events; the depth respects a positive capacity.
   */
  lemma AcceptedIsTakenThenQueued<T>(limits: Limits, steps: seq<Step<T>>)
    requires Run(limits, Start(), steps)
    ensures var s := After(limits, Start(), steps);
            && s.accepted == Events(s.batches) + s.inFlight + s.queue
            && s.published == |Returned(s.batches)| <= |Delivered(s.batches)|
            && s.acknowledged == |s.accepted|
            && (limits.capacity > 0 ==> |s.queue| <= limits.capacity)
  {
    RunKeepsInv(limits, Start(), steps);
    ReturnedHaveLanded(After(limits, Start(), steps).batches);
  }

  lemma {:induction false} ReturnedHaveLanded<T>(batches: seq<Batch<T>>)
    requires forall k :: 0 <= k < |batches| ==> BatchOk(batches[k])
    ensures |Returned(batches)| <= |Delivered(batches)| <= |Events(batches)|
  {
    if batches != [] {
      ReturnedHaveLanded(batches[..|batches| - 1]);
      assert BatchOk(batches[|batches| - 1]);
    }
  }

  /** Everything taken reached the stream exactly if every batch landed whole. */
  lemma {:induction false} DeliveredAllIff<T>(batches: seq<Batch<T>>)
    requires forall k :: 0 <= k < |batches| ==> BatchOk(batches[k])
    ensures Delivered(batches) == Events(batches) <==> forall k :: 0 <= k < |batches| ==> batches[k].landed == batches[k].events
  {
    if batches != [] {
      var n := |batches| - 1;
      var before := batches[..n];
      DeliveredAllIff(before);
      ReturnedHaveLanded(before);
      assert forall k :: 0 <= k < n ==> before[k] == batches[k];
      assert BatchOk(batches[n]);
      if Delivered(batches) == Events(batches) {
        SplitEqual(Delivered(before), Events(before), batches[n].landed, batches[n].events);
      }
    }
  }

  /** Everything taken was counted exactly if every publication returned. */
  lemma {:induction false} CountedAllIff<T>(batches: seq<Batch<T>>)
    requires forall k :: 0 <= k < |batches| ==> batches[k].events != []
    ensures |Returned(batches)| <= |Events(batches)|
    ensures |Returned(batches)| == |Events(batches)| <==> forall k :: 0 <= k < |batches| ==> batches[k].published
  {
    if batches != [] {
      var n := |batches| - 1;
      CountedAllIff(batches[..n]);
      assert forall k :: 0 <= k < n ==> batches[..n][k] == batches[k];
    }
  }

  /**
   In every run from the empty buffer: what reached the stream, what is in flight
   and what is queued is everything accepted, in order, if and only if every batch
   landed whole, as it does whenever its publication returns; and the counter
   accounts for everything acknowledged if and only if every publication returned.
   */
  lemma NothingLostWithoutFailure<T>(limits: Limits, steps: seq<Step<T>>)
    requires Run(limits, Start(), steps)
    ensures var s := After(limits, Start(), steps);
            && (Delivered(s.batches) + s.inFlight + s.queue == s.accepted
                <==> forall k :: 0 <= k < |s.batches| ==> s.batches[k].landed == s.batches[k].events)
            && (forall k :: 0 <= k < |s.batches| && s.batches[k].published ==> s.batches[k].landed == s.batches[k].events)
            && (s.published + |s.inFlight| + |s.queue| == s.acknowledged <==> forall k :: 0 <= k < |s.batches| ==> s.batches[k].published)
  {
    RunKeepsInv(limits, Start(), steps);
    var s := After(limits, Start(), steps);
    DeliveredAllIff(s.batches);
    ReturnedHaveLanded(s.batches);
    CountedAllIff(s.batches);
    if Delivered(s.batches) + s.inFlight + s.queue == s.accepted {
      SameBefore(Delivered(s.batches), Events(s.batches), s.inFlight, s.queue);
    }
  }

  lemma SameBefore<T>(a: seq<T>, b: seq<T>, x: seq<T>, y: seq<T>)
    requires a + x + y == b + x + y && |a| <= |b|
    ensures a == b
  {
    assert a + x + y == a + (x + y) && b + x + y == b + (x + y);
    SplitEqual(a, b, x + y, x + y);
  }

  lemma SplitEqual<T>(a: seq<T>, b: seq<T>, x: seq<T>, y: seq<T>)
    requires a + x == b + y && |a| <= |b| && |x| <= |y|
    ensures a == b && x == y
  {
    assert |a + x| == |a| + |x| && |b + y| == |b| + |y|;
    assert a == (a + x)[..|a|] && b == (b + y)[..|b|];
    assert x == (a + x)[|a|..] && y == (b + y)[|b|..];
  }

  // ---- how long an event waits ----

  /** Events that have left the queue. */
  function Out<T>(s: State<T>): int {
    |s.accepted| - |s.queue|
  }

  /** What the takes of a run could remove from a full queue. */
  function TakingUpTo<T>(limits: Limits, steps: seq<Step<T>>): nat {
    if steps == [] then 0
    else (if steps[0].Take? then Max(limits.maxBatch, 0) else 0) + TakingUpTo(limits, steps[1..])
  }

  /**
   First in, first out, whatever is submitted meanwhile: an event accepted at
   position `p` has left the queue once the takes since then could have removed
   the events before it and itself.
   */
  lemma {:induction false} TakenInTurn<T>(limits: Limits, s: State<T>, steps: seq<Step<T>>, p: nat)
    requires Run(limits, s, steps) && |s.queue| <= |s.accepted|
    requires p < |s.accepted| && p < Out(s) + TakingUpTo(limits, steps)
    ensures p < Out(After(limits, s, steps))
    decreases |steps|
  {
    if steps != [] {
      if p < Out(s) {
        OutGrows(limits, s, steps);
      } else {
        var s' := Apply(limits, s, steps[0]);
        if p < Out(s') {
          OutGrows(limits, s', steps[1..]);
        } else {
          TakenInTurn(limits, s', steps[1..], p);
        }
      }
    }
  }

  lemma {:induction false} OutGrows<T>(limits: Limits, s: State<T>, steps: seq<Step<T>>)
    ensures Out(s) <= Out(After(limits, s, steps))
    decreases |steps|
  {
    if steps != [] { OutGrows(limits, Apply(limits, s, steps[0]), steps[1..]); }
  }

  // ---- the buffer and the route, in place ----

  const HTTP_202_ACCEPTED := 202
  const HTTP_429_TOO_MANY_REQUESTS := 429

  class EventBuffer<T(==)> {
    const limits: Limits
    var queue: seq<T>
    var published: nat
    var inFlight: seq<T>
    ghost var accepted: seq<T>
    ghost var batches: seq<Batch<T>>
    ghost var acknowledged: nat

    ghost function Contents(): State<T>
      reads this
    {
      State(queue, inFlight, published, accepted, batches, acknowledged)
    }

    constructor (limits: Limits)
      ensures this.limits == limits && Contents() == Start()
    {
      this.limits := limits;
      queue, inFlight, published := [], [], 0;
      accepted, batches, acknowledged := [], [], 0;
    }

    /** `false` is BufferFullError. */
    method Submit(event: T) returns (ok: bool)
      modifies this
      ensures ok <==> !Full(limits, |old(queue)|)
      ensures queue == old(queue) + if ok then [event] else []
      ensures accepted == old(accepted) + if ok then [event] else []
      ensures inFlight == old(inFlight) && published == old(published)
      ensures batches == old(batches) && acknowledged == old(acknowledged)
    {
      ok := !Full(limits, |queue|);
      if ok {
        queue := queue + [event];
        accepted := accepted + [event];
      }
    }

    /** The events route.  The accepted events are the longest prefix that fits. */
    method IngestEvents(events: seq<T>, overloaded: bool) returns (count: nat, buffered: nat, status: int)
      modifies this
      ensures Contents() == Apply(limits, old(Contents()), Ingest(events, overloaded))
      ensures count == (if overloaded then 0 else Room(limits, |old(queue)|, |events|)) && buffered == |queue|
      ensures queue == old(queue) + events[..count]
      ensures !overloaded && count < |events| ==> Full(limits, |queue|)
      ensures status == if overloaded || count < |events| then HTTP_429_TOO_MANY_REQUESTS else HTTP_202_ACCEPTED
    {
      count, status := 0, HTTP_202_ACCEPTED;
      if overloaded {
        assert events[..0] == [];
        return 0, |queue|, HTTP_429_TOO_MANY_REQUESTS;
      }
      while count < |events|
        invariant 0 <= count <= |events|
        invariant queue == old(queue) + events[..count] && accepted == old(accepted) + events[..count]
        invariant inFlight == old(inFlight) && published == old(published)
        invariant batches == old(batches) && acknowledged == old(acknowledged)
        invariant status == HTTP_202_ACCEPTED
        invariant count > 0 ==> !Full(limits, |queue| - 1)
      {
        var ok := Submit(events[count]);
        if !ok {
          status := HTTP_429_TOO_MANY_REQUESTS;
          break;
        }
        assert events[..count + 1] == events[..count] + [events[count]];
        count := count + 1;
      }
      acknowledged := acknowledged + count;
      buffered := |queue|;
    }

    method TakeBatch() returns (batch: seq<T>)
      requires inFlight == []
      modifies this
      ensures Contents() == Apply(limits, old(Contents()), Take) && batch == inFlight
    {
      batch := [];
      while |batch| < limits.maxBatch
        invariant |batch| <= BatchSize(limits, |old(queue)|)
        invariant batch == old(queue)[..|batch|] && queue == old(queue)[|batch|..]
        invariant published == old(published) && accepted == old(accepted) && inFlight == []
        invariant batches == old(batches) && acknowledged == old(acknowledged)
      {
        if queue == [] {
          break;
        }
        batch := batch + [queue[0]];
        queue := queue[1..];
      }
      inFlight := batch;
    }

    /** The publication ends: it counts, or raises and the batch is gone, some of it perhaps into the stream. */
    method FinishFlush(ok: bool, ghost landed: set<nat>)
      modifies this
      ensures Contents() == Apply(limits, old(Contents()), Settle(ok, landed))
    {
      if inFlight != [] {
        if ok {
          published := published + |inFlight|;
        }
        batches := batches + [Batch(inFlight, if ok then inFlight else Pick(inFlight, landed), ok)];
        inFlight := [];
      }
    }
  }
}
