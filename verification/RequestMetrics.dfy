/** RequestMetrics: an LRU of per-organization buckets, against the trace of its record() calls. */
module RequestMetrics {
  import opened Prelude

  datatype Call = Call(org: Id, status: int, duration: real, upload: bool, at: int)

  datatype Bucket = Bucket(
    startedAt: int, requests: nat, errors: nat, serverErrors: nat, uploadErrors: nat,
    durationSum: real, durationMax: real, histogram: seq<nat>)

  const BOUNDS: seq<real> := [10.0, 50.0, 100.0, 250.0, 500.0, 800.0, 1000.0]

  function Elapsed(call: Call): real { if call.duration > 0.0 then call.duration else 0.0 }

  /** The first bound not below `elapsed`, or the overflow slot. */
  function SlotFrom(elapsed: real, i: nat): (slot: nat)
    requires i <= |BOUNDS|
    ensures i <= slot <= |BOUNDS|
    ensures forall j :: i <= j < slot ==> elapsed > BOUNDS[j]
    ensures slot < |BOUNDS| ==> elapsed <= BOUNDS[slot]
    decreases |BOUNDS| - i
  {
    if i == |BOUNDS| || elapsed <= BOUNDS[i] then i else SlotFrom(elapsed, i + 1)
  }

  function Slot(call: Call): nat { SlotFrom(Elapsed(call), 0) }

  // ---- What a trace says, without any cache -----------------------------------------------------

  predicate Called(trace: seq<Call>, org: Id) { exists i :: 0 <= i < |trace| && trace[i].org == org }

  /** The organizations called since the last call of `org`. */
  function Since(trace: seq<Call>, org: Id): set<Id> {
    if trace == [] || trace[|trace| - 1].org == org then {}
    else Since(trace[..|trace| - 1], org) + {trace[|trace| - 1].org}
  }

  /** Fewer than `capacity` other organizations have been called since. */
  predicate Recent(trace: seq<Call>, org: Id, capacity: nat) { Called(trace, org) && |Since(trace, org)| < capacity }

  /** Every organization called, the least recent first. */
  function ByRecency(trace: seq<Call>): seq<Id> {
    if trace == [] then []
    else Without(ByRecency(trace[..|trace| - 1]), trace[|trace| - 1].org) + [trace[|trace| - 1].org]
  }

  function Without(q: seq<Id>, x: Id): seq<Id> {
    if q == [] then [] else Without(q[..|q| - 1], x) + if q[|q| - 1] == x then [] else [q[|q| - 1]]
  }

  /** The calls of `org` since it last became recent. */
  function Span(trace: seq<Call>, org: Id, capacity: nat): seq<Call> {
    if trace == [] then [] else
      var init, last := trace[..|trace| - 1], trace[|trace| - 1];
      if last.org != org then Span(init, org, capacity)
      else if Recent(init, org, capacity) then Span(init, org, capacity) + [last]
      else [last]
  }

  function Count(calls: seq<Call>, p: Call -> bool): nat {
    if calls == [] then 0 else Count(calls[..|calls| - 1], p) + if p(calls[|calls| - 1]) then 1 else 0
  }

  function DurationSum(calls: seq<Call>): real {
    if calls == [] then 0.0 else DurationSum(calls[..|calls| - 1]) + Elapsed(calls[|calls| - 1])
  }

  function DurationMax(calls: seq<Call>): real {
    if calls == [] then 0.0 else
      var rest := DurationMax(calls[..|calls| - 1]);
      if Elapsed(calls[|calls| - 1]) > rest then Elapsed(calls[|calls| - 1]) else rest
  }

  predicate IsError(call: Call) { call.status >= 400 }

  predicate IsServerError(call: Call) { call.status >= 500 }

  predicate IsUploadError(call: Call) { call.upload && call.status >= 400 }

  /** `bucket` says of `calls` exactly what its fields claim. */
  ghost predicate Summarizes(bucket: Bucket, calls: seq<Call>) {
    && calls != [] && bucket.startedAt == calls[0].at
    && bucket.requests == |calls|
    && bucket.errors == Count(calls, IsError)
    && bucket.serverErrors == Count(calls, IsServerError)
    && bucket.uploadErrors == Count(calls, IsUploadError)
    && bucket.durationSum == DurationSum(calls)
    && bucket.durationMax == DurationMax(calls)
    && |bucket.histogram| == 8
    && forall i :: 0 <= i < 8 ==> bucket.histogram[i] == Count(calls, (call: Call) => Slot(call) == i)
  }

  function Added(histogram: seq<nat>): nat {
    if histogram == [] then 0 else Added(histogram[..|histogram| - 1]) + histogram[|histogram| - 1]
  }

  // ---- Laws of the counters ---------------------------------------------------------------------

  lemma {:induction false} CountLess(calls: seq<Call>, p: Call -> bool, q: Call -> bool)
    requires forall call :: p(call) ==> q(call)
    ensures Count(calls, p) <= Count(calls, q) <= |calls|
  {
    if calls != [] {
      CountLess(calls[..|calls| - 1], p, q);
    }
  }

  /** How many of the calls fall into the first `n` slots. */
  lemma {:induction false} SlotsAdd(calls: seq<Call>, histogram: seq<nat>)
    requires forall i :: 0 <= i < |histogram| ==> histogram[i] == Count(calls, (call: Call) => Slot(call) == i)
    ensures Added(histogram) == Count(calls, (call: Call) => Slot(call) < |histogram|)
  {
    var n := |histogram|;
    if n == 0 {
      CountNone(calls, (call: Call) => Slot(call) < 0);
    } else {
      SlotsAdd(calls, histogram[..n - 1]);
      CountSplit(
        calls, (call: Call) => Slot(call) < n, (call: Call) => Slot(call) < n - 1, (call: Call) => Slot(call) == n - 1);
    }
  }

  lemma {:induction false} CountNone(calls: seq<Call>, p: Call -> bool)
    requires forall call :: !p(call)
    ensures Count(calls, p) == 0
  {
    if calls != [] {
      CountNone(calls[..|calls| - 1], p);
    }
  }

  lemma {:induction false} CountAll(calls: seq<Call>, p: Call -> bool)
    requires forall call :: p(call)
    ensures Count(calls, p) == |calls|
  {
    if calls != [] {
      CountAll(calls[..|calls| - 1], p);
    }
  }

  lemma {:induction false} CountSplit(calls: seq<Call>, whole: Call -> bool, a: Call -> bool, b: Call -> bool)
    requires forall call :: whole(call) <==> a(call) || b(call)
    requires forall call :: !(a(call) && b(call))
    ensures Count(calls, whole) == Count(calls, a) + Count(calls, b)
  {
    if calls != [] {
      CountSplit(calls[..|calls| - 1], whole, a, b);
    }
  }

  /** The histogram adds up to the requests, and the error counters are nested. */
  lemma {:induction false} CountersAgree(bucket: Bucket, calls: seq<Call>)
    requires Summarizes(bucket, calls)
    ensures Added(bucket.histogram) == bucket.requests
    ensures bucket.serverErrors <= bucket.errors <= bucket.requests && bucket.uploadErrors <= bucket.errors
  {
    SlotsAdd(calls, bucket.histogram);
    CountAll(calls, (call: Call) => Slot(call) < |bucket.histogram|);
    CountLess(calls, IsServerError, IsError);
    CountLess(calls, IsUploadError, IsError);
  }

  // ---- Laws of recency --------------------------------------------------------------------------

  lemma {:induction false} WithoutElements(q: seq<Id>, x: Id)
    ensures forall y :: y in Without(q, x) <==> y in q && y != x
  {
    if q != [] {
      var init, last := q[..|q| - 1], q[|q| - 1];
      WithoutElements(init, x);
      assert q == init + [last];
    }
  }

  lemma {:induction false} WithoutDistinct(q: seq<Id>, x: Id)
    requires Distinct(q)
    ensures Distinct(Without(q, x)) && |q| - 1 <= |Without(q, x)| <= |q|
    ensures x !in q ==> |Without(q, x)| == |q|
  {
    if q != [] {
      var init, last := q[..|q| - 1], q[|q| - 1];
      WithoutDistinct(init, x);
      WithoutElements(init, x);
      assert last !in init;
    }
  }

  lemma {:induction false} WithoutConcat(a: seq<Id>, b: seq<Id>, x: Id)
    ensures Without(a + b, x) == Without(a, x) + Without(b, x)
  {
    if b == [] {
      assert a + b == a;
    } else {
      WithoutConcat(a, b[..|b| - 1], x);
      assert (a + b)[..|a + b| - 1] == a + b[..|b| - 1];
    }
  }

  lemma {:induction false} CalledNext(trace: seq<Call>, org: Id)
    requires trace != []
    ensures Called(trace, org) <==> Called(trace[..|trace| - 1], org) || trace[|trace| - 1].org == org
  {
  }

  lemma {:induction false} RecencyDistinct(trace: seq<Call>)
    ensures Distinct(ByRecency(trace))
    ensures forall org :: org in ByRecency(trace) <==> Called(trace, org)
  {
    if trace != [] {
      var init, last := trace[..|trace| - 1], trace[|trace| - 1];
      RecencyDistinct(init);
      WithoutElements(ByRecency(init), last.org);
      WithoutDistinct(ByRecency(init), last.org);
      forall org ensures org in ByRecency(trace) <==> Called(trace, org) {
        CalledNext(trace, org);
      }
    }
  }

  lemma {:induction false} WithoutAround(q: seq<Id>, k: nat, x: Id)
    requires k < |q| && q[k] != x
    ensures Without(q, x) == Without(q[..k], x) + [q[k]] + Without(q[k + 1..], x)
  {
    assert q == q[..k] + [q[k]] + q[k + 1..];
    WithoutConcat(q[..k] + [q[k]], q[k + 1..], x);
    WithoutConcat(q[..k], [q[k]], x);
    assert [q[k]][..0] == [];
  }

  lemma {:induction false} OnePlace(a: seq<Id>, x: Id, b: seq<Id>, i: nat)
    requires Distinct(a + [x] + b) && i < |a + [x] + b| && (a + [x] + b)[i] == x
    ensures (a + [x] + b)[i + 1..] == b
  {
    assert (a + [x] + b)[|a|] == x;
  }

  /** The organizations after `org` in recency order are the ones called since. */
  lemma {:induction false} AfterIsSince(trace: seq<Call>, i: nat)
    requires i < |ByRecency(trace)|
    ensures Elements(ByRecency(trace)[i + 1..]) == Since(trace, ByRecency(trace)[i])
  {
    var init, last := trace[..|trace| - 1], trace[|trace| - 1];
    var q, before := ByRecency(trace), ByRecency(init);
    RecencyDistinct(trace);
    if q[i] == last.org {
      OnePlace(Without(before, last.org), last.org, [], i);
      assert Without(before, last.org) + [last.org] + [] == q;
    } else {
      WithoutElements(before, last.org);
      assert q[i] in Without(before, last.org);
      var k :| 0 <= k < |before| && before[k] == q[i];
      AfterIsSince(init, k);
      WithoutAround(before, k, last.org);
      var a, b := Without(before[..k], last.org), Without(before[k + 1..], last.org);
      assert q == a + [q[i]] + (b + [last.org]);
      OnePlace(a, q[i], b + [last.org], i);
      WithoutElements(before[k + 1..], last.org);
      assert Elements(b + [last.org]) == Elements(before[k + 1..]) + {last.org};
    }
  }

  lemma {:induction false} DistinctSize(q: seq<Id>)
    requires Distinct(q)
    ensures |Elements(q)| == |q|
  {
    if q != [] {
      DistinctSize(q[..|q| - 1]);
      assert Elements(q) == Elements(q[..|q| - 1]) + {q[|q| - 1]};
    }
  }

  function Newest(q: seq<Id>, capacity: nat): seq<Id> { if |q| <= capacity then q else q[|q| - capacity..] }

  /** Being among the last `capacity` distinct organizations is being recent. */
  lemma {:induction false} NewestIsRecent(trace: seq<Call>, org: Id, capacity: nat)
    ensures org in Newest(ByRecency(trace), capacity) <==> Recent(trace, org, capacity)
  {
    var q := ByRecency(trace);
    RecencyDistinct(trace);
    if org in q {
      var i :| 0 <= i < |q| && q[i] == org;
      AfterIsSince(trace, i);
      assert Distinct(q[i + 1..]);
      DistinctSize(q[i + 1..]);
      assert |Since(trace, org)| == |q| - 1 - i;
      if |q| > capacity && i >= |q| - capacity {
        assert q[|q| - capacity..][i - (|q| - capacity)] == org;
      }
    }
  }

  lemma {:induction false} NewestSuffix(a: seq<Id>, b: seq<Id>, capacity: nat)
    requires |b| >= capacity
    ensures Newest(a + b, capacity) == Newest(b, capacity)
  {
  }

  /** One record() on the list of held organizations. */
  lemma {:induction false} NewestMoves(q: seq<Id>, x: Id, capacity: nat)
    requires Distinct(q) && capacity >= 1
    ensures Newest(Without(Newest(q, capacity), x) + [x], capacity) == Newest(Without(q, x) + [x], capacity)
  {
    if |q| > capacity {
      var a, b := q[..|q| - capacity], q[|q| - capacity..];
      assert q == a + b;
      WithoutConcat(a, b, x);
      WithoutDistinct(b, x);
      NewestSuffix(Without(a, x), Without(b, x) + [x], capacity);
      assert Without(q, x) + [x] == Without(a, x) + (Without(b, x) + [x]);
    }
  }

  // ---- The class --------------------------------------------------------------------------------

  function Empty(at: int): Bucket { Bucket(at, 0, 0, 0, 0, 0.0, 0.0, seq(8, _ => 0)) }

  function Counted(bucket: Bucket, call: Call): Bucket
    requires |bucket.histogram| == 8
  {
    Bucket(
      bucket.startedAt, bucket.requests + 1,
      bucket.errors + if call.status >= 400 then 1 else 0,
      bucket.serverErrors + if call.status >= 500 then 1 else 0,
      bucket.uploadErrors + if call.upload && call.status >= 400 then 1 else 0,
      bucket.durationSum + Elapsed(call),
      if Elapsed(call) > bucket.durationMax then Elapsed(call) else bucket.durationMax,
      bucket.histogram[Slot(call) := bucket.histogram[Slot(call)] + 1])
  }

  lemma {:induction false} CountsNext(bucket: Bucket, calls: seq<Call>, call: Call)
    requires if calls == [] then bucket == Empty(call.at) else Summarizes(bucket, calls)
    ensures |bucket.histogram| == 8 && Summarizes(Counted(bucket, call), calls + [call])
  {
  }

  ghost predicate BucketsMatch(buckets: map<Id, Bucket>, trace: seq<Call>, capacity: nat) {
    forall org :: org in buckets ==> Summarizes(buckets[org], Span(trace, org, capacity))
  }

  class RequestMetrics {
    const capacity: nat
    /** The ordered dictionary: its keys in order, and its values. */
    var order: seq<Id>
    var buckets: map<Id, Bucket>
    ghost var trace: seq<Call>

    ghost predicate Valid()
      reads this
    {
      && capacity >= 1
      && order == Newest(ByRecency(trace), capacity)
      && buckets.Keys == Elements(order)
      && BucketsMatch(buckets, trace, capacity)
    }

    constructor (capacity: nat)
      requires capacity >= 1
      ensures Valid() && trace == [] && this.capacity == capacity
    {
      this.capacity := capacity;
      order, buckets, trace := [], map[], [];
    }

    /** A capacity below 1 is refused. */
    static method Open(capacity: int) returns (metrics: Option<RequestMetrics>)
      ensures metrics.None? <==> capacity < 1
      ensures metrics.Some? ==>
        fresh(metrics.value) && metrics.value.Valid() && metrics.value.trace == [] && metrics.value.capacity == capacity
    {
      if capacity < 1 {
        return None;
      }
      var made := new RequestMetrics(capacity);
      return Some(made);
    }

    /** setdefault and move_to_end. */
    method Touch(org: Id, at: int)
      modifies this`order, this`buckets
      ensures order == Without(old(order), org) + [org]
      ensures buckets == if org in old(buckets) then old(buckets) else old(buckets)[org := Empty(at)]
    {
      if org !in buckets {
        buckets := buckets[org := Empty(at)];
      }
      order := Without(order, org) + [org];
    }

    /** Evict the least recent organization until the capacity is kept. */
    method Evict()
      requires Distinct(order) && buckets.Keys == Elements(order)
      modifies this`order, this`buckets
      ensures order == Newest(old(order), capacity) && buckets == Restrict(old(buckets), Elements(order))
    {
      var i := 0;
      while |order| > capacity
        invariant 0 <= i <= |old(order)| && order == old(order)[i..] && Distinct(order)
        invariant i > 0 ==> |order| >= capacity
        invariant buckets == Restrict(old(buckets), Elements(order))
      {
        EvictNext(old(buckets), order);
        buckets := buckets - {order[0]};
        order := order[1..];
        i := i + 1;
      }
    }

    /** The ordered-dictionary part of record(): everything but the counters. */
    method Place(call: Call)
      requires Valid()
      modifies this`order, this`buckets
      ensures order == Newest(ByRecency(trace + [call]), capacity)
      ensures order != [] && order[|order| - 1] == call.org
      ensures Placed(old(buckets), call, order, buckets)
    {
      ghost var held := order;
      Touch(call.org, call.at);
      Transition(trace, call, capacity, held, order);
      ghost var touched, moved := buckets, order;
      Evict();
      NewestEnds(moved, call.org, capacity, order);
      KeptBuckets(old(buckets), touched, call, order, buckets);
    }

    /** The counters of the called organization's bucket. */
    method Tally(call: Call, ghost before: map<Id, Bucket>)
      requires BucketsMatch(before, trace, capacity) && (call.org in before <==> Recent(trace, call.org, capacity))
      requires Placed(before, call, order, buckets)
      modifies this`buckets, this`trace
      ensures trace == old(trace) + [call] && buckets.Keys == old(buckets).Keys
      ensures BucketsMatch(buckets, trace, capacity)
    {
      BucketKept(before, trace, call, capacity, buckets);
      buckets := buckets[call.org := Counted(buckets[call.org], call)];
      trace := trace + [call];
    }

    /** record(). */
    method Record(call: Call)
      requires Valid()
      modifies this
      ensures Valid() && trace == old(trace) + [call]
      ensures call.org in buckets && order != [] && order[|order| - 1] == call.org
    {
      ghost var before := buckets;
      NewestIsRecent(trace, call.org, capacity);
      Place(call);
      Tally(call, before);
    }

    method Snapshot(org: Id) returns (bucket: Option<Bucket>)
      requires Valid()
      ensures bucket.Some? <==> Recent(trace, org, capacity)
      ensures bucket.Some? ==> Summarizes(bucket.value, Span(trace, org, capacity))
      ensures bucket.Some? ==> Added(bucket.value.histogram) == bucket.value.requests
    {
      NewestIsRecent(trace, org, capacity);
      if org in buckets {
        CountersAgree(buckets[org], Span(trace, org, capacity));
        return Some(buckets[org]);
      }
      return None;
    }
  }

  lemma {:induction false} EvictNext(buckets: map<Id, Bucket>, q: seq<Id>)
    requires Distinct(q) && q != []
    ensures Restrict(buckets, Elements(q)) - {q[0]} == Restrict(buckets, Elements(q[1..])) && Distinct(q[1..])
  {
  }

  /** The called organization, moved to the end, is never the evicted one. */
  lemma {:induction false} NewestEnds(q: seq<Id>, x: Id, capacity: nat, newest: seq<Id>)
    requires capacity >= 1 && q != [] && q[|q| - 1] == x && newest == Newest(q, capacity)
    ensures newest != [] && newest[|newest| - 1] == x && x in newest
    ensures Elements(newest) <= Elements(q)
  {
  }

  lemma {:induction false} NewestDistinct(q: seq<Id>, capacity: nat)
    requires Distinct(q)
    ensures Distinct(Newest(q, capacity))
  {
  }

  /** The held organizations after setdefault and move_to_end. */
  lemma {:induction false} Touched(held: seq<Id>, x: Id)
    requires Distinct(held)
    ensures Distinct(Without(held, x) + [x]) && Elements(Without(held, x) + [x]) == Elements(held) + {x}
  {
    WithoutDistinct(held, x);
    WithoutElements(held, x);
  }

  /** Moving the called organization to the end and evicting is what the longer trace says. */
  lemma {:induction false} Transition(trace: seq<Call>, call: Call, capacity: nat, held: seq<Id>, touched: seq<Id>)
    requires capacity >= 1 && held == Newest(ByRecency(trace), capacity)
      && touched == Without(held, call.org) + [call.org]
    ensures Newest(touched, capacity) == Newest(ByRecency(trace + [call]), capacity)
    ensures Distinct(touched) && Elements(touched) == Elements(held) + {call.org}
  {
    RecencyDistinct(trace);
    assert (trace + [call])[..|trace + [call]| - 1] == trace;
    NewestMoves(ByRecency(trace), call.org, capacity);
    NewestDistinct(ByRecency(trace), capacity);
    Touched(held, call.org);
  }

  /** Every held organization kept its bucket, and a new one starts empty. */
  ghost predicate Placed(before: map<Id, Bucket>, call: Call, order: seq<Id>, after: map<Id, Bucket>) {
    && after.Keys == Elements(order) && call.org in after
    && after[call.org] == (if call.org in before then before[call.org] else Empty(call.at))
    && forall org :: org in after && org != call.org ==> org in before && after[org] == before[org]
  }

  lemma {:induction false} KeptBuckets(before: map<Id, Bucket>, touched: map<Id, Bucket>,
    call: Call, order: seq<Id>, after: map<Id, Bucket>)
    requires touched == if call.org in before then before else before[call.org := Empty(call.at)]
    requires Elements(order) <= touched.Keys && call.org in order && after == Restrict(touched, Elements(order))
    ensures Placed(before, call, order, after)
  {
  }

  lemma {:induction false} SpanNext(trace: seq<Call>, call: Call, org: Id, capacity: nat)
    ensures Span(trace + [call], org, capacity) ==
      if call.org != org then Span(trace, org, capacity)
      else (if Recent(trace, org, capacity) then Span(trace, org, capacity) else []) + [call]
  {
  }

  /** After the eviction the called organization's bucket is counted up, the others are as they were. */
  lemma {:induction false} BucketKept(before: map<Id, Bucket>, trace: seq<Call>, call: Call, capacity: nat,
      kept: map<Id, Bucket>)
    requires BucketsMatch(before, trace, capacity) && (call.org in before <==> Recent(trace, call.org, capacity))
    requires call.org in kept && kept[call.org] == (if call.org in before then before[call.org] else Empty(call.at))
    requires forall org :: org in kept && org != call.org ==> org in before && kept[org] == before[org]
    ensures |kept[call.org].histogram| == 8
    ensures BucketsMatch(kept[call.org := Counted(kept[call.org], call)], trace + [call], capacity)
  {
    CountsNext(kept[call.org], if call.org in before then Span(trace, call.org, capacity) else [], call);
    var after := kept[call.org := Counted(kept[call.org], call)];
    forall org | org in after ensures Summarizes(after[org], Span(trace + [call], org, capacity)) {
      SpanNext(trace, call, org, capacity);
    }
  }

  // ---- What one more call adds ------------------------------------------------------------------

  /** The latency slot of a call: at most 10, 50, 100, 250, 500, 800 or 1000 milliseconds, or more. */
  lemma {:induction false} SlotMeans(call: Call)
    ensures Slot(call) == 0 <==> call.duration <= 10.0
    ensures Slot(call) == 1 <==> 10.0 < call.duration <= 50.0
    ensures Slot(call) == 2 <==> 50.0 < call.duration <= 100.0
    ensures Slot(call) == 3 <==> 100.0 < call.duration <= 250.0
    ensures Slot(call) == 4 <==> 250.0 < call.duration <= 500.0
    ensures Slot(call) == 5 <==> 500.0 < call.duration <= 800.0
    ensures Slot(call) == 6 <==> 800.0 < call.duration <= 1000.0
    ensures Slot(call) == 7 <==> call.duration > 1000.0
  {
    assert BOUNDS[0] == 10.0 && BOUNDS[1] == 50.0 && BOUNDS[2] == 100.0 && BOUNDS[3] == 250.0;
    assert BOUNDS[4] == 500.0 && BOUNDS[5] == 800.0 && BOUNDS[6] == 1000.0;
  }

  function Bit(b: bool): nat { if b then 1 else 0 }

  /** A bucket after one more call: a status of 400 or more is an error, of 500 or more a server error, a
      failed upload an upload error; a negative duration counts as none. */
  lemma {:induction false} OneMoreCall(before: Bucket, after: Bucket, calls: seq<Call>, call: Call)
    requires Summarizes(before, calls) && Summarizes(after, calls + [call])
    ensures after.startedAt == before.startedAt && after.requests == before.requests + 1
    ensures after.errors == before.errors + Bit(call.status >= 400)
    ensures after.serverErrors == before.serverErrors + Bit(call.status >= 500)
    ensures after.uploadErrors == before.uploadErrors + Bit(call.upload && call.status >= 400)
    ensures call.duration > 0.0 ==> after.durationSum == before.durationSum + call.duration
    ensures call.duration <= 0.0 ==> after.durationSum == before.durationSum
    ensures after.durationMax == if call.duration > before.durationMax then call.duration else before.durationMax
    ensures forall i :: 0 <= i < 8 ==> after.histogram[i] == before.histogram[i] + Bit(Slot(call) == i)
  {
    var all := calls + [call];
    assert all[..|all| - 1] == calls;
    MaxNotNegative(calls);
    forall i | 0 <= i < 8 ensures after.histogram[i] == before.histogram[i] + Bit(Slot(call) == i) {
      CountLast(calls, call, (call: Call) => Slot(call) == i);
    }
    CountLast(calls, call, IsError);
    CountLast(calls, call, IsServerError);
    CountLast(calls, call, IsUploadError);
  }

  lemma {:induction false} CountLast(calls: seq<Call>, call: Call, p: Call -> bool)
    ensures Count(calls + [call], p) == Count(calls, p) + Bit(p(call))
  {
    assert (calls + [call])[..|calls + [call]| - 1] == calls;
  }

  lemma {:induction false} MaxNotNegative(calls: seq<Call>)
    ensures DurationMax(calls) >= 0.0
  {
    if calls != [] {
      MaxNotNegative(calls[..|calls| - 1]);
    }
  }

  /** A bucket's first call. */
  lemma {:induction false} FirstCall(bucket: Bucket, call: Call)
    requires Summarizes(bucket, [call])
    ensures bucket.startedAt == call.at && bucket.requests == 1
    ensures bucket.errors == Bit(call.status >= 400) && bucket.serverErrors == Bit(call.status >= 500)
    ensures bucket.uploadErrors == Bit(call.upload && call.status >= 400)
    ensures bucket.durationSum == if call.duration > 0.0 then call.duration else 0.0
    ensures bucket.durationMax == bucket.durationSum
  {
    assert [call][..|[call]| - 1] == [] && [] + [call] == [call];
    assert DurationSum([call]) == DurationSum([]) + Elapsed(call);
    assert DurationMax([call]) == if Elapsed(call) > DurationMax([]) then Elapsed(call) else DurationMax([]);
    CountLast([], call, IsError);
    CountLast([], call, IsServerError);
    CountLast([], call, IsUploadError);
  }
}
