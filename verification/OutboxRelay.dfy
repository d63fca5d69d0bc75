/** The relay's and the consumer's methods, as runs of the outbox step relation. */
module OutboxRelay {
  import opened Prelude
  import opened Outbox
  import opened OutboxTiming

  /** What the broker client does with one message. */
  datatype Reply = Accepted | Raised(reached: bool, jitter: real)

  function ClaimSteps(q: seq<Id>, worker: Id): (steps: seq<Step>)
    ensures |steps| == |q| && forall i :: 0 <= i < |q| ==> steps[i] == Claim(q[i], worker)
  {
    seq(|q|, i requires 0 <= i < |q| => Claim(q[i], worker))
  }

  function SendSteps(e: Id, worker: Id, reply: Reply): seq<Step> {
    match reply
    case Accepted => [Publish(e, worker), MarkPublished(e, worker)]
    case Raised(reached, jitter) => [PublishFails(e, worker, reached), MarkFailed(e, worker, jitter)]
  }

  function AllSendSteps(q: seq<Id>, worker: Id, replies: Id -> Reply): seq<Step> {
    if q == [] then [] else
      AllSendSteps(q[..|q| - 1], worker, replies) + SendSteps(q[|q| - 1], worker, replies(q[|q| - 1]))
  }

  /** recover_unconsumed locks all rows it selects, then requeues them. */
  function RequeueSteps(q: seq<Id>): seq<Step> {
    if q == [] then [] else RequeueSteps(q[..|q| - 1]) + [SelectUnconsumed(q[|q| - 1]), Requeue(q[|q| - 1])]
  }

  function ClaimableIds(s: System): set<Id> {
    set e | e in s.events && e !in s.recovering && Claimable(s.events[e], s.now)
  }

  function UnconsumedIds(s: System): set<Id> {
    set e | e in s.events && e !in s.recovering && Overdue(s.events[e], s.now) && e !in s.receipts
  }

  /** ORDER BY ... LIMIT; ids stand for the creation or publication order. */
  function First(ids: set<Id>, limit: nat): seq<Id> {
    var q := Sorted(ids);
    if |q| < limit then q else q[..limit]
  }

  lemma {:induction false} FirstOf(ids: set<Id>, limit: nat)
    ensures Increasing(First(ids, limit)) && |First(ids, limit)| <= limit
    ensures forall e :: e in First(ids, limit) ==> e in ids
    ensures |First(ids, limit)| < limit ==> forall e :: e in ids ==> e in First(ids, limit)
  {
  }

  predicate CanSend(s: System, e: Id, worker: Id) {
    e in s.events && e !in s.recovering && Holds(s, e, worker, Claimed)
  }

  /** What a batch has claimed so far; the rest can still be claimed. */
  ghost predicate ClaimedSoFar(max: nat, start: System, s: System, q: seq<Id>, i: nat, worker: Id)
    requires i <= |q|
  {
    && s == Run(max, start, ClaimSteps(q[..i], worker))
    && (forall j :: 0 <= j < i ==> CanSend(s, q[j], worker))
    && (forall j :: i <= j < |q| ==> CanClaim(s, q[j]))
  }

  lemma {:induction false} ClaimIs(max: nat, s: System, e: Id, worker: Id)
    requires CanClaim(s, e)
    ensures Next(max, s, Claim(e, worker)) == DoClaim(s, e, worker)
  {
  }

  lemma {:induction false} ClaimFirst(max: nat, s: System, q: seq<Id>, worker: Id)
    requires forall e :: e in q ==> e in ClaimableIds(s)
    ensures ClaimedSoFar(max, s, s, q, 0, worker)
  {
    assert ClaimSteps(q[..0], worker) == [];
    forall j | 0 <= j < |q| ensures CanClaim(s, q[j]) {
      assert q[j] in q;
    }
  }

  lemma {:induction false} ClaimRuns(max: nat, start: System, s: System, q: seq<Id>, i: nat, worker: Id)
    requires i < |q| && s == Run(max, start, ClaimSteps(q[..i], worker)) && CanClaim(s, q[i])
    ensures DoClaim(s, q[i], worker) == Run(max, start, ClaimSteps(q[..i + 1], worker))
  {
    ClaimIs(max, s, q[i], worker);
    assert ClaimSteps(q[..i + 1], worker) == ClaimSteps(q[..i], worker) + [Claim(q[i], worker)];
    RunLast(max, start, ClaimSteps(q[..i], worker), Claim(q[i], worker));
  }

  lemma {:induction false} ClaimLeaves(s: System, e: Id, worker: Id, x: Id)
    requires CanClaim(s, e)
    ensures x != e && CanClaim(s, x) ==> CanClaim(DoClaim(s, e, worker), x)
    ensures x == e || CanSend(s, x, worker) ==> CanSend(DoClaim(s, e, worker), x, worker)
  {
  }

  lemma {:induction false} ClaimNext(max: nat, start: System, s: System, q: seq<Id>, i: nat, worker: Id)
    requires Increasing(q) && i < |q| && ClaimedSoFar(max, start, s, q, i, worker)
    ensures ClaimedSoFar(max, start, DoClaim(s, q[i], worker), q, i + 1, worker)
  {
    var s' := DoClaim(s, q[i], worker);
    ClaimRuns(max, start, s, q, i, worker);
    forall j | 0 <= j < |q| ensures if j <= i then CanSend(s', q[j], worker) else CanClaim(s', q[j]) {
      ClaimLeaves(s, q[i], worker, q[j]);
    }
  }

  function Count(q: seq<Id>, replies: Id -> Reply): nat {
    if q == [] then 0 else Count(q[..|q| - 1], replies) + if replies(q[|q| - 1]).Accepted? then 1 else 0
  }

  lemma {:induction false} RunTwo(max: nat, s: System, first: Step, second: Step)
    ensures Run(max, s, [first, second]) == Next(max, Next(max, s, first), second)
  {
    RunLast(max, s, [], first);
    RunLast(max, s, [first], second);
    assert [] + [first] == [first] && [first] + [second] == [first, second];
  }

  lemma {:induction false} RunSplit(max: nat, s: System, a: seq<Step>, b: seq<Step>)
    ensures Run(max, s, a + b) == Run(max, Run(max, s, a), b)
  {
    if b == [] {
      assert a + b == a;
    } else {
      RunSplit(max, s, a, b[..|b| - 1]);
      assert (a + b)[..|a + b| - 1] == a + b[..|b| - 1];
    }
  }

  /** One message of run_once, as one function. */
  function Sending(max: nat, s: System, e: Id, worker: Id, reply: Reply): System
    requires CanSend(s, e, worker)
  {
    match reply
    case Accepted => DoMarkPublished(DoPublish(s, e, worker), e, worker)
    case Raised(reached, jitter) => DoMarkFailed(max, DoPublishFails(s, e, worker, reached), e, worker, jitter)
  }

  lemma {:induction false} PublishIs(max: nat, s: System, e: Id, worker: Id)
    requires CanSend(s, e, worker)
    ensures Next(max, s, Step.Publish(e, worker)) == DoPublish(s, e, worker)
  {
  }

  lemma {:induction false} PublishFailsIs(max: nat, s: System, e: Id, worker: Id, reached: bool)
    requires CanSend(s, e, worker)
    ensures Next(max, s, Step.PublishFails(e, worker, reached)) == DoPublishFails(s, e, worker, reached)
  {
  }

  lemma {:induction false} MarkPublishedIs(max: nat, s: System, e: Id, worker: Id)
    requires e in s.events && e !in s.recovering && Holds(s, e, worker, Sent)
    ensures Next(max, s, Step.MarkPublished(e, worker)) == DoMarkPublished(s, e, worker)
  {
  }

  lemma {:induction false} MarkFailedIs(max: nat, s: System, e: Id, worker: Id, jitter: real)
    requires e in s.events && e !in s.recovering && Holds(s, e, worker, Refused) && 0.0 <= jitter <= 0.2
    ensures Next(max, s, Step.MarkFailed(e, worker, jitter)) == DoMarkFailed(max, s, e, worker, jitter)
  {
  }

  lemma {:induction false} AcceptedSends(max: nat, s: System, e: Id, worker: Id)
    requires CanSend(s, e, worker)
    ensures Run(max, s, SendSteps(e, worker, Accepted)) == Sending(max, s, e, worker, Accepted)
  {
    RunTwo(max, s, Step.Publish(e, worker), Step.MarkPublished(e, worker));
    PublishIs(max, s, e, worker);
    MarkPublishedIs(max, DoPublish(s, e, worker), e, worker);
  }

  lemma {:induction false} RaisedSends(max: nat, s: System, e: Id, worker: Id, reached: bool, jitter: real)
    requires CanSend(s, e, worker) && 0.0 <= jitter <= 0.2
    ensures Run(max, s, SendSteps(e, worker, Raised(reached, jitter)))
      == Sending(max, s, e, worker, Raised(reached, jitter))
  {
    RunTwo(max, s, Step.PublishFails(e, worker, reached), Step.MarkFailed(e, worker, jitter));
    PublishFailsIs(max, s, e, worker, reached);
    MarkFailedIs(max, DoPublishFails(s, e, worker, reached), e, worker, jitter);
  }

  ghost predicate SmallJitter(replies: Id -> Reply) {
    forall e: Id {:trigger replies(e)} :: replies(e).Raised? ==> 0.0 <= replies(e).jitter <= 0.2
  }

  lemma {:induction false} Sends(max: nat, s: System, e: Id, worker: Id, reply: Reply)
    requires CanSend(s, e, worker) && (reply.Raised? ==> 0.0 <= reply.jitter <= 0.2)
    ensures Run(max, s, SendSteps(e, worker, reply)) == Sending(max, s, e, worker, reply)
  {
    match reply
    case Accepted => AcceptedSends(max, s, e, worker);
    case Raised(reached, jitter) => RaisedSends(max, s, e, worker, reached, jitter);
  }

  /** Sending one message leaves the others in hand. */
  lemma {:induction false} OthersInHand(max: nat, s: System, e: Id, worker: Id, reply: Reply, x: Id)
    requires CanSend(s, e, worker) && x != e && CanSend(s, x, worker)
    ensures CanSend(Sending(max, s, e, worker, reply), x, worker)
  {
  }

  /** What run_once has done with the messages before the i-th. */
  ghost predicate SentSoFar(max: nat, start: System, s: System, q: seq<Id>, i: nat, worker: Id, replies: Id -> Reply)
    requires i <= |q|
  {
    && s == Run(max, start, AllSendSteps(q[..i], worker, replies))
    && forall j :: i <= j < |q| ==> CanSend(s, q[j], worker)
  }

  lemma SentFirst(max: nat, s: System, q: seq<Id>, worker: Id, replies: Id -> Reply)
    requires forall j :: 0 <= j < |q| ==> CanSend(s, q[j], worker)
    ensures SentSoFar(max, s, s, q, 0, worker, replies)
  {
  }

  lemma {:induction false} SentNext(max: nat, start: System, s: System, q: seq<Id>, i: nat, worker: Id,
      replies: Id -> Reply)
    requires Increasing(q) && i < |q| && SentSoFar(max, start, s, q, i, worker, replies)
    requires SmallJitter(replies)
    ensures CanSend(s, q[i], worker)
    ensures SentSoFar(max, start, Sending(max, s, q[i], worker, replies(q[i])), q, i + 1, worker, replies)
    ensures Count(q[..i + 1], replies) == Count(q[..i], replies) + if replies(q[i]).Accepted? then 1 else 0
  {
    NextPrefix(q, i);
    SendNext(q[..i], q[i], worker, replies);
    RunSplit(max, start, AllSendSteps(q[..i], worker, replies), SendSteps(q[i], worker, replies(q[i])));
    Sends(max, s, q[i], worker, replies(q[i]));
    forall j | i + 1 <= j < |q| ensures CanSend(Sending(max, s, q[i], worker, replies(q[i])), q[j], worker) {
      OthersInHand(max, s, q[i], worker, replies(q[i]), q[j]);
    }
  }

  lemma {:induction false} SendNext(q: seq<Id>, e: Id, worker: Id, replies: Id -> Reply)
    ensures AllSendSteps(q + [e], worker, replies)
      == AllSendSteps(q, worker, replies) + SendSteps(e, worker, replies(e))
    ensures Count(q + [e], replies) == Count(q, replies) + if replies(e).Accepted? then 1 else 0
  {
  }

  function StaleIds(s: System): set<Id> {
    set e | e in s.events && e !in s.recovering && Stale(s.events[e], s.now)
  }

  function StaleSteps(q: seq<Id>): seq<Step> {
    if q == [] then [] else StaleSteps(q[..|q| - 1]) + [Step.RecoverStale(q[|q| - 1])]
  }

  function AllRecovered(s: System, ids: set<Id>): System {
    s.(events := map e | e in s.events :: if e in ids then StaleRecovered(s.events[e], s.now) else s.events[e])
  }

  /** One UPDATE of all stale rows is the run of their single recoveries, in any order. */
  lemma {:induction false} StaleRun(max: nat, s: System, q: seq<Id>)
    requires Increasing(q) && Elements(q) <= StaleIds(s)
    ensures Run(max, s, StaleSteps(q)) == AllRecovered(s, Elements(q))
  {
    if q != [] {
      var n := |q| - 1;
      NextId(q, n);
      assert q[..n + 1] == q && q[n] in Elements(q);
      StaleRun(max, s, q[..n]);
      RunLast(max, s, StaleSteps(q[..n]), Step.RecoverStale(q[n]));
      StaleNext(s, Elements(q[..n]), q[n], max);
    } else {
      assert AllRecovered(s, {}) == s;
    }
  }

  lemma {:induction false} StaleNext(s: System, done: set<Id>, e: Id, max: nat)
    requires e in StaleIds(s) && e !in done
    ensures Next(max, AllRecovered(s, done), Step.RecoverStale(e)) == AllRecovered(s, done + {e})
  {
  }

  /** What recover_unconsumed has requeued before the i-th row. */
  ghost predicate RequeuedSoFar(max: nat, start: System, s: System, q: seq<Id>, i: nat)
    requires i <= |q|
  {
    && s == Run(max, start, RequeueSteps(q[..i]))
    && forall j :: i <= j < |q| ==> q[j] in UnconsumedIds(s)
  }

  lemma {:induction false} RequeueRuns(max: nat, s: System, e: Id)
    requires e in UnconsumedIds(s)
    ensures Run(max, s, [Step.SelectUnconsumed(e), Step.Requeue(e)]) == DoRequeue(max, s, e)
  {
    RunTwo(max, s, Step.SelectUnconsumed(e), Step.Requeue(e));
    assert s.recovering + {e} - {e} == s.recovering;
    assert s.recovering - {e} == s.recovering;
  }

  lemma {:induction false} RequeueLeaves(max: nat, s: System, e: Id, x: Id)
    requires e in UnconsumedIds(s) && x in UnconsumedIds(s) && x != e
    ensures x in UnconsumedIds(DoRequeue(max, s, e))
  {
  }

  lemma {:induction false} RequeueNext(max: nat, start: System, s: System, q: seq<Id>, i: nat)
    requires Increasing(q) && i < |q| && RequeuedSoFar(max, start, s, q, i)
    ensures q[i] in UnconsumedIds(s)
    ensures RequeuedSoFar(max, start, DoRequeue(max, s, q[i]), q, i + 1)
  {
    NextPrefix(q, i);
    assert (q[..i] + [q[i]])[..i] == q[..i];
    RunSplit(max, start, RequeueSteps(q[..i]), [Step.SelectUnconsumed(q[i]), Step.Requeue(q[i])]);
    RequeueRuns(max, s, q[i]);
    forall j | i + 1 <= j < |q| ensures q[j] in UnconsumedIds(DoRequeue(max, s, q[i])) {
      RequeueLeaves(max, s, q[i], q[j]);
    }
  }

  lemma {:induction false} RequeueFirst(max: nat, s: System, limit: nat)
    ensures RequeuedSoFar(max, s, s, First(UnconsumedIds(s), limit), 0)
  {
  }

  class OutboxDatabase {
    var now: real
    var events: map<Id, Event>
    var hands: multiset<Hand>
    var recovering: set<Id>
    var broker: multiset<Id>
    var consuming: map<Id, Consumption>
    var receipts: set<Id>
    var effects: multiset<Id>

    constructor (now: real)
      ensures State() == Start(now)
    {
      this.now, events, hands, recovering := now, map[], multiset{}, {};
      broker, consuming, receipts, effects := multiset{}, map[], {}, multiset{};
    }

    function State(): System
      reads this
    {
      System(now, events, hands, recovering, broker, consuming, receipts, effects)
    }
  }

  class Relay {
    const database: OutboxDatabase
    const worker: Id
    const max: nat

    constructor (database: OutboxDatabase, worker: Id, max: nat)
      ensures this.database == database && this.worker == worker && this.max == max
    {
      this.database, this.worker, this.max := database, worker, max;
    }

    method ClaimOne(e: Id)
      requires e in database.events
      modifies database`events, database`hands
      ensures database.State() == DoClaim(old(database.State()), e, worker)
    {
      var event := database.events[e];
      event := event.(status := Processing, lockedAt := Some(database.now), lockedBy := Some(worker));
      event := event.(attempts := event.attempts + 1, claims := event.claims + 1);
      database.events := database.events[e := event];
      database.hands := database.hands + multiset{Hand(e, worker, Claimed)};
    }

    method ClaimAll(messages: seq<Id>)
      requires Increasing(messages) && ClaimedSoFar(max, database.State(), database.State(), messages, 0, worker)
      modifies database`events, database`hands
      ensures ClaimedSoFar(max, old(database.State()), database.State(), messages, |messages|, worker)
    {
      ghost var start := database.State();
      var i := 0;
      while i < |messages|
        invariant 0 <= i <= |messages| && ClaimedSoFar(max, start, database.State(), messages, i, worker)
      {
        ClaimNext(max, start, database.State(), messages, i, worker);
        ClaimOne(messages[i]);
        i := i + 1;
      }
    }

    /** claim_batch: the first claimable rows, each locked, counted and handed to this worker. */
    method ClaimBatch(limit: nat) returns (messages: seq<Id>)
      modifies database`events, database`hands
      ensures messages == First(ClaimableIds(old(database.State())), limit)
      ensures forall j :: 0 <= j < |messages| ==> CanSend(database.State(), messages[j], worker)
      ensures database.State() == Run(max, old(database.State()), ClaimSteps(messages, worker))
    {
      messages := First(ClaimableIds(database.State()), limit);
      FirstOf(ClaimableIds(database.State()), limit);
      ClaimFirst(max, database.State(), messages, worker);
      ClaimAll(messages);
      assert messages[..|messages|] == messages;
    }

    method PublishAccepted(e: Id)
      requires CanSend(database.State(), e, worker)
      modifies database`events, database`hands, database`broker
      ensures database.State() == DoPublish(old(database.State()), e, worker)
    {
      database.events := database.events[e := database.events[e].(sent := true)];
      database.hands := database.hands - multiset{Hand(e, worker, Claimed)} + multiset{Hand(e, worker, Sent)};
      database.broker := database.broker + multiset{e};
    }

    method PublishRaised(e: Id, reached: bool)
      requires CanSend(database.State(), e, worker)
      modifies database`hands, database`broker
      ensures database.State() == DoPublishFails(old(database.State()), e, worker, reached)
    {
      database.hands := database.hands - multiset{Hand(e, worker, Claimed)} + multiset{Hand(e, worker, Refused)};
      if reached {
        database.broker := database.broker + multiset{e};
      }
    }

    /** One message of run_once: publish, then mark according to the outcome. */
    method Send(e: Id, reply: Reply)
      requires CanSend(database.State(), e, worker)
      modifies database`events, database`hands, database`broker
      ensures database.State() == Sending(max, old(database.State()), e, worker, reply)
    {
      match reply {
        case Accepted =>
          PublishAccepted(e);
          MarkPublished(e);
        case Raised(reached, jitter) =>
          PublishRaised(e, reached);
          MarkFailed(e, jitter);
      }
    }

    method SendAll(messages: seq<Id>, replies: Id -> Reply) returns (published: nat, failed: nat)
      requires Increasing(messages) && SmallJitter(replies)
      requires SentSoFar(max, database.State(), database.State(), messages, 0, worker, replies)
      modifies database`events, database`hands, database`broker
      ensures published + failed == |messages| && published == Count(messages, replies)
      ensures SentSoFar(max, old(database.State()), database.State(), messages, |messages|, worker, replies)
    {
      ghost var start := database.State();
      published, failed := 0, 0;
      var i := 0;
      while i < |messages|
        invariant 0 <= i <= |messages| && published + failed == i && published == Count(messages[..i], replies)
        invariant SentSoFar(max, start, database.State(), messages, i, worker, replies)
      {
        var e := messages[i];
        SentNext(max, start, database.State(), messages, i, worker, replies);
        Send(e, replies(e));
        if replies(e).Accepted? {
          published := published + 1;
        } else {
          failed := failed + 1;
        }
        i := i + 1;
      }
      assert messages[..|messages|] == messages;
    }

    /** run_once. */
    method RunOnce(limit: nat, replies: Id -> Reply) returns (claimed: nat, published: nat, failed: nat)
      requires SmallJitter(replies)
      modifies database`events, database`hands, database`broker
      ensures var q := First(ClaimableIds(old(database.State())), limit);
        && claimed == |q| && published + failed == claimed
        && published == Count(q, replies)
        && database.State() == Run(max, Run(max, old(database.State()), ClaimSteps(q, worker)),
          AllSendSteps(q, worker, replies))
    {
      FirstOf(ClaimableIds(database.State()), limit);
      var messages := ClaimBatch(limit);
      SentFirst(max, database.State(), messages, worker, replies);
      published, failed := SendAll(messages, replies);
      assert messages[..|messages|] == messages;
      claimed := |messages|;
    }

    method MarkPublished(e: Id)
      requires e in database.events
      modifies database`events, database`hands
      ensures database.State() == DoMarkPublished(old(database.State()), e, worker)
    {
      var event := database.events[e];
      if event.status == Processing && event.lockedBy == Some(worker) {
        event := event.(status := Published, publishedAt := Some(database.now), lockedAt := None, lockedBy := None);
      }
      database.events := database.events[e := event];
      database.hands := database.hands - multiset{Hand(e, worker, Sent)};
    }

    /** What _mark_failed does to a row it has locked. */
    method FailRow(row: Event, jitter: real) returns (event: Event)
      ensures event == MarkedFailed(row, max, database.now, jitter)
    {
      event := row.(lockedAt := None, lockedBy := None);
      if event.attempts >= max {
        event := event.(status := Dead);
      } else {
        var delay := if event.attempts == 0 then 0.5 else Backoff(event.attempts);
        event := event.(status := Pending, availableAt := database.now + delay + jitter * delay);
      }
    }

    method MarkFailed(e: Id, jitter: real)
      requires e in database.events
      modifies database`events, database`hands
      ensures database.State() == DoMarkFailed(max, old(database.State()), e, worker, jitter)
      ensures var row := old(database.events)[e];
        row.status == Processing && row.lockedBy == Some(worker) && row.attempts >= 1 && 0.0 <= jitter <= 0.2 ==>
          && e in database.events
          && database.events[e].status == (if row.attempts < max then Pending else Dead)
          && (row.attempts < max ==>
                database.now + Delay(row.attempts) <= database.events[e].availableAt
                <= database.now + 1.2 * Delay(row.attempts))
    {
      var event := database.events[e];
      if event.attempts >= 1 && 0.0 <= jitter <= 0.2 {
        FailedWaits(event, max, database.now, jitter);
      }
      if event.status == Processing && event.lockedBy == Some(worker) {
        event := FailRow(event, jitter);
      }
      database.events := database.events[e := event];
      database.hands := database.hands - multiset{Hand(e, worker, Refused)};
    }

    /** recover_stale: one UPDATE over all rows locked too long. */
    method RecoverStale() returns (count: nat)
      modifies database`events
      ensures count == |StaleIds(old(database.State()))|
      ensures database.State() == Run(max, old(database.State()), StaleSteps(Sorted(StaleIds(old(database.State())))))
    {
      var stale := StaleIds(database.State());
      StaleRun(max, database.State(), Sorted(stale));
      assert Elements(Sorted(stale)) == stale;
      database.events := map e | e in database.events ::
        if e in stale then StaleRecovered(database.events[e], database.now) else database.events[e];
      count := |stale|;
    }

    method RequeueOne(e: Id)
      requires e in UnconsumedIds(database.State())
      modifies database`events
      ensures database.State() == DoRequeue(max, old(database.State()), e)
    {
      var event := database.events[e];
      event := event.(status := if event.attempts >= max then Dead else Pending, availableAt := database.now);
      database.events := database.events[e := event];
      assert database.recovering - {e} == database.recovering;
    }

    method RequeueAll(q: seq<Id>)
      requires Increasing(q) && RequeuedSoFar(max, database.State(), database.State(), q, 0)
      modifies database`events
      ensures RequeuedSoFar(max, old(database.State()), database.State(), q, |q|)
    {
      ghost var start := database.State();
      var i := 0;
      while i < |q|
        invariant 0 <= i <= |q| && RequeuedSoFar(max, start, database.State(), q, i)
      {
        RequeueNext(max, start, database.State(), q, i);
        RequeueOne(q[i]);
        i := i + 1;
      }
    }

    /** recover_unconsumed: the first published rows without a receipt after the timeout; a limit outside
        1 to 500 is refused. */
    method RecoverUnconsumed(limit: int) returns (count: Option<nat>)
      modifies database`events
      ensures count.None? <==> !(1 <= limit <= 500)
      ensures count.None? ==> database.State() == old(database.State())
      ensures count.Some? ==>
        var q := First(UnconsumedIds(old(database.State())), limit);
        count.value == |q| && database.State() == Run(max, old(database.State()), RequeueSteps(q))
    {
      if !(1 <= limit <= 500) {
        return None;
      }
      var q := First(UnconsumedIds(database.State()), limit);
      FirstOf(UnconsumedIds(database.State()), limit);
      RequeueFirst(max, database.State(), limit);
      RequeueAll(q);
      assert q[..|q|] == q;
      return Some(|q|);
    }
  }

  // ---- Admin replay -----------------------------------------------------------------------------

  datatype ReplayError = ReasonRequired | EventNotFound | EventNotDead | VersionConflict

  /** OutboxAdminService.replay: only a dead event, only with a reason of 1 to 1000 characters, and only at
      the version the admin has seen, if one is given; `version` is the row's own. */
  method ReplayEvent(database: OutboxDatabase, max: nat, e: Id, reasonLength: nat, version: nat, expected: Option<nat>)
      returns (result: Result<Id, ReplayError>)
    requires e in database.events ==> e !in database.recovering
    modifies database`events
    ensures result.Ok? <==>
      && 1 <= reasonLength <= 1000 && e in old(database.events) && old(database.events)[e].status == Dead
      && (expected.Some? ==> expected.value == version)
    ensures result == Err(ReasonRequired) <==> reasonLength == 0 || reasonLength > 1000
    ensures result == Err(EventNotFound) <==> 1 <= reasonLength <= 1000 && e !in old(database.events)
    ensures result == Err(EventNotDead) <==>
      1 <= reasonLength <= 1000 && e in old(database.events) && old(database.events)[e].status != Dead
    ensures result == Err(VersionConflict) <==>
      && 1 <= reasonLength <= 1000 && e in old(database.events) && old(database.events)[e].status == Dead
      && expected.Some? && expected.value != version
    ensures result.Err? ==> database.State() == old(database.State())
    ensures result.Ok? ==> database.State() == Next(max, old(database.State()), Step.Replay(e))
    ensures result.Ok? ==> database.events[e].status == Pending && database.events[e].attempts == 0
  {
    if !(1 <= reasonLength <= 1000) {
      return Err(ReasonRequired);
    }
    if e !in database.events {
      return Err(EventNotFound);
    }
    var event := database.events[e];
    if event.status != Dead {
      return Err(EventNotDead);
    }
    if expected.Some? && version != expected.value {
      return Err(VersionConflict);
    }
    event := event.(status := Pending, attempts := 0, availableAt := database.now, lockedAt := None, lockedBy := None);
    database.events := database.events[e := event.(claims := 0, stales := 0)];
    return Ok(e);
  }

  // ---- The consumer -----------------------------------------------------------------------------

  /** How a delivery ends: `Waits` is the insert blocked by another consumer's uncommitted receipt. */
  datatype Delivery = Waits | Duplicated | HandlerRaised | Handled

  /** IdempotentEventConsumer.consume, when the handler succeeds or raises. */
  method Consume(database: OutboxDatabase, max: nat, e: Id, consumer: Id, raises: bool) returns (delivery: Delivery)
    requires e in database.broker && consumer !in database.consuming
    modifies database`receipts, database`effects, database`broker
    ensures delivery == Waits <==> BeingConsumed(old(database.State()), e)
    ensures delivery == Handled <==> !BeingConsumed(old(database.State()), e) && e !in old(database.receipts) && !raises
    ensures delivery == Duplicated <==> !BeingConsumed(old(database.State()), e) && e in old(database.receipts)
    ensures delivery == Handled ==> e in database.receipts && database.effects == old(database.effects) + multiset{e}
    ensures delivery != Handled ==>
      database.receipts == old(database.receipts) && database.effects == old(database.effects)
    ensures database.State() == Run(max, old(database.State()),
      ConsumeSteps(old(database.State()), e, consumer, raises))
  {
    ConsumeIs(max, database.State(), e, consumer, raises);
    if BeingConsumed(database.State(), e) {
      return Waits;
    }
    if e in database.receipts {
      database.broker := database.broker - multiset{e};
      return Duplicated;
    }
    if raises {
      return HandlerRaised;
    }
    database.receipts := database.receipts + {e};
    database.effects := database.effects + multiset{e};
    database.broker := database.broker - multiset{e};
    return Handled;
  }

  /** A blocked delivery waits, a duplicate is acknowledged, a raising handler leaves the message, and a
      success commits receipt and effect. */
  function Consuming(s: System, e: Id, raises: bool): System {
    if BeingConsumed(s, e) then s
    else if e in s.receipts then s.(broker := s.broker - multiset{e})
    else if raises then s
    else s.(receipts := s.receipts + {e}, effects := s.effects + multiset{e}, broker := s.broker - multiset{e})
  }

  lemma {:induction false} ConsumeIs(max: nat, s: System, e: Id, consumer: Id, raises: bool)
    requires e in s.broker && consumer !in s.consuming
    ensures Run(max, s, ConsumeSteps(s, e, consumer, raises)) == Consuming(s, e, raises)
  {
    if BeingConsumed(s, e) {
      RunLast(max, s, [], Step.Receive(e, consumer));
      assert [] + [Step.Receive(e, consumer)] == [Step.Receive(e, consumer)];
    } else if e in s.receipts {
      RunLast(max, s, [], Step.Receive(e, consumer));
      assert [] + [Step.Receive(e, consumer)] == [Step.Receive(e, consumer)];
      DuplicateIs(max, s, e, consumer);
    } else if raises {
      RunTwo(max, s, Step.Receive(e, consumer), Step.AbortConsumer(consumer));
      ReceiveIs(max, s, e, consumer);
      AbortIs(max, s, consumer, e);
    } else {
      ConsumeRuns(max, s, e, consumer);
    }
  }

  lemma {:induction false} DuplicateIs(max: nat, s: System, e: Id, consumer: Id)
    requires e in s.broker && consumer !in s.consuming && !BeingConsumed(s, e) && e in s.receipts
    ensures Next(max, s, Step.Receive(e, consumer)) == s.(broker := s.broker - multiset{e})
  {
  }

  lemma {:induction false} AbortIs(max: nat, s: System, consumer: Id, e: Id)
    requires consumer !in s.consuming
    ensures Next(max, s.(consuming := s.consuming[consumer := Consumption(e, false)]), Step.AbortConsumer(consumer))
      == s
  {
  }

  function ConsumeSteps(s: System, e: Id, consumer: Id, raises: bool): seq<Step> {
    if BeingConsumed(s, e) || e in s.receipts then [Step.Receive(e, consumer)]
    else if raises then [Step.Receive(e, consumer), Step.AbortConsumer(consumer)]
    else [Step.Receive(e, consumer), Step.Handle(consumer), Step.CommitConsumer(consumer)]
  }

  lemma {:induction false} ReceiveIs(max: nat, s: System, e: Id, consumer: Id)
    requires e in s.broker && consumer !in s.consuming && !BeingConsumed(s, e) && e !in s.receipts
    ensures Next(max, s, Step.Receive(e, consumer)) == s.(consuming := s.consuming[consumer := Consumption(e, false)])
  {
  }

  lemma {:induction false} HandleIs(max: nat, s: System, consumer: Id)
    requires consumer in s.consuming
    ensures Next(max, s, Step.Handle(consumer))
      == s.(consuming := s.consuming[consumer := Consumption(s.consuming[consumer].event, true)])
  {
  }

  lemma {:induction false} CommitIs(max: nat, s: System, consumer: Id, e: Id)
    requires consumer in s.consuming && s.consuming[consumer] == Consumption(e, true)
    ensures Next(max, s, Step.CommitConsumer(consumer)) == s.(
      consuming := s.consuming - {consumer}, receipts := s.receipts + {e},
      effects := s.effects + multiset{e}, broker := s.broker - multiset{e})
  {
  }

  lemma {:induction false} ConsumeRuns(max: nat, s: System, e: Id, consumer: Id)
    requires e in s.broker && consumer !in s.consuming && !BeingConsumed(s, e) && e !in s.receipts
    ensures Run(max, s, [Step.Receive(e, consumer), Step.Handle(consumer), Step.CommitConsumer(consumer)])
      == s.(receipts := s.receipts + {e}, effects := s.effects + multiset{e}, broker := s.broker - multiset{e})
  {
    var s1 := s.(consuming := s.consuming[consumer := Consumption(e, false)]);
    var s2 := s.(consuming := s.consuming[consumer := Consumption(e, true)]);
    ReceiveIs(max, s, e, consumer);
    HandleIs(max, s1, consumer);
    CommitIs(max, s2, consumer, e);
    RunTwo(max, s, Step.Receive(e, consumer), Step.Handle(consumer));
    RunLast(max, s, [Step.Receive(e, consumer), Step.Handle(consumer)], Step.CommitConsumer(consumer));
    OverwriteTwice(s.consuming, consumer, Consumption(e, false), Consumption(e, true));
    assert [Step.Receive(e, consumer), Step.Handle(consumer)] + [Step.CommitConsumer(consumer)]
      == [Step.Receive(e, consumer), Step.Handle(consumer), Step.CommitConsumer(consumer)];
    assert s2.consuming - {consumer} == s.consuming;
  }
}
