/** The transactional outbox: relay workers, crash and receipt-timeout recovery, an at-least-once broker,
    an idempotent consumer and admin replay, as one step relation.

    A transaction on one event row is one step; recover_unconsumed is two, because the consumer's
    receipt table is not locked while it runs. Time is in seconds. */
module Outbox {
  import opened Prelude

  datatype Status = Pending | Processing | Published | Dead

  /** An outbox_events row. `claims` and `stales` count its claims and stale recoveries since it was
      recorded or last replayed, and `sent` says that a publish call has ever succeeded. */
  datatype Event = Event(
    status: Status, attempts: nat, availableAt: real, lockedAt: Option<real>, lockedBy: Option<Id>,
    publishedAt: Option<real>,
    claims: nat, stales: nat, sent: bool)

  datatype Stage = Claimed | Sent | Refused

  /** A message in the hands of a relay worker; several workers may share one id. */
  datatype Hand = Hand(event: Id, worker: Id, stage: Stage)

  /** A consumer's open transaction: the receipt is inserted, the handler may have run. */
  datatype Consumption = Consumption(event: Id, handled: bool)

  datatype System = System(
    now: real, events: map<Id, Event>, hands: multiset<Hand>, recovering: set<Id>, broker: multiset<Id>,
    consuming: map<Id, Consumption>, receipts: set<Id>, effects: multiset<Id>)

  datatype Step =
    | Tick(later: real)
    | Record(event: Id)
    | Claim(event: Id, worker: Id)
    | Publish(event: Id, worker: Id)
    | PublishFails(event: Id, worker: Id, reached: bool)
    | MarkPublished(event: Id, worker: Id)
    | MarkFailed(event: Id, worker: Id, jitter: real)
    | Crash(hand: Hand)
    | RecoverStale(event: Id)
    | SelectUnconsumed(event: Id)
    | Requeue(event: Id)
    | AbandonRecovery(event: Id)
    | Replay(event: Id)
    | Duplicate(event: Id)
    | Drop(event: Id)
    | Receive(event: Id, consumer: Id)
    | Handle(consumer: Id)
    | CommitConsumer(consumer: Id)
    | AbortConsumer(consumer: Id)

  const STALE_AFTER: real := 300.0
  const UNCONSUMED_AFTER: real := 900.0

  // ---- Single-row transitions -------------------------------------------------------------------

  function NewEvent(now: real): Event { Event(Pending, 0, now, None, None, None, 0, 0, false) }

  predicate Claimable(e: Event, now: real) { e.status == Pending && e.availableAt <= now }

  function ClaimedBy(e: Event, worker: Id, now: real): Event {
    e.(status := Processing, lockedAt := Some(now), lockedBy := Some(worker), attempts := e.attempts + 1,
      claims := e.claims + 1)
  }

  /** The filter of _locked_event. */
  predicate LockedBy(e: Event, worker: Id) { e.status == Processing && e.lockedBy == Some(worker) }

  function MarkedPublished(e: Event, now: real): Event {
    e.(status := Published, publishedAt := Some(now), lockedAt := None, lockedBy := None)
  }

  function Power(n: nat): nat { if n == 0 then 1 else 2 * Power(n - 1) }

  /** min(300, 2 ** (attempts - 1)) seconds. */
  function Backoff(attempts: nat): real
    requires attempts >= 1
  {
    if Power(attempts - 1) < 300 then Power(attempts - 1) as real else 300.0
  }

  function MarkedFailed(e: Event, max: nat, now: real, jitter: real): Event {
    if e.attempts >= max then e.(status := Dead, lockedAt := None, lockedBy := None)
    else
      var delay := if e.attempts == 0 then 0.5 else Backoff(e.attempts);
      e.(status := Pending, lockedAt := None, lockedBy := None, availableAt := now + delay + jitter * delay)
  }

  predicate Stale(e: Event, now: real) {
    e.status == Processing && e.lockedAt.Some? && e.lockedAt.value < now - STALE_AFTER
  }

  function StaleRecovered(e: Event, now: real): Event {
    e.(status := Pending, lockedAt := None, lockedBy := None, availableAt := now, stales := e.stales + 1)
  }

  predicate Overdue(e: Event, now: real) {
    e.status == Published && e.publishedAt.Some? && e.publishedAt.value < now - UNCONSUMED_AFTER
  }

  function Requeued(e: Event, max: nat, now: real): Event {
    e.(status := if e.attempts >= max then Dead else Pending, availableAt := now)
  }

  function Replayed(e: Event, now: real): Event {
    e.(status := Pending, attempts := 0, availableAt := now, lockedAt := None, lockedBy := None, claims := 0,
      stales := 0)
  }

  // ---- Steps of the system ----------------------------------------------------------------------

  predicate Holds(s: System, e: Id, worker: Id, stage: Stage) { Hand(e, worker, stage) in s.hands }

  function Moved(s: System, e: Id, worker: Id, before: Stage, after: Stage): multiset<Hand> {
    s.hands - multiset{Hand(e, worker, before)} + multiset{Hand(e, worker, after)}
  }

  predicate BeingConsumed(s: System, e: Id) { exists c :: c in s.consuming && s.consuming[c].event == e }

  predicate Enabled(s: System, step: Step) {
    match step
    case Tick(later) => later >= s.now
    case Record(e) => e !in s.events
    case Claim(e, _) => CanClaim(s, e)
    case Publish(e, w) => e in s.events && Holds(s, e, w, Claimed)
    case PublishFails(e, w, _) => e in s.events && Holds(s, e, w, Claimed)
    case MarkPublished(e, w) => e in s.events && e !in s.recovering && Holds(s, e, w, Sent)
    case MarkFailed(e, w, jitter) => e in s.events && e !in s.recovering && Holds(s, e, w, Refused)
      && 0.0 <= jitter <= 0.2
    case Crash(hand) => hand in s.hands
    case RecoverStale(e) => e in s.events && e !in s.recovering && Stale(s.events[e], s.now)
    case SelectUnconsumed(e) => e in s.events && e !in s.recovering && Overdue(s.events[e], s.now) && e !in s.receipts
    case Requeue(e) => e in s.events && e in s.recovering
    case AbandonRecovery(e) => e in s.recovering
    case Replay(e) => e in s.events && e !in s.recovering && s.events[e].status == Dead
    case Duplicate(e) => e in s.broker
    case Drop(e) => e in s.broker
    case Receive(e, c) => e in s.broker && c !in s.consuming && !BeingConsumed(s, e)
    case Handle(c) => c in s.consuming
    case CommitConsumer(c) => c in s.consuming && s.consuming[c].handled
    case AbortConsumer(c) => c in s.consuming
  }

  function Updated(s: System, e: Id, row: Event): System { s.(events := s.events[e := row]) }

  predicate CanClaim(s: System, e: Id) { e in s.events && e !in s.recovering && Claimable(s.events[e], s.now) }

  function DoClaim(s: System, e: Id, w: Id): System
    requires e in s.events
  {
    Updated(s, e, ClaimedBy(s.events[e], w, s.now)).(hands := s.hands + multiset{Hand(e, w, Claimed)})
  }

  function DoPublish(s: System, e: Id, w: Id): System
    requires e in s.events
  {
    Updated(s, e, s.events[e].(sent := true)).(hands := Moved(s, e, w, Claimed, Sent), broker := s.broker + multiset{e})
  }

  function DoPublishFails(s: System, e: Id, w: Id, reached: bool): System {
    s.(hands := Moved(s, e, w, Claimed, Refused), broker := if reached then s.broker + multiset{e} else s.broker)
  }

  function DoMarkPublished(s: System, e: Id, w: Id): System
    requires e in s.events
  {
    var row := if LockedBy(s.events[e], w) then MarkedPublished(s.events[e], s.now) else s.events[e];
    Updated(s, e, row).(hands := s.hands - multiset{Hand(e, w, Sent)})
  }

  function DoMarkFailed(max: nat, s: System, e: Id, w: Id, jitter: real): System
    requires e in s.events
  {
    var row := if LockedBy(s.events[e], w) then MarkedFailed(s.events[e], max, s.now, jitter) else s.events[e];
    Updated(s, e, row).(hands := s.hands - multiset{Hand(e, w, Refused)})
  }

  function DoRequeue(max: nat, s: System, e: Id): System
    requires e in s.events
  {
    Updated(s, e, Requeued(s.events[e], max, s.now)).(recovering := s.recovering - {e})
  }

  function Effect(max: nat, s: System, step: Step): System
    requires Enabled(s, step)
  {
    match step
    case Tick(later) => s.(now := later)
    case Record(e) => Updated(s, e, NewEvent(s.now))
    case Claim(e, w) => DoClaim(s, e, w)
    case Publish(e, w) => DoPublish(s, e, w)
    case PublishFails(e, w, reached) => DoPublishFails(s, e, w, reached)
    case MarkPublished(e, w) => DoMarkPublished(s, e, w)
    case MarkFailed(e, w, jitter) => DoMarkFailed(max, s, e, w, jitter)
    case Crash(hand) => s.(hands := s.hands - multiset{hand})
    case RecoverStale(e) => Updated(s, e, StaleRecovered(s.events[e], s.now))
    case SelectUnconsumed(e) => s.(recovering := s.recovering + {e})
    case Requeue(e) => DoRequeue(max, s, e)
    case AbandonRecovery(e) => s.(recovering := s.recovering - {e})
    case Replay(e) => Updated(s, e, Replayed(s.events[e], s.now))
    case Duplicate(e) => s.(broker := s.broker + multiset{e})
    case Drop(e) => s.(broker := s.broker - multiset{e})
    case Receive(e, c) =>
      if e in s.receipts then s.(broker := s.broker - multiset{e})
      else s.(consuming := s.consuming[c := Consumption(e, false)])
    case Handle(c) => s.(consuming := s.consuming[c := s.consuming[c].(handled := true)])
    case CommitConsumer(c) =>
      var e := s.consuming[c].event;
      s.(consuming := s.consuming - {c}, receipts := s.receipts + {e}, effects := s.effects + multiset{e},
        broker := s.broker - multiset{e})
    case AbortConsumer(c) => s.(consuming := s.consuming - {c})
  }

  /** A step that is not enabled waits. */
  function Next(max: nat, s: System, step: Step): System { if Enabled(s, step) then Effect(max, s, step) else s }

  function Run(max: nat, s: System, steps: seq<Step>): System {
    if steps == [] then s else Next(max, Run(max, s, steps[..|steps| - 1]), steps[|steps| - 1])
  }

  lemma {:induction false} RunLast(max: nat, s: System, steps: seq<Step>, step: Step)
    ensures Run(max, s, steps + [step]) == Next(max, Run(max, s, steps), step)
  {
  }

  function Start(now: real): System { System(now, map[], multiset{}, {}, multiset{}, map[], {}, multiset{}) }

  /** Recording that a publish call succeeded is not a change of the row. */
  predicate SameRow(a: Event, b: Event) { a.(sent := false) == b.(sent := false) }

  /** What a step makes of one row. */
  function RowAfter(max: nat, now: real, e: Id, row: Event, step: Step): Event {
    match step
    case Claim(x, w) => if x == e then ClaimedBy(row, w, now) else row
    case Publish(x, _) => if x == e then row.(sent := true) else row
    case MarkPublished(x, w) => if x == e && LockedBy(row, w) then MarkedPublished(row, now) else row
    case MarkFailed(x, w, jitter) => if x == e && LockedBy(row, w) then MarkedFailed(row, max, now, jitter) else row
    case RecoverStale(x) => if x == e then StaleRecovered(row, now) else row
    case Requeue(x) => if x == e then Requeued(row, max, now) else row
    case Replay(x) => if x == e then Replayed(row, now) else row
    case _ => row
  }

  lemma {:induction false} RowIs(max: nat, s: System, step: Step, e: Id)
    requires Enabled(s, step) && e in s.events
    ensures e in Effect(max, s, step).events
      && Effect(max, s, step).events[e] == RowAfter(max, s.now, e, s.events[e], step)
  {
  }

  lemma {:induction false} NewRow(max: nat, s: System, step: Step, e: Id)
    requires Enabled(s, step) && e !in s.events && e in Effect(max, s, step).events
    ensures Effect(max, s, step).events[e] == NewEvent(s.now)
  {
  }

  /** Whether a step is allowed on a row, as far as the row itself is concerned. */
  predicate RowAllows(now: real, e: Id, row: Event, step: Step) {
    match step
    case Claim(x, _) => x == e ==> row.status == Pending
    case RecoverStale(x) => x == e ==> row.status == Processing
    case Replay(x) => x == e ==> row.status == Dead
    case _ => true
  }

  // ---- The invariant ----------------------------------------------------------------------------

  /** PROCESSING exactly when locked; PUBLISHED only after a publish; DEAD only after the last attempt;
      claims since the last replay within the limit plus the stale recoveries. */
  ghost predicate Sound(e: Event, max: nat) {
    && (e.status == Processing <==> e.lockedAt.Some?)
    && (e.status == Processing <==> e.lockedBy.Some?)
    && (e.status == Published ==> e.publishedAt.Some? && e.sent)
    && (e.status == Dead ==> e.attempts >= max)
    && e.attempts == e.claims
    && e.claims <= max + e.stales
    && (e.status != Pending ==> e.claims >= 1)
    && (e.status == Pending ==> e.claims < max + e.stales)
  }

  ghost predicate RowsSound(max: nat, s: System) {
    forall e :: e in s.events ==> Sound(s.events[e], max)
  }

  /** Marks come after the publish call. */
  ghost predicate HandsSound(s: System) {
    forall hand :: hand in s.hands && hand.stage == Sent ==> hand.event in s.events && s.events[hand.event].sent
  }

  /** A recovery holds only published rows. */
  ghost predicate RecoverySound(s: System) {
    forall e :: e in s.recovering ==> e in s.events && s.events[e].status == Published
  }

  /** A receipt is there exactly when the handler's effect was committed, and then exactly once. */
  ghost predicate ExactlyOnce(s: System) {
    && (forall e :: s.effects[e] == if e in s.receipts then 1 else 0)
    && (forall c :: c in s.consuming ==> s.consuming[c].event !in s.receipts)
    && (forall c, d :: c in s.consuming && d in s.consuming && s.consuming[c].event == s.consuming[d].event ==> c == d)
  }

  ghost predicate Invariant(max: nat, s: System) {
    RowsSound(max, s) && HandsSound(s) && RecoverySound(s) && ExactlyOnce(s)
  }

  // ---- Every step keeps it ----------------------------------------------------------------------

  lemma {:induction false} RowStaysSound(max: nat, now: real, e: Id, row: Event, step: Step)
    requires max >= 1 && Sound(row, max) && RowAllows(now, e, row, step)
    requires step.Requeue? && step.event == e ==> row.status == Published
    requires step.MarkPublished? && step.event == e ==> row.sent
    ensures Sound(RowAfter(max, now, e, row, step), max)
  {
  }

  lemma {:induction false} RowKept(max: nat, s: System, step: Step, e: Id)
    requires max >= 1 && Invariant(max, s) && Enabled(s, step) && e in Effect(max, s, step).events
    ensures Sound(Effect(max, s, step).events[e], max)
  {
    if e in s.events {
      assert Sound(s.events[e], max);
      if step.MarkPublished? && step.event == e {
        assert Hand(e, step.worker, Sent) in s.hands;
      }
      RowStaysSound(max, s.now, e, s.events[e], step);
      RowIs(max, s, step, e);
    } else {
      NewRow(max, s, step, e);
    }
  }

  lemma {:induction false} HandMoved(s: System, e: Id, w: Id, before: Stage, after: Stage, hand: Hand)
    requires hand in Moved(s, e, w, before, after) && hand !in s.hands
    ensures hand == Hand(e, w, after)
  {
  }

  lemma {:induction false} NewHand(max: nat, s: System, step: Step, hand: Hand)
    requires Enabled(s, step) && hand in Effect(max, s, step).hands && hand !in s.hands && hand.stage == Sent
    ensures step == Publish(hand.event, hand.worker)
  {
    match step
    case Publish(e, w) => HandMoved(s, e, w, Claimed, Sent, hand);
    case PublishFails(e, w, _) => HandMoved(s, e, w, Claimed, Refused, hand);
    case _ =>
  }

  lemma {:induction false} HandsKept(max: nat, s: System, step: Step, hand: Hand)
    requires HandsSound(s) && Enabled(s, step) && hand in Effect(max, s, step).hands && hand.stage == Sent
    ensures hand.event in Effect(max, s, step).events && Effect(max, s, step).events[hand.event].sent
  {
    if hand in s.hands {
      assert hand.event in s.events && s.events[hand.event].sent;
    } else {
      NewHand(max, s, step, hand);
    }
    RowIs(max, s, step, hand.event);
  }

  lemma {:induction false} NewRecovery(max: nat, s: System, step: Step, e: Id)
    requires Enabled(s, step) && e in Effect(max, s, step).recovering
    ensures if e in s.recovering then step != Requeue(e) else step == SelectUnconsumed(e)
  {
  }

  /** No step moves a row held by a recovery out of PUBLISHED, except its requeue. */
  lemma {:induction false} PublishedStays(max: nat, now: real, e: Id, row: Event, step: Step)
    requires row.status == Published && RowAllows(now, e, row, step) && step != Requeue(e)
    ensures RowAfter(max, now, e, row, step).status == Published
    ensures SameRow(RowAfter(max, now, e, row, step), row)
  {
  }

  lemma {:induction false} RecoveryKept(max: nat, s: System, step: Step, e: Id)
    requires RecoverySound(s) && Enabled(s, step) && e in Effect(max, s, step).recovering
    ensures e in Effect(max, s, step).events && Effect(max, s, step).events[e].status == Published
  {
    NewRecovery(max, s, step, e);
    PublishedStays(max, s.now, e, s.events[e], step);
    RowIs(max, s, step, e);
  }

  lemma {:induction false} EffectsKept(max: nat, s: System, step: Step, e: Id)
    requires ExactlyOnce(s) && Enabled(s, step)
    ensures Effect(max, s, step).effects[e] == if e in Effect(max, s, step).receipts then 1 else 0
  {
  }

  lemma {:induction false} ConsumersKept(max: nat, s: System, step: Step, c: Id)
    requires ExactlyOnce(s) && Enabled(s, step) && c in Effect(max, s, step).consuming
    ensures Effect(max, s, step).consuming[c].event !in Effect(max, s, step).receipts
  {
  }

  lemma {:induction false} OneConsumer(max: nat, s: System, step: Step, c: Id, d: Id)
    requires ExactlyOnce(s) && Enabled(s, step) && c in Effect(max, s, step).consuming
      && d in Effect(max, s, step).consuming
    requires Effect(max, s, step).consuming[c].event == Effect(max, s, step).consuming[d].event
    ensures c == d
  {
  }

  lemma {:induction false} ReceiptsKept(max: nat, s: System, step: Step)
    requires ExactlyOnce(s) && Enabled(s, step)
    ensures ExactlyOnce(Effect(max, s, step))
  {
    var s' := Effect(max, s, step);
    forall e ensures s'.effects[e] == if e in s'.receipts then 1 else 0 { EffectsKept(max, s, step, e); }
    forall c | c in s'.consuming ensures s'.consuming[c].event !in s'.receipts { ConsumersKept(max, s, step, c); }
    forall c, d | c in s'.consuming && d in s'.consuming && s'.consuming[c].event == s'.consuming[d].event
      ensures c == d
    {
      OneConsumer(max, s, step, c, d);
    }
  }

  lemma {:induction false} StepKeeps(max: nat, s: System, step: Step)
    requires max >= 1 && Invariant(max, s)
    ensures Invariant(max, Next(max, s, step))
  {
    if Enabled(s, step) {
      forall e | e in Effect(max, s, step).events ensures Sound(Effect(max, s, step).events[e], max) {
        RowKept(max, s, step, e);
      }
      forall hand | hand in Effect(max, s, step).hands && hand.stage == Sent
        ensures hand.event in Effect(max, s, step).events && Effect(max, s, step).events[hand.event].sent
      {
        HandsKept(max, s, step, hand);
      }
      forall e | e in Effect(max, s, step).recovering
        ensures e in Effect(max, s, step).events && Effect(max, s, step).events[e].status == Published
      {
        RecoveryKept(max, s, step, e);
      }
      ReceiptsKept(max, s, step);
    }
  }

  lemma {:induction false} RunKeeps(max: nat, s: System, steps: seq<Step>)
    requires max >= 1 && Invariant(max, s)
    ensures Invariant(max, Run(max, s, steps))
  {
    if steps != [] {
      RunKeeps(max, s, steps[..|steps| - 1]);
      StepKeeps(max, Run(max, s, steps[..|steps| - 1]), steps[|steps| - 1]);
    }
  }

  lemma {:induction false} StartSound(max: nat, now: real)
    ensures Invariant(max, Start(now))
  {
  }

  /** Over every run, with duplicates, crashes, republishing and replay: a receipt exists if and only if
      the handler's effect was committed, and no effect is ever committed twice. */
  lemma {:induction false} ExactlyOnceEffect(max: nat, now: real, steps: seq<Step>, e: Id)
    requires max >= 1
    ensures var s := Run(max, Start(now), steps);
      && (e in s.receipts <==> s.effects[e] == 1)
      && s.effects[e] <= 1
  {
    StartSound(max, now);
    RunKeeps(max, Start(now), steps);
  }

  /** Claims since the last replay: at most the limit plus the stale recoveries since then. */
  lemma {:induction false} AttemptBound(max: nat, now: real, steps: seq<Step>, e: Id)
    requires max >= 1 && e in Run(max, Start(now), steps).events
    ensures var row := Run(max, Start(now), steps).events[e];
      row.claims <= max + row.stales && row.attempts == row.claims
  {
    StartSound(max, now);
    RunKeeps(max, Start(now), steps);
    assert Sound(Run(max, Start(now), steps).events[e], max);
  }

  // ---- A consumed event is left alone -----------------------------------------------------------

  /** No step touches a published event that has its receipt, unless a recovery selected it before the
      receipt was written; late marks from workers sharing one id do nothing. */
  lemma {:induction false} ConsumedUntouched(max: nat, s: System, step: Step, e: Id)
    requires Invariant(max, s) && e in s.events && s.events[e].status == Published && e in s.receipts
    ensures e in Next(max, s, step).events
    ensures SameRow(Next(max, s, step).events[e], s.events[e]) <==> !(step == Requeue(e) && e in s.recovering)
  {
    if Enabled(s, step) {
      RowIs(max, s, step, e);
      if step != Requeue(e) {
        PublishedStays(max, s.now, e, s.events[e], step);
      }
    }
  }

  lemma {:induction false} FourSteps(max: nat, s: System, a: Step, b: Step, c: Step, d: Step)
    ensures Run(max, s, [a, b, c, d]) == Next(max, Next(max, Next(max, Next(max, s, a), b), c), d)
  {
    RunLast(max, s, [], a);
    RunLast(max, s, [a], b);
    RunLast(max, s, [a, b], c);
    RunLast(max, s, [a, b, c], d);
    assert [] + [a] == [a] && [a] + [b] == [a, b] && [a, b] + [c] == [a, b, c] && [a, b, c] + [d] == [a, b, c, d];
  }

  const PUBLISHED_ROW := Event(Published, 1, 0.0, None, None, Some(0.0), 1, 0, true)
  const SENT_ONCE := System(0.0, map[1 := PUBLISHED_ROW], multiset{}, {}, multiset{1}, map[], {}, multiset{})

  lemma {:induction false} SentOnce(max: nat)
    ensures Run(max, Start(0.0), [Record(1), Claim(1, 7), Publish(1, 7), MarkPublished(1, 7)]) == SENT_ONCE
  {
    var s1 := Start(0.0).(events := map[1 := NewEvent(0.0)]);
    var claimed := ClaimedBy(NewEvent(0.0), 7, 0.0);
    var s2 := s1.(events := map[1 := claimed], hands := multiset{Hand(1, 7, Claimed)});
    var s3 := s1.(events := map[1 := claimed.(sent := true)], hands := multiset{Hand(1, 7, Sent)},
      broker := multiset{1});
    assert Next(max, Start(0.0), Record(1)) == s1;
    assert Next(max, s1, Claim(1, 7)) == s2;
    assert Next(max, s2, Publish(1, 7)) == s3;
    assert Next(max, s3, MarkPublished(1, 7)) == SENT_ONCE;
    FourSteps(max, Start(0.0), Record(1), Claim(1, 7), Publish(1, 7), MarkPublished(1, 7));
  }

  const LATE := SENT_ONCE.(now := 1000.0)
  const LATE_RECEIPT := LATE.(recovering := {1}, receipts := {1}, effects := multiset{1}, broker := multiset{})

  lemma {:induction false} ConsumedLate(max: nat)
    ensures Run(max, LATE, [SelectUnconsumed(1), Receive(1, 9), Handle(9), CommitConsumer(9)]) == LATE_RECEIPT
  {
    var s1 := LATE.(recovering := {1});
    var s2 := s1.(consuming := map[9 := Consumption(1, false)]);
    var s3 := s1.(consuming := map[9 := Consumption(1, true)]);
    assert Next(max, LATE, SelectUnconsumed(1)) == s1;
    assert Next(max, s1, Receive(1, 9)) == s2;
    assert Next(max, s2, Handle(9)) == s3;
    assert Next(max, s3, CommitConsumer(9)) == LATE_RECEIPT;
    FourSteps(max, LATE, SelectUnconsumed(1), Receive(1, 9), Handle(9), CommitConsumer(9));
  }

  /** The exception does happen: a recovery selects an overdue event, its late consumer commits the
      receipt, and the recovery then requeues the consumed event. */
  lemma {:induction false} ConsumedWhileRecovering(max: nat)
    ensures
      var sent := Run(max, Start(0.0), [Record(1), Claim(1, 7), Publish(1, 7), MarkPublished(1, 7)]);
      var late := Next(max, sent, Tick(1000.0));
      var s := Run(max, late, [SelectUnconsumed(1), Receive(1, 9), Handle(9), CommitConsumer(9)]);
      && 1 in s.events && s.events[1].status == Published && 1 in s.receipts
      && 1 in Next(max, s, Requeue(1)).events && Next(max, s, Requeue(1)).events[1].status != Published
  {
    SentOnce(max);
    assert Next(max, SENT_ONCE, Tick(1000.0)) == LATE;
    ConsumedLate(max);
    assert Enabled(LATE_RECEIPT, Requeue(1));
  }

  /** Receipts are never withdrawn, and a recovery selects no event that has one. */
  lemma {:induction false} ReceiptStays(max: nat, s: System, step: Step, e: Id)
    requires e in s.receipts
    ensures e in Next(max, s, step).receipts
    ensures e !in s.recovering ==> e !in Next(max, s, step).recovering
  {
  }

  lemma {:induction false} ConsumedForGood(max: nat, s: System, steps: seq<Step>, e: Id)
    requires max >= 1 && Invariant(max, s) && e in s.events && s.events[e].status == Published && e in s.receipts
      && e !in s.recovering
    ensures var s' := Run(max, s, steps);
      e in s'.events && SameRow(s'.events[e], s.events[e]) && e in s'.receipts && e !in s'.recovering
        && s'.effects[e] == 1
  {
    if steps != [] {
      var init, last := steps[..|steps| - 1], steps[|steps| - 1];
      ConsumedForGood(max, s, init, e);
      RunKeeps(max, s, init);
      assert SameRow(Run(max, s, init).events[e], s.events[e]);
      ConsumedUntouched(max, Run(max, s, init), last, e);
      ReceiptStays(max, Run(max, s, init), last, e);
    }
    RunKeeps(max, s, steps);
  }

  // ---- The ranking ------------------------------------------------------------------------------

  function Rank(e: Event, max: nat): int {
    3 * (max - e.attempts) + match e.status case Pending => 0 case Processing => 2 case Published => 1 case Dead => 0
  }

  /** Everything but stale recovery and replay of `e`. */
  predicate Ordinary(step: Step, e: Id) { step != RecoverStale(e) && step != Replay(e) }

  lemma {:induction false} RankBounds(e: Event, max: nat)
    requires max >= 1 && Sound(e, max) && e.stales == 0
    ensures 0 <= Rank(e, max) <= 3 * max
  {
  }

  lemma {:induction false} RowRankFalls(max: nat, now: real, e: Id, row: Event, step: Step)
    requires max >= 1 && Sound(row, max) && RowAllows(now, e, row, step) && Ordinary(step, e)
    requires step.Requeue? && step.event == e ==> row.status == Published
    ensures var row' := RowAfter(max, now, e, row, step);
      row'.stales == row.stales && (SameRow(row', row) || Rank(row', max) < Rank(row, max))
  {
  }

  lemma {:induction false} RankFalls(max: nat, s: System, step: Step, e: Id)
    requires Invariant(max, s) && max >= 1 && e in s.events && s.events[e].stales == 0 && Ordinary(step, e)
    ensures var s' := Next(max, s, step);
      && e in s'.events && s'.events[e].stales == 0
      && (SameRow(s'.events[e], s.events[e]) || Rank(s'.events[e], max) < Rank(s.events[e], max))
  {
    assert Sound(s.events[e], max);
    if Enabled(s, step) {
      RowIs(max, s, step, e);
      RowRankFalls(max, s.now, e, s.events[e], step);
    }
  }

  lemma {:induction false} SameRank(a: Event, b: Event, max: nat)
    requires SameRow(a, b)
    ensures Rank(a, max) == Rank(b, max)
  {
  }

  /** How often a run changes the row of `e`. */
  function Changes(max: nat, s: System, steps: seq<Step>, e: Id): nat {
    if steps == [] then 0 else
      var before := Run(max, s, steps[..|steps| - 1]);
      var after := Next(max, before, steps[|steps| - 1]);
      Changes(max, s, steps[..|steps| - 1], e) +
      if e in before.events && e in after.events && !SameRow(before.events[e], after.events[e]) then 1 else 0
  }

  lemma {:induction false} FewSteps(max: nat, s: System, steps: seq<Step>, e: Id)
    requires max >= 1 && Invariant(max, s) && e in s.events && s.events[e].stales == 0
    requires forall i :: 0 <= i < |steps| ==> Ordinary(steps[i], e)
    ensures e in Run(max, s, steps).events && Run(max, s, steps).events[e].stales == 0
    ensures Changes(max, s, steps, e) + Rank(Run(max, s, steps).events[e], max) <= Rank(s.events[e], max)
  {
    if steps != [] {
      var before, last := Run(max, s, steps[..|steps| - 1]), steps[|steps| - 1];
      FewSteps(max, s, steps[..|steps| - 1], e);
      RunKeeps(max, s, steps[..|steps| - 1]);
      RankFalls(max, before, last, e);
      if SameRow(Next(max, before, last).events[e], before.events[e]) {
        SameRank(Next(max, before, last).events[e], before.events[e], max);
      }
    }
  }

  /** Without stale recovery or replay, an event sees at most 3 * max claims, marks and requeues. */
  lemma {:induction false} AtMostThreePerAttempt(max: nat, s: System, steps: seq<Step>, e: Id)
    requires max >= 1 && Invariant(max, s) && e in s.events && s.events[e].stales == 0
    requires forall i :: 0 <= i < |steps| ==> Ordinary(steps[i], e)
    ensures Changes(max, s, steps, e) <= 3 * max
  {
    FewSteps(max, s, steps, e);
    RunKeeps(max, s, steps);
    RankBounds(s.events[e], max);
    RankBounds(Run(max, s, steps).events[e], max);
  }

  // ---- No event is lost -------------------------------------------------------------------------

  /** When the relay or a recovery may next act on a row. */
  function Deadline(e: Event): real
    requires e.status == Processing ==> e.lockedAt.Some?
    requires e.status == Published ==> e.publishedAt.Some?
  {
    match e.status
    case Pending => e.availableAt
    case Processing => e.lockedAt.value + STALE_AFTER
    case Published => e.publishedAt.value + UNCONSUMED_AFTER
    case Dead => e.availableAt
  }

  function NextMove(s: System, e: Id, worker: Id): Step
    requires e in s.events
  {
    if e in s.recovering then Requeue(e)
    else match s.events[e].status
      case Pending => Claim(e, worker)
      case Processing => RecoverStale(e)
      case Published => SelectUnconsumed(e)
      case Dead => Replay(e)
  }

  /** Every event without its receipt has an enabled claim, recovery or requeue once its delay or
      timeout has passed, whatever became of its worker and its messages; a dead one can be replayed. */
  lemma {:induction false} NeverLost(max: nat, s: System, e: Id, worker: Id)
    requires Invariant(max, s) && e in s.events && e !in s.receipts
    ensures Sound(s.events[e], max)
    ensures s.now > Deadline(s.events[e]) || s.events[e].status == Dead ==> Enabled(s, NextMove(s, e, worker))
  {
  }

  lemma {:induction false} RunAfter(max: nat, s: System, step: Step, rest: seq<Step>)
    ensures Run(max, s, [step] + rest) == Run(max, Next(max, s, step), rest)
  {
    if rest == [] {
      assert ([step] + rest)[..0] == [] && [step] + rest == [step];
    } else {
      var init := rest[..|rest| - 1];
      assert ([step] + rest)[..|[step] + rest| - 1] == [step] + init;
      RunAfter(max, s, step, init);
    }
  }

  lemma {:induction false} FreeConsumer(s: System) returns (c: Id)
    ensures c !in s.consuming
  {
    c := FreeId(s.consuming.Keys);
  }

  lemma {:induction false} FreeId(ids: set<Id>) returns (c: Id)
    ensures c !in ids && forall x :: x in ids ==> x < c
  {
    if ids == {} {
      c := 0;
    } else {
      var m :| m in ids;
      c := FreeId(ids - {m});
      c := if m < c then c else m + 1;
      assert forall x :: x in ids ==> x == m || x in ids - {m};
    }
  }

  lemma {:induction false} FinishConsumption(max: nat, s: System, c: Id) returns (steps: seq<Step>)
    requires c in s.consuming
    ensures s.consuming[c].event in Run(max, s, steps).receipts
  {
    var s1 := Next(max, s, Handle(c));
    RunAfter(max, s1, CommitConsumer(c), []);
    assert [CommitConsumer(c)] + [] == [CommitConsumer(c)];
    RunAfter(max, s, Handle(c), [CommitConsumer(c)]);
    steps := [Handle(c)] + [CommitConsumer(c)];
  }

  /** The consumer's side of a delivery. */
  lemma {:induction false} Consume(max: nat, s: System, e: Id) returns (steps: seq<Step>)
    requires e !in s.receipts && (e in s.broker || BeingConsumed(s, e))
    ensures e in Run(max, s, steps).receipts
  {
    if BeingConsumed(s, e) {
      var c :| c in s.consuming && s.consuming[c].event == e;
      steps := FinishConsumption(max, s, c);
    } else {
      var c := FreeConsumer(s);
      var rest := FinishConsumption(max, Next(max, s, Receive(e, c)), c);
      RunAfter(max, s, Receive(e, c), rest);
      steps := [Receive(e, c)] + rest;
    }
  }

  /** How many steps a row is away from being claimed. */
  function Distance(s: System, e: Id): nat
    requires e in s.events
  {
    match s.events[e].status
    case Pending => 0
    case Dead => 1
    case Processing => 2
    case Published => if e in s.recovering then 3 else 4
  }

  lemma {:induction false} OneStepOn(max: nat, s: System, step: Step, e: Id) returns (steps: seq<Step>)
    requires max >= 1 && Invariant(max, s) && e in s.events && e !in s.receipts && Enabled(s, step)
    requires e in Effect(max, s, step).events && e !in Effect(max, s, step).receipts
    requires Distance(Effect(max, s, step), e) < Distance(s, e)
    ensures e in Run(max, s, steps).receipts
    decreases Distance(s, e), 0
  {
    StepKeeps(max, s, step);
    var rest := Deliver(max, Effect(max, s, step), e);
    RunAfter(max, s, step, rest);
    steps := [step] + rest;
  }

  /** From every reachable state some continuation delivers the event: nothing ever blocks it for good. */
  lemma {:induction false} Deliver(max: nat, s: System, e: Id) returns (steps: seq<Step>)
    requires max >= 1 && Invariant(max, s) && e in s.events && e !in s.receipts
    ensures e in Run(max, s, steps).receipts
    decreases Distance(s, e), 1
  {
    assert Sound(s.events[e], max);
    var later := if Deadline(s.events[e]) >= s.now then Deadline(s.events[e]) + 1.0 else s.now;
    var s1 := Next(max, s, Tick(later));
    StepKeeps(max, s, Tick(later));
    NeverLost(max, s1, e, 0);
    var rest: seq<Step>;
    if s.events[e].status == Pending {
      rest := ClaimAndPublish(max, s1, e);
    } else {
      rest := OneStepOn(max, s1, NextMove(s1, e, 0), e);
    }
    RunAfter(max, s, Tick(later), rest);
    steps := [Tick(later)] + rest;
  }

  lemma {:induction false} ClaimAndPublish(max: nat, s: System, e: Id) returns (steps: seq<Step>)
    requires max >= 1 && Invariant(max, s) && e in s.events && e !in s.receipts && Enabled(s, Claim(e, 0))
    ensures e in Run(max, s, steps).receipts
  {
    var s1 := Next(max, s, Claim(e, 0));
    var s2 := Next(max, s1, Publish(e, 0));
    StepKeeps(max, s, Claim(e, 0));
    StepKeeps(max, s1, Publish(e, 0));
    assert Holds(s1, e, 0, Claimed);
    var rest := Consume(max, s2, e);
    RunAfter(max, s1, Publish(e, 0), rest);
    RunAfter(max, s, Claim(e, 0), [Publish(e, 0)] + rest);
    steps := [Claim(e, 0)] + ([Publish(e, 0)] + rest);
  }
}
