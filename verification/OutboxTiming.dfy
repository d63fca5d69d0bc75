/** When a row of the outbox may move, and to what: delays, timeouts and the attempt limit. */
module OutboxTiming {
  import opened Prelude
  import opened Outbox

  /** Seconds before retry `n`: one, then twice as long each time, but never more than 300. */
  function Delay(n: nat): real
    requires n >= 1
  {
    if n == 1 then 1.0
    else
      var doubled := 2.0 * Delay(n - 1);
      if doubled > 300.0 then 300.0 else doubled
  }

  lemma {:induction false} PowerGrows(n: nat)
    ensures Power(n) >= 1 && Power(n + 1) == 2 * Power(n)
  {
    if n > 0 {
      PowerGrows(n - 1);
    }
  }

  /** min(300, 2 ** (n - 1)): 1 second at first, doubling, capped at 300. */
  lemma {:induction false} BackoffDoubles(n: nat)
    requires n >= 1
    ensures Backoff(1) == 1.0
    ensures Backoff(n + 1) == if 2.0 * Backoff(n) > 300.0 then 300.0 else 2.0 * Backoff(n)
    ensures 1.0 <= Backoff(n) <= 300.0
  {
    PowerGrows(n - 1);
    PowerGrows(n);
  }

  lemma {:induction false} BackoffIsDelay(n: nat)
    requires n >= 1
    ensures Backoff(n) == Delay(n)
    ensures 1.0 <= Delay(n) <= 300.0
  {
    BackoffDoubles(n);
    if n > 1 {
      BackoffIsDelay(n - 1);
      BackoffDoubles(n - 1);
    }
  }

  lemma {:induction false} FirstDelays()
    ensures Delay(1) == 1.0 && Delay(2) == 2.0 && Delay(3) == 4.0 && Delay(4) == 8.0 && Delay(5) == 16.0
    ensures Delay(9) == 256.0 && Delay(10) == 300.0
  {
    assert Delay(2) == 2.0;
    assert Delay(3) == 4.0;
    assert Delay(4) == 8.0;
    assert Delay(5) == 16.0;
    assert Delay(6) == 32.0;
    assert Delay(7) == 64.0;
    assert Delay(8) == 128.0;
    assert Delay(9) == 256.0;
  }

  lemma {:induction false} Jittered(delay: real, jitter: real)
    requires delay >= 0.0 && 0.0 <= jitter <= 0.2
    ensures delay <= delay + jitter * delay <= 1.2 * delay
  {
    assert (0.2 - jitter) * delay >= 0.0;
  }

  /** A failed publish: dead at the last attempt; otherwise pending again after its delay and at most a fifth
      more, with the lock gone and nothing else changed. */
  lemma {:induction false} FailedWaits(row: Event, max: nat, now: real, jitter: real)
    requires row.attempts >= 1 && 0.0 <= jitter <= 0.2
    ensures var failed := MarkedFailed(row, max, now, jitter);
      && failed == row.(
           status := failed.status, availableAt := failed.availableAt, lockedAt := None, lockedBy := None)
      && (failed.status == Dead <==> row.attempts >= max)
      && (failed.status == Pending <==> row.attempts < max)
      && (failed.status == Dead ==> failed.availableAt == row.availableAt)
      && (failed.status == Pending ==>
            now + Delay(row.attempts) <= failed.availableAt <= now + 1.2 * Delay(row.attempts))
  {
    var delay := Delay(row.attempts);
    BackoffIsDelay(row.attempts);
    Jittered(delay, jitter);
    if row.attempts < max {
      var failed := MarkedFailed(row, max, now, jitter);
      assert failed.availableAt == now + delay + jitter * delay;
      assert now + delay <= failed.availableAt <= now + 1.2 * delay;
    }
  }

  // ---- Which steps a row allows, and what they make of it ----------------------------------------------------

  /** A row is claimed when it is pending and its time has come, and is then locked by that worker. */
  lemma {:induction false} ClaimNeeds(max: nat, s: System, e: Id, w: Id)
    requires e in s.events
    ensures var row := s.events[e];
      && (Enabled(s, Claim(e, w)) <==> e !in s.recovering && row.status == Pending && row.availableAt <= s.now)
      && (Enabled(s, Claim(e, w)) ==>
            Next(max, s, Claim(e, w)).events[e] == row.(
              status := Processing, lockedAt := Some(s.now), lockedBy := Some(w), attempts := row.attempts + 1,
              claims := row.claims + 1))
  {
  }

  /** A publish is marked only while the row is still processing under this worker's id. */
  lemma {:induction false} PublishedMark(max: nat, s: System, e: Id, w: Id)
    requires Enabled(s, MarkPublished(e, w))
    ensures var row := s.events[e];
      Next(max, s, MarkPublished(e, w)).events[e] ==
        if row.status == Processing && row.lockedBy == Some(w) then
          row.(status := Published, publishedAt := Some(s.now), lockedAt := None, lockedBy := None)
        else row
  {
  }

  /** A stale row is one locked more than 300 seconds ago; it becomes pending at once, its attempt counted. */
  lemma {:induction false} StaleNeeds(max: nat, s: System, e: Id)
    requires e in s.events && Sound(s.events[e], max)
    ensures var row := s.events[e];
      && (Enabled(s, RecoverStale(e)) <==>
            e !in s.recovering && row.status == Processing && s.now - row.lockedAt.value > 300.0)
      && (Enabled(s, RecoverStale(e)) ==>
            Next(max, s, RecoverStale(e)).events[e] == row.(
              status := Pending, lockedAt := None, lockedBy := None, availableAt := s.now, stales := row.stales + 1))
  {
  }

  /** Receipt recovery selects a row published more than 900 seconds ago that has no receipt; requeued, it is
      pending at once, or dead when its attempts are used up. */
  lemma {:induction false} UnconsumedNeeds(max: nat, s: System, e: Id)
    requires e in s.events && Sound(s.events[e], max)
    ensures var row := s.events[e];
      Enabled(s, SelectUnconsumed(e)) <==>
        && e !in s.recovering && row.status == Published && s.now - row.publishedAt.value > 900.0
        && e !in s.receipts
    ensures e in s.recovering ==>
      var row := s.events[e];
      Next(max, s, Requeue(e)).events[e] ==
        row.(status := if row.attempts < max then Pending else Dead, availableAt := s.now)
  {
  }

  /** Only a dead row is replayed; it starts over. */
  lemma {:induction false} ReplayNeeds(max: nat, s: System, e: Id)
    requires e in s.events
    ensures var row := s.events[e];
      && (Enabled(s, Replay(e)) <==> e !in s.recovering && row.status == Dead)
      && (Enabled(s, Replay(e)) ==>
            Next(max, s, Replay(e)).events[e] == row.(
              status := Pending, attempts := 0, availableAt := s.now, lockedAt := None, lockedBy := None, claims := 0,
              stales := 0))
  {
  }

  // ---- A delay is really waited for ---------------------------------------------------------------------------

  lemma {:induction false} PendingStays(max: nat, s: System, step: Step, e: Id)
    requires Invariant(max, s) && e in s.events && s.events[e].status == Pending && s.now < s.events[e].availableAt
    ensures var s' := Next(max, s, step);
      e in s'.events && SameRow(s'.events[e], s.events[e]) && s'.now >= s.now
  {
    if Enabled(s, step) {
      RowIs(max, s, step, e);
      assert e !in s.recovering;
    }
  }

  /** Whatever the workers, recoveries and admins do, a pending row is left alone until its time has come. */
  lemma {:induction false} NotBefore(max: nat, s: System, steps: seq<Step>, e: Id)
    requires max >= 1 && Invariant(max, s) && e in s.events && s.events[e].status == Pending
    requires Run(max, s, steps).now < s.events[e].availableAt
    ensures e in Run(max, s, steps).events && SameRow(Run(max, s, steps).events[e], s.events[e])
    ensures Run(max, s, steps).now >= s.now
  {
    if steps != [] {
      var before := Run(max, s, steps[..|steps| - 1]);
      ClockForward(max, before, steps[|steps| - 1]);
      NotBefore(max, s, steps[..|steps| - 1], e);
      RunKeeps(max, s, steps[..|steps| - 1]);
      PendingStays(max, before, steps[|steps| - 1], e);
    }
  }

  lemma {:induction false} ClockForward(max: nat, s: System, step: Step)
    ensures Next(max, s, step).now >= s.now
  {
  }

  // ---- Broker and consumer --------------------------------------------------------------------------------------

  /** Recording an event makes it due at once; a publish puts a message on the broker, and one that raises may
      have done so. */
  lemma {:induction false} PublishAnswers(max: nat, s: System, e: Id, w: Id, reached: bool)
    ensures e !in s.events ==>
      Next(max, s, Record(e)) ==
        s.(events := s.events[e := Event(Pending, 0, s.now, None, None, None, 0, 0, false)])
    ensures e in s.events && Hand(e, w, Claimed) in s.hands ==>
      && Next(max, s, Publish(e, w)).broker == s.broker + multiset{e}
      && Next(max, s, Publish(e, w)).events == s.events[e := s.events[e].(sent := true)]
      && Next(max, s, PublishFails(e, w, reached)).events == s.events
      && Next(max, s, PublishFails(e, w, reached)).broker == (if reached then s.broker + multiset{e} else s.broker)
  {
  }

  /** A delivery with a receipt is acknowledged; one while another consumer holds the receipt waits; any other
      opens a consumption. */
  lemma {:induction false} ReceiveAnswers(max: nat, s: System, e: Id, c: Id)
    requires e in s.broker && c !in s.consuming
    ensures Next(max, s, Receive(e, c)) ==
      if exists d :: d in s.consuming && s.consuming[d].event == e then s
      else if e in s.receipts then s.(broker := s.broker - multiset{e})
      else s.(consuming := s.consuming[c := Consumption(e, false)])
  {
  }

  /** A consumption commits receipt and effect together once its handler has run, and acknowledges; or it
      commits nothing. */
  lemma {:induction false} CommitAnswers(max: nat, s: System, c: Id)
    requires c in s.consuming
    ensures Next(max, s, Handle(c)) == s.(consuming := s.consuming[c := Consumption(s.consuming[c].event, true)])
    ensures Next(max, s, CommitConsumer(c)) ==
      if !s.consuming[c].handled then s
      else
        var e := s.consuming[c].event;
        s.(consuming := s.consuming - {c}, receipts := s.receipts + {e}, effects := s.effects + multiset{e},
           broker := s.broker - multiset{e})
    ensures Next(max, s, AbortConsumer(c)) == s.(consuming := s.consuming - {c})
  {
  }
}
