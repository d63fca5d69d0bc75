/** Keyed payment commands among other transactions: begin_command takes the advisory lock of its key
    before it looks the key up, so what it has seen stays true until it commits or rolls back. */
module KeyedConcurrency {
  import opened Prelude
  import opened CustomerLedger
  import opened LedgerInvariant
  import opened CustomerService
  import opened LedgerConcurrency
  import opened PaymentRetries
  import I = Idempotency

  type Slot = I.Slot<Scope>
  type KeyRow = I.KeyRecord<Payload, Resource>

  /** The advisory lock id of a key is eight bytes of its digest: two keys may share one. */
  type LockId = Slot -> nat

  /** A keyed transaction; `seen` is what its query for the key row returned, once it has run. */
  datatype Session = Session(request: PaymentRequest, seen: Option<Option<KeyRow>>)

  /** What has committed, in commit order: answers to keyed requests, and commands without a key. */
  datatype Entry = Answered(request: PaymentRequest, outcome: Outcome) | Unkeyed(command: Command)

  datatype Keyed = Keyed(base: System, keys: Keys, sessions: map<Id, Session>, served: seq<Entry>)

  datatype KeyedEvent =
    | BeginKeyed(tx: Id, request: PaymentRequest)
    | LookUp(tx: Id)
    | Answer(tx: Id)
    | Other(event: Event)

  // ---- Steps ------------------------------------------------------------------------------------

  function KeyLock(lockId: LockId, slot: Slot): Lock { CommandLock(lockId(slot)) }

  function Found(keys: Keys, slot: Slot): Option<KeyRow> { if slot in keys then Some(keys[slot]) else None }

  /** Payments are recorded and allocated only with a key. */
  predicate TakesKey(c: Command) { c.Create? || c.Allocate? }

  predicate Opens(s: Keyed, t: Id, request: PaymentRequest) {
    t !in s.base.txs && TakesKey(request.command) && Precheck(request.command).None? && I.ValidKey(request.slot.key)
  }

  predicate Looks(lockId: LockId, s: Keyed, t: Id) {
    && t in s.sessions && s.sessions[t].seen.None?
    && KeyLock(lockId, s.sessions[t].request.slot) in s.base.owner
    && s.base.owner[KeyLock(lockId, s.sessions[t].request.slot)] == t
  }

  /** The key row of an earlier request is there, with its resource or for another payload. */
  predicate Repeats(s: Keyed, t: Id) {
    && t in s.sessions && s.sessions[t].seen.Some? && s.sessions[t].seen.value.Some?
    && var row := s.sessions[t].seen.value.value; row.payload != s.sessions[t].request.payload || row.resource.Some?
  }

  function AnswerOf(session: Session): Outcome
    requires session.seen.Some? && session.seen.value.Some?
    requires var row := session.seen.value.value; row.payload != session.request.payload || row.resource.Some?
  {
    var row := session.seen.value.value;
    if row.payload != session.request.payload then Err(I.KeyConflict) else Ok(row.resource.value)
  }

  /** A keyed transaction first takes its command lock, and goes on only when its key was not there. */
  predicate MayGoOn(s: Keyed, t: Id) {
    t in s.sessions ==>
      || s.sessions[t].seen == Some(None)
      || (s.sessions[t].seen.None? && t in s.base.txs && s.base.txs[t].todo != [] && s.base.txs[t].todo[0].CommandLock?)
  }

  ghost function Reply(s: System, t: Id): Resource
    requires Commits(s, t)
  {
    Decide(s.txs[t].command, s.db.companies, s.txs[t].facts).reply
  }

  /** complete_command and commit. */
  ghost function Completed(s: Keyed, t: Id): Keyed
    requires Commits(s.base, t)
  {
    if t in s.sessions then
      var request, reply := s.sessions[t].request, Reply(s.base, t);
      Keyed(
        Finished(s.base, t), s.keys[request.slot := I.KeyRecord(request.payload, Some(reply))], s.sessions - {t},
        s.served + [Answered(request, Ok(reply))])
    else
      s.(base := Finished(s.base, t), served := s.served + [Unkeyed(s.base.txs[t].command)])
  }

  ghost function OtherStep(s: Keyed, e: Event): Keyed {
    match e
    case Begin(t, c, key) => if key.None? && !TakesKey(c) then s.(base := Step(s.base, e)) else s
    case Acquire(t) => if MayGoOn(s, t) then s.(base := Step(s.base, e)) else s
    case Advance(t) => if MayGoOn(s, t) then s.(base := Step(s.base, e)) else s
    case Finish(t) =>
      if Commits(s.base, t) && (t in s.sessions ==> s.sessions[t].seen == Some(None)) then Completed(s, t) else s
    case Abort(t) => s.(base := Step(s.base, e), sessions := s.sessions - {t})
  }

  /** An event that is not enabled leaves the system as it is. A failed command ends in an abort. */
  ghost function KeyedStep(lockId: LockId, s: Keyed, e: KeyedEvent): Keyed {
    match e
    case BeginKeyed(t, request) =>
      if !Opens(s, t, request) then s
      else
        s.(
          base := Step(s.base, Begin(t, request.command, Some(lockId(request.slot)))),
          sessions := s.sessions[t := Session(request, None)])
    case LookUp(t) =>
      if !Looks(lockId, s, t) then s
      else s.(sessions := s.sessions[t := s.sessions[t].(seen := Some(Found(s.keys, s.sessions[t].request.slot)))])
    case Answer(t) =>
      if !Repeats(s, t) then s
      else
        s.(
          base := Step(s.base, Abort(t)), sessions := s.sessions - {t},
          served := s.served + [Answered(s.sessions[t].request, AnswerOf(s.sessions[t]))])
    case Other(event) => OtherStep(s, event)
  }

  ghost function KeyedInterleave(lockId: LockId, s: Keyed, events: seq<KeyedEvent>): Keyed {
    if events == [] then s
    else KeyedStep(lockId, KeyedInterleave(lockId, s, events[..|events| - 1]), events[|events| - 1])
  }

  function KeyedStart(db: Ledger): Keyed { Keyed(Start(db), map[], map[], []) }

  // ---- The same requests one after the other ----------------------------------------------------

  function Serve(store: Store, entry: Entry): Store {
    match entry
    case Answered(request, _) => I.Submit(PAYMENTS, store, request).0
    case Unkeyed(command) => store.(ledger := Apply(store.ledger, command).0)
  }

  function ServeAll(store: Store, served: seq<Entry>): Store {
    if served == [] then store else Serve(ServeAll(store, served[..|served| - 1]), served[|served| - 1])
  }

  /** Every keyed request got the answer it would have got in the serial order. */
  ghost predicate AnsweredRight(store: Store, served: seq<Entry>) {
    forall i :: 0 <= i < |served| && served[i].Answered? ==>
      served[i].outcome == I.Submit(PAYMENTS, ServeAll(store, served[..i]), served[i].request).1
  }

  lemma {:induction false} ServedNext(store: Store, served: seq<Entry>, entry: Entry)
    requires AnsweredRight(store, served)
    requires entry.Answered? ==> entry.outcome == I.Submit(PAYMENTS, ServeAll(store, served), entry.request).1
    ensures ServeAll(store, served + [entry]) == Serve(ServeAll(store, served), entry)
    ensures AnsweredRight(store, served + [entry])
  {
    var all := served + [entry];
    assert all[..|served|] == served;
    forall i | 0 <= i < |all| && all[i].Answered?
      ensures all[i].outcome == I.Submit(PAYMENTS, ServeAll(store, all[..i]), all[i].request).1
    {
      assert i < |served| ==> all[..i] == served[..i];
    }
  }

  // ---- What every step keeps --------------------------------------------------------------------

  /** What a session saw under its command lock is still there. */
  ghost predicate SessionSound(lockId: LockId, s: Keyed, t: Id)
    requires t in s.sessions
  {
    var request, seen := s.sessions[t].request, s.sessions[t].seen;
    && t in s.base.txs && s.base.txs[t].command == request.command
    && Precheck(request.command).None? && I.ValidKey(request.slot.key)
    && (seen.Some? ==>
      Owns(s.base.owner, KeyLock(lockId, request.slot), t) && seen.value == Found(s.keys, request.slot))
  }

  ghost predicate SessionsSound(lockId: LockId, s: Keyed) {
    forall t {:trigger SessionSound(lockId, s, t)} :: t in s.sessions ==> SessionSound(lockId, s, t)
  }

  function StoreOf(s: Keyed): Store { I.Store.Store(s.base.db, s.keys) }

  ghost predicate Sound(lockId: LockId, db: Ledger, s: Keyed) {
    && Serial(db, s.base)
    && SessionsSound(lockId, s)
    && StoreOf(s) == ServeAll(I.Store.Store(db, map[]), s.served)
    && AnsweredRight(I.Store.Store(db, map[]), s.served)
  }

  /** A step of the ledger leaves every other transaction its command and its locks. */
  lemma {:induction false} OthersStay(s: System, e: Event, x: Id)
    requires x in s.txs && (e.Finish? || e.Abort? ==> e.tx != x)
    ensures x in Step(s, e).txs && Step(s, e).txs[x].command == s.txs[x].command
    ensures forall k :: Owns(s.owner, k, x) ==> Owns(Step(s, e).owner, k, x)
  {
  }

  lemma {:induction false} SessionsStay(lockId: LockId, s: Keyed, s': Keyed, e: Event)
    requires SessionsSound(lockId, s) && s'.base == Step(s.base, e) && s'.keys == s.keys
    requires s'.sessions.Keys <= s.sessions.Keys && forall t :: t in s'.sessions ==> s'.sessions[t] == s.sessions[t]
    requires e.Finish? || e.Abort? ==> e.tx !in s'.sessions
    ensures SessionsSound(lockId, s')
  {
    forall t | t in s'.sessions ensures SessionSound(lockId, s', t) {
      assert SessionSound(lockId, s, t);
      OthersStay(s.base, e, t);
    }
  }

  /** Two transactions never hold one command lock, so no key row changes under a session that saw it. */
  lemma {:induction false} CompletedSessions(lockId: LockId, s: Keyed, t: Id)
    requires SessionsSound(lockId, s) && Commits(s.base, t) && (t in s.sessions ==> s.sessions[t].seen.Some?)
    ensures SessionsSound(lockId, Completed(s, t))
  {
    var s' := Completed(s, t);
    if t in s.sessions {
      assert SessionSound(lockId, s, t);
    }
    forall x | x in s'.sessions ensures SessionSound(lockId, s', x) {
      assert SessionSound(lockId, s, x);
      OthersStay(s.base, Finish(t), x);
    }
  }

  lemma {:induction false} CompletedServed(lockId: LockId, db: Ledger, s: Keyed, t: Id)
    requires Sound(lockId, db, s) && Commits(s.base, t) && (t in s.sessions ==> s.sessions[t].seen == Some(None))
    ensures var s' := Completed(s, t);
      && StoreOf(s') == ServeAll(I.Store.Store(db, map[]), s'.served)
      && AnsweredRight(I.Store.Store(db, map[]), s'.served)
  {
    var store := I.Store.Store(db, map[]);
    CommitApplies(s.base, t);
    if t in s.sessions {
      assert SessionSound(lockId, s, t);
      var request, reply := s.sessions[t].request, Reply(s.base, t);
      I.SubmitCases(PAYMENTS, StoreOf(s), request, Finished(s.base, t).db, Ok(reply));
      ServedNext(store, s.served, Answered(request, Ok(reply)));
    } else {
      ServedNext(store, s.served, Unkeyed(s.base.txs[t].command));
    }
  }

  lemma {:induction false} CompletedSerial(db: Ledger, s: Keyed, t: Id)
    requires Serial(db, s.base) && Commits(s.base, t)
    ensures Serial(db, Completed(s, t).base)
  {
    FinishSerial(db, s.base, t);
  }

  lemma {:induction false} CompletedSound(lockId: LockId, db: Ledger, s: Keyed, t: Id)
    requires Sound(lockId, db, s) && Commits(s.base, t) && (t in s.sessions ==> s.sessions[t].seen == Some(None))
    ensures Sound(lockId, db, Completed(s, t))
  {
    CompletedSerial(db, s, t);
    CompletedSessions(lockId, s, t);
    CompletedServed(lockId, db, s, t);
  }

  /** A repeat is answered from the key row, and changes nothing. */
  lemma {:induction false} AnswerSound(lockId: LockId, db: Ledger, s: Keyed, t: Id)
    requires Sound(lockId, db, s) && Repeats(s, t)
    ensures Sound(lockId, db, KeyedStep(lockId, s, Answer(t)))
  {
    var s', session := KeyedStep(lockId, s, Answer(t)), s.sessions[t];
    assert SessionSound(lockId, s, t);
    StepSerial(db, s.base, Abort(t));
    SessionsStay(lockId, s, s', Abort(t));
    assert I.Submit(PAYMENTS, StoreOf(s), session.request) == (StoreOf(s), AnswerOf(session));
    ServedNext(I.Store.Store(db, map[]), s.served, Answered(session.request, AnswerOf(session)));
  }

  lemma {:induction false} OpenSound(lockId: LockId, db: Ledger, s: Keyed, t: Id, request: PaymentRequest)
    requires Sound(lockId, db, s) && Opens(s, t, request)
    ensures Sound(lockId, db, KeyedStep(lockId, s, BeginKeyed(t, request)))
  {
    var s' := KeyedStep(lockId, s, BeginKeyed(t, request));
    var begin := Begin(t, request.command, Some(lockId(request.slot)));
    StepSerial(db, s.base, begin);
    forall x | x in s'.sessions ensures SessionSound(lockId, s', x) {
      if x != t {
        assert SessionSound(lockId, s, x);
        OthersStay(s.base, begin, x);
      }
    }
  }

  lemma {:induction false} LookSound(lockId: LockId, db: Ledger, s: Keyed, t: Id)
    requires Sound(lockId, db, s) && Looks(lockId, s, t)
    ensures Sound(lockId, db, KeyedStep(lockId, s, LookUp(t)))
  {
    var s' := KeyedStep(lockId, s, LookUp(t));
    forall x | x in s'.sessions ensures SessionSound(lockId, s', x) {
      assert SessionSound(lockId, s, x);
    }
  }

  lemma {:induction false} OtherSound(lockId: LockId, db: Ledger, s: Keyed, e: Event)
    requires Sound(lockId, db, s)
    ensures Sound(lockId, db, OtherStep(s, e))
  {
    var s' := OtherStep(s, e);
    if e.Finish? {
      if s' != s {
        CompletedSound(lockId, db, s, e.tx);
      }
    } else if s' != s {
      StepSerial(db, s.base, e);
      SessionsStay(lockId, s, s', e);
    }
  }

  lemma {:induction false} KeyedStepSound(lockId: LockId, db: Ledger, s: Keyed, e: KeyedEvent)
    requires Sound(lockId, db, s)
    ensures Sound(lockId, db, KeyedStep(lockId, s, e))
  {
    match e
    case BeginKeyed(t, request) =>
      if Opens(s, t, request) {
        OpenSound(lockId, db, s, t, request);
      }
    case LookUp(t) =>
      if Looks(lockId, s, t) {
        LookSound(lockId, db, s, t);
      }
    case Answer(t) =>
      if Repeats(s, t) {
        AnswerSound(lockId, db, s, t);
      }
    case Other(event) => OtherSound(lockId, db, s, event);
  }

  /** In every interleaving of keyed requests and other commands, ledger and key table are those of the
      committed requests submitted one after the other in commit order, and every answer is the one
      the serial submission gives. */
  lemma {:induction false} KeyedSerializable(lockId: LockId, db: Ledger, events: seq<KeyedEvent>)
    ensures var s := KeyedInterleave(lockId, KeyedStart(db), events);
      && Sound(lockId, db, s)
      && StoreOf(s) == ServeAll(I.Store.Store(db, map[]), s.served)
      && AnsweredRight(I.Store.Store(db, map[]), s.served)
    decreases |events|
  {
    if events == [] {
      assert Sound(lockId, db, KeyedStart(db));
    } else {
      KeyedSerializable(lockId, db, events[..|events| - 1]);
      KeyedStepSound(lockId, db, KeyedInterleave(lockId, KeyedStart(db), events[..|events| - 1]), events[|events| - 1]);
    }
  }

  // ---- Retries under interleaving ---------------------------------------------------------------

  function Requests(served: seq<Entry>): seq<PaymentRequest>
    requires forall entry :: entry in served ==> entry.Answered?
  {
    if served == [] then [] else Requests(served[..|served| - 1]) + [served[|served| - 1].request]
  }

  lemma {:induction false} ServeIsSubmit(store: Store, served: seq<Entry>)
    requires forall entry :: entry in served ==> entry.Answered?
    ensures ServeAll(store, served) == I.SubmitAll(PAYMENTS, store, Requests(served))
  {
    if served != [] {
      var init := served[..|served| - 1];
      ServeIsSubmit(store, init);
      assert Requests(served)[..|Requests(served)| - 1] == Requests(init);
    }
  }

  /** Keyed payment commands alone: whatever the interleaving, the ledger is that of running, in commit
      order, each request whose key had not completed before. */
  lemma {:induction false} InterleavedRetries(lockId: LockId, db: Ledger, events: seq<KeyedEvent>)
    requires forall entry :: entry in KeyedInterleave(lockId, KeyedStart(db), events).served ==> entry.Answered?
    ensures var s := KeyedInterleave(lockId, KeyedStart(db), events);
      s.base.db == CustomerLedger.Run(db, Commands(I.FirstOnly(PAYMENTS, db, Requests(s.served))))
  {
    var s := KeyedInterleave(lockId, KeyedStart(db), events);
    KeyedSerializable(lockId, db, events);
    ServeIsSubmit(I.Store.Store(db, map[]), s.served);
    RetriesRefineLedger(db, Requests(s.served));
  }
}
