/** Idempotent commands: a key row decides whether a request runs, replays or conflicts, and commits or
    rolls back together with the command's own writes. Generic in the ledger the commands act on. */
module Idempotency {
  import opened Prelude

  datatype Slot<S(==)> = Slot(scope: S, key: string)

  /** `payload` is what request_hash digests; `resource` is set by complete_command. */
  datatype KeyRecord<P(==), R> = KeyRecord(payload: P, resource: Option<R>)

  datatype Store<L, S(==), P(==), R> = Store(ledger: L, keys: map<Slot<S>, KeyRecord<P, R>>)

  datatype Request<S(==), P(==), C> = Request(slot: Slot<S>, payload: P, command: C)

  datatype Refusal<E> = InvalidKey | KeyConflict | Failed(error: E)

  /** The service a request is sent to: `precheck` fails before the transaction, `exec` inside it. */
  datatype Service<!L, !C, R, E> = Service(precheck: C -> Option<E>, exec: (L, C) -> (L, Result<R, E>))

  const SPACES: set<char> := {' ', '\t', '\n', '\r'}

  predicate Blank(key: string) { forall i :: 0 <= i < |key| ==> key[i] in SPACES }

  predicate ValidKey(key: string) { !Blank(key) && |key| <= 255 }

  predicate Completed<L, S(==), P(==), R>(store: Store<L, S, P, R>, slot: Slot<S>) {
    slot in store.keys && store.keys[slot].resource.Some?
  }

  /** One request: begin_command, the command, complete_command, commit; any failure rolls back. */
  function Submit<L, S(==), P(==), C, R, E>(service: Service<L, C, R, E>, store: Store<L, S, P, R>,
      request: Request<S, P, C>)
    : (Store<L, S, P, R>, Result<R, Refusal<E>>)
  {
    var early := service.precheck(request.command);
    var slot := request.slot;
    if early.Some? then (store, Err(Failed(early.value)))
    else if !ValidKey(slot.key) then (store, Err(InvalidKey))
    else if slot in store.keys && store.keys[slot].payload != request.payload then (store, Err(KeyConflict))
    else if Completed(store, slot) then (store, Ok(store.keys[slot].resource.value))
    else
      var (ledger, result) := service.exec(store.ledger, request.command);
      match result
      case Err(error) => (store, Err(Failed(error)))
      case Ok(resource) => (Store(ledger, store.keys[slot := KeyRecord(request.payload, Some(resource))]), Ok(resource))
  }

  /** Submit, with the command's own outcome given. */
  lemma SubmitCases<L, S, P, C, R, E>(
      service: Service<L, C, R, E>, store: Store<L, S, P, R>, request: Request<S, P, C>, ledger: L,
      result: Result<R, E>)
    requires service.precheck(request.command).None? && ValidKey(request.slot.key)
    requires request.slot in store.keys ==> store.keys[request.slot] == KeyRecord(request.payload, None)
    requires result == service.exec(store.ledger, request.command).1
    requires result.Ok? ==> ledger == service.exec(store.ledger, request.command).0
    ensures Submit(service, store, request) ==
      match result
      case Err(error) => (store, Err(Failed(error)))
      case Ok(resource) => (Store(ledger, store.keys[request.slot := KeyRecord(request.payload, Some(resource))]),
        Ok(resource))
  {
  }

  function SubmitAll<L, S(==), P(==), C, R, E>(service: Service<L, C, R, E>, store: Store<L, S, P, R>,
      requests: seq<Request<S, P, C>>)
    : Store<L, S, P, R>
  {
    if requests == [] then store else
      Submit(service, SubmitAll(service, store, requests[..|requests| - 1]), requests[|requests| - 1]).0
  }

  /** A key has 1 to 255 characters, not all of them white space. */
  lemma {:induction false} KeyNeeds(key: string)
    ensures ValidKey(key) <==>
      |key| <= 255 && exists i :: 0 <= i < |key| && key[i] != ' ' && key[i] != '\t' && key[i] != '\n' && key[i] != '\r'
  {
  }

  /** What a request is answered, and when it changes anything: only a valid new key whose command succeeds
      does, and then the key remembers payload and resource. */
  lemma {:induction false} SubmitAnswers<L, S, P, C, R, E>(
      service: Service<L, C, R, E>, store: Store<L, S, P, R>, request: Request<S, P, C>)
    requires service.precheck(request.command).None?
    requires request.slot in store.keys ==> store.keys[request.slot].resource.Some?
    ensures var answer, known := Submit(service, store, request), request.slot in store.keys;
      var run := service.exec(store.ledger, request.command);
      && (!ValidKey(request.slot.key) ==> answer == (store, Err(InvalidKey)))
      && (ValidKey(request.slot.key) && known && store.keys[request.slot].payload != request.payload ==>
            answer == (store, Err(KeyConflict)))
      && (ValidKey(request.slot.key) && known && store.keys[request.slot].payload == request.payload ==>
            answer == (store, Ok(store.keys[request.slot].resource.value)))
      && (ValidKey(request.slot.key) && !known && run.1.Err? ==> answer == (store, Err(Failed(run.1.error))))
      && (ValidKey(request.slot.key) && !known && run.1.Ok? ==>
            && answer.1 == Ok(run.1.value) && answer.0.ledger == run.0
            && answer.0.keys == store.keys[request.slot := KeyRecord(request.payload, Some(run.1.value))])
  {
  }

  // ---- The stream without repeats, defined without a key table ----------------------------------

  /** A client that sends a command plainly. */
  function Send<L, S(==), P(==), C, R, E>(service: Service<L, C, R, E>, ledger: L, request: Request<S, P, C>): (L, bool)
  {
    if service.precheck(request.command).Some? || !ValidKey(request.slot.key) then (ledger, false)
    else
      var (after, result) := service.exec(ledger, request.command);
      if result.Ok? then (after, true) else (ledger, false)
  }

  function SendAll<L, S(==), P(==), C, R, E>(service: Service<L, C, R, E>, ledger: L, requests: seq<Request<S, P, C>>)
      : L
  {
    if requests == [] then ledger else
      Send(service, SendAll(service, ledger, requests[..|requests| - 1]), requests[|requests| - 1]).0
  }

  /** The keys whose command has succeeded when the requests are sent plainly. */
  function Done<L, S(==), P(==), C, R, E>(service: Service<L, C, R, E>, ledger: L, requests: seq<Request<S, P, C>>)
      : set<Slot<S>>
  {
    if requests == [] then {} else
      var init, last := requests[..|requests| - 1], requests[|requests| - 1];
      var done := Done(service, ledger, init);
      if Send(service, SendAll(service, ledger, init), last).1 then done + {last.slot} else done
  }

  /** The stream with every request dropped whose key has already completed. */
  function FirstOnly<L, S(==), P(==), C, R, E>(service: Service<L, C, R, E>, ledger: L, requests: seq<Request<S, P, C>>)
    : (kept: seq<Request<S, P, C>>)
  {
    if requests == [] then [] else
      var kept := FirstOnly(service, ledger, requests[..|requests| - 1]);
      var last := requests[|requests| - 1];
      if last.slot in Done(service, ledger, kept) then kept else kept + [last]
  }

  // ---- Retry refinement -------------------------------------------------------------------------

  /** A committed key row always carries its resource. */
  ghost predicate NoneInProgress<L, S(!new), P, R>(store: Store<L, S, P, R>) {
    forall slot :: slot in store.keys ==> store.keys[slot].resource.Some?
  }

  lemma SubmitKeepsCompleted<L, S(!new), P, C, R, E>(service: Service<L, C, R, E>, store: Store<L, S, P, R>,
      request: Request<S, P, C>)
    requires NoneInProgress(store)
    ensures NoneInProgress(Submit(service, store, request).0)
  {
  }

  lemma {:induction false} SentLast<L, S, P, C, R, E>(service: Service<L, C, R, E>,
    ledger: L, init: seq<Request<S, P, C>>, last: Request<S, P, C>)
    ensures SendAll(service, ledger, init + [last]) == Send(service, SendAll(service, ledger, init), last).0
    ensures Done(service, ledger, init + [last])
      == Done(service, ledger, init) + if Send(service, SendAll(service, ledger, init), last).1 then {last.slot} else {}
  {
  }

  /** One more request: the key table and the plain stream stay in step. */
  lemma {:induction false} RetryStep<L, S(!new), P, C, R, E>(
      service: Service<L, C, R, E>, ledger: L, kept: seq<Request<S, P, C>>, store: Store<L, S, P, R>,
      last: Request<S, P, C>)
    requires store.ledger == SendAll(service, ledger, kept) && store.keys.Keys == Done(service, ledger, kept)
      && NoneInProgress(store)
    ensures
      var after := Submit(service, store, last).0;
      var all := if last.slot in Done(service, ledger, kept) then kept else kept + [last];
      && after.ledger == SendAll(service, ledger, all)
      && after.keys.Keys == Done(service, ledger, all)
      && NoneInProgress(after)
  {
    SubmitKeepsCompleted(service, store, last);
    SentLast(service, ledger, kept, last);
  }

  /** Any stream with repeats and failed attempts leaves the ledger that the stream without the
      repeats leaves, and the completed keys are exactly the ones that succeeded in it. */
  lemma {:induction false} RetryRefinement<L, S(!new), P, C, R, E>(service: Service<L, C, R, E>, ledger: L,
      requests: seq<Request<S, P, C>>)
    ensures var store, kept := SubmitAll(service, Store(ledger, map[]), requests), FirstOnly(service, ledger, requests);
      && store.ledger == SendAll(service, ledger, kept)
      && store.keys.Keys == Done(service, ledger, kept)
      && NoneInProgress(store)
  {
    if requests != [] {
      var init, last := requests[..|requests| - 1], requests[|requests| - 1];
      RetryRefinement(service, ledger, init);
      var kept := FirstOnly(service, ledger, init);
      var store: Store<L, S, P, R> := SubmitAll(service, Store(ledger, map[]), init);
      RetryStep(service, ledger, kept, store, last);
    }
  }

  // ---- What a key remembers ---------------------------------------------------------------------

  lemma {:induction false} RecordStays<L, S, P, C, R, E>(
      service: Service<L, C, R, E>, store: Store<L, S, P, R>, requests: seq<Request<S, P, C>>, slot: Slot<S>)
    requires Completed(store, slot)
    ensures Completed(SubmitAll(service, store, requests), slot)
    ensures SubmitAll(service, store, requests).keys[slot] == store.keys[slot]
  {
    if requests != [] {
      RecordStays(service, store, requests[..|requests| - 1], slot);
    }
  }

  /** After a success, and whatever is sent in between, the same key replays: the store is left alone,
      the same payload gets the original resource, and another payload gets no effect at all. */
  lemma {:induction false} Replay<L, S, P, C, R, E>(
      service: Service<L, C, R, E>, store: Store<L, S, P, R>, first: Request<S, P, C>,
      between: seq<Request<S, P, C>>, again: Request<S, P, C>)
    requires Submit(service, store, first).1.Ok? && again.slot == first.slot
    ensures var later := SubmitAll(service, Submit(service, store, first).0, between);
      && Submit(service, later, again).0 == later
      && (Submit(service, later, again).1.Ok? ==> Submit(service, later, again).1 == Submit(service, store, first).1)
      && (Submit(service, later, again).1.Ok? <==>
        again.payload == first.payload && service.precheck(again.command).None?)
  {
    RecordStays(service, Submit(service, store, first).0, between, first.slot);
  }

  /** Request `i` of a stream ran its command and committed. */
  ghost predicate TookEffect<L, S, P, C, R, E>(service: Service<L, C, R, E>,
    store: Store<L, S, P, R>, requests: seq<Request<S, P, C>>, i: nat)
    requires i < |requests|
  {
    var before := SubmitAll(service, store, requests[..i]);
    Submit(service, before, requests[i]).1.Ok? && !Completed(before, requests[i].slot)
  }

  lemma {:induction false} SubmitSplit<L, S, P, C, R, E>(
      service: Service<L, C, R, E>, store: Store<L, S, P, R>, a: seq<Request<S, P, C>>, b: seq<Request<S, P, C>>)
    ensures SubmitAll(service, store, a + b) == SubmitAll(service, SubmitAll(service, store, a), b)
  {
    if b == [] {
      assert a + b == a;
    } else {
      SubmitSplit(service, store, a, b[..|b| - 1]);
      assert (a + b)[..|a + b| - 1] == a + b[..|b| - 1];
    }
  }

  /** No key takes effect twice. */
  lemma {:induction false} AtMostOnce<L, S, P, C, R, E>(
      service: Service<L, C, R, E>, store: Store<L, S, P, R>, requests: seq<Request<S, P, C>>, i: nat, j: nat)
    requires i < j < |requests| && requests[i].slot == requests[j].slot
    ensures !(TookEffect(service, store, requests, i) && TookEffect(service, store, requests, j))
  {
    if TookEffect(service, store, requests, i) {
      var before := SubmitAll(service, store, requests[..i]);
      var after := Submit(service, before, requests[i]).0;
      assert requests[..j] == requests[..i + 1] + requests[i + 1..j];
      assert requests[..i + 1][..i] == requests[..i];
      SubmitSplit(service, store, requests[..i + 1], requests[i + 1..j]);
      RecordStays(service, after, requests[i + 1..j], requests[i].slot);
    }
  }

  /** A refused or replayed request changes nothing. */
  lemma NoEffectNoChange<L, S, P, C, R, E>(service: Service<L, C, R, E>, store: Store<L, S, P, R>,
      requests: seq<Request<S, P, C>>, i: nat)
    requires i < |requests| && !TookEffect(service, store, requests, i)
    ensures Submit(service, SubmitAll(service, store, requests[..i]), requests[i]).0
      == SubmitAll(service, store, requests[..i])
  {
  }
}
