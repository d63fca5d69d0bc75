/** The AI run lease: one run row and its job row, any number of worker executions, a fenced commit.

    A lease id is fresh for every execution, so it also names the execution. Time is in seconds. */
module AiRun {
  import opened Prelude

  datatype Status = Pending | Running | Succeeded | Failed

  datatype Tool = SearchCompanies | OrderTimeline | OrderProfit | ReadOrder

  datatype Intent = Search | Timeline | Profit | EmailDraft | TaskDraft

  datatype ErrorCode = ProviderUnavailable | AttemptsExhausted | MissingEvidence | TurnLimit | OtherError

  datatype RunRow = RunRow(
    status: Status, lease: Option<Id>, startedAt: Option<int>, attempts: nat, error: Option<ErrorCode>,
    output: Option<seq<Tool>>)

  datatype JobRow = JobRow(status: Status, attempts: nat, maxAttempts: nat, progress: nat, error: Option<ErrorCode>)

  /** A row of ai_tool_calls. */
  datatype Receipt = Receipt(lease: Id, tool: Tool, succeeded: bool)

  /** Where one execution is in its loop. */
  datatype Phase =
    | Asking
    | Calling(tool: Tool, succeeds: bool)
    | Rejecting(left: nat, tool: Tool, resume: bool)
    | Done(error: Option<ErrorCode>)

  datatype Exec = Exec(attempt: nat, turns: nat, facts: seq<Tool>, phase: Phase)

  /** `turnsOf` and `verdicts` are history: provider turns per attempt, and terminal commits. */
  datatype System = System(
    now: int, intent: Intent, run: RunRow, job: JobRow, receipts: seq<Receipt>, execs: map<Id, Exec>,
    turnsOf: map<nat, nat>, verdicts: nat)

  /** What the authority check, the provider and the tool do in one iteration of the loop. */
  datatype Reply =
    | Denied
    | Unavailable
    | ProviderFails
    | Final(valid: bool)
    | Many(count: nat, tool: Tool, resume: bool)
    | Malformed(tool: Tool)
    | Call(tool: Tool, succeeds: bool)

  datatype Step =
    | Tick(later: int)
    | Deliver(lease: Id)
    | Ask(lease: Id, reply: Reply)
    | CommitReceipt(lease: Id)
    | Finish(lease: Id, authorised: bool)
    | Crash(lease: Id)

  const LEASE: int := 240
  const MAX_TURNS: nat := 4

  function Required(intent: Intent): Tool {
    match intent
    case Search => SearchCompanies
    case Timeline => OrderTimeline
    case Profit => OrderProfit
    case EmailDraft => ReadOrder
    case TaskDraft => ReadOrder
  }

  predicate Terminal(status: Status) { status == Succeeded || status == Failed }

  /** Another execution holds the lease. */
  predicate Busy(run: RunRow, now: int) {
    run.status == Running && run.startedAt.Some? && run.startedAt.value > now - LEASE
  }

  // ---- Steps ------------------------------------------------------------------------------------

  predicate Starts(s: System, l: Id) {
    l !in s.execs && !Terminal(s.run.status) && !Busy(s.run, s.now) && s.run.lease != Some(l)
  }

  /** The first transaction of execute(), with start_ai_attempt. */
  function Started(s: System, l: Id): System {
    var attempt := s.run.attempts + 1;
    var phase := if attempt > s.job.maxAttempts then Done(Some(AttemptsExhausted)) else Asking;
    s.(
      run := s.run.(status := Running, lease := Some(l), startedAt := Some(s.now), attempts := attempt),
      job := s.job.(status := Running, attempts := attempt),
      execs := s.execs[l := Exec(attempt, 0, [], phase)])
  }

  /** The loop goes round again, or has used up its turns. */
  function GoRound(e: Exec): Exec {
    e.(phase := if e.turns >= MAX_TURNS then Done(Some(TurnLimit)) else Asking)
  }

  function Fail(e: Exec, error: ErrorCode): Exec { e.(phase := Done(Some(error))) }

  function Answered(e: Exec, intent: Intent, reply: Reply): Exec {
    var turn := e.(turns := e.turns + 1);
    match reply
    case Denied => Fail(e, OtherError)
    case Unavailable => Fail(turn, ProviderUnavailable)
    case ProviderFails => Fail(turn, OtherError)
    case Final(valid) =>
      if Required(intent) !in e.facts then Fail(turn, MissingEvidence)
      else if valid then turn.(phase := Done(None))
      else Fail(turn, OtherError)
    case Many(count, tool, resume) => turn.(phase := Rejecting(count, tool, resume))
    case Malformed(tool) => turn.(phase := Rejecting(1, tool, false))
    case Call(tool, succeeds) => turn.(phase := Calling(tool, succeeds))
  }

  predicate Fenced(s: System, l: Id) { s.run.lease == Some(l) }

  /** The receipt transaction of _call: the fence, then the row. */
  function Receipted(s: System, l: Id): System
    requires l in s.execs && (s.execs[l].phase.Calling? || s.execs[l].phase.Rejecting?)
  {
    var e := s.execs[l];
    match e.phase
    case Calling(tool, succeeds) =>
      if !Fenced(s, l) then s.(execs := s.execs[l := Fail(e, OtherError)])
      else
        s.(
          receipts := s.receipts + [Receipt(l, tool, succeeds)],
          execs := s.execs[l := if succeeds then GoRound(e.(facts := e.facts + [tool])) else Fail(e, OtherError)])
    case Rejecting(left, tool, resume) =>
      if left == 0 then s.(execs := s.execs[l := if resume then GoRound(e) else Fail(e, OtherError)])
      else if !Fenced(s, l) then s.(execs := s.execs[l := Fail(e, OtherError)])
      else
        s.(
          receipts := s.receipts + [Receipt(l, tool, false)],
          execs := s.execs[l := e.(phase := Rejecting(left - 1, tool, resume))])
  }

  /** finish_ai_attempt. */
  function Retries(error: Option<ErrorCode>, attempts: nat, maxAttempts: nat): bool {
    error == Some(ProviderUnavailable) && attempts < maxAttempts
  }

  function Outcome(error: Option<ErrorCode>, retry: bool): Status {
    if retry then Pending else if error.Some? then Failed else Succeeded
  }

  /** The last transaction of execute(): the fence, the authority check, then both rows. */
  function Finished(s: System, l: Id, authorised: bool): System
    requires l in s.execs && s.execs[l].phase.Done?
  {
    var e := s.execs[l];
    if !Fenced(s, l) then s.(execs := s.execs - {l})
    else
      var error := if authorised then e.phase.error else Some(OtherError);
      var retry := Retries(error, s.run.attempts, s.job.maxAttempts);
      var status := Outcome(error, retry);
      s.(
        run := s.run.(
          status := status, lease := None, error := error,
          output := if error.None? then Some(e.facts) else s.run.output),
        job := s.job.(status := status, progress := if retry then 0 else 100, error := error),
        execs := s.execs - {l},
        verdicts := s.verdicts + if retry then 0 else 1)
  }

  function Next(s: System, step: Step): System {
    match step
    case Tick(later) => if later >= s.now then s.(now := later) else s
    case Deliver(l) => if Starts(s, l) then Started(s, l) else s
    case Ask(l, reply) =>
      if l in s.execs && s.execs[l].phase.Asking? then
        var e := s.execs[l];
        s.(
          execs := s.execs[l := Answered(e, s.intent, reply)],
          turnsOf := if reply.Denied? then s.turnsOf else s.turnsOf[e.attempt := e.turns + 1])
      else s
    case CommitReceipt(l) =>
      if l in s.execs && (s.execs[l].phase.Calling? || s.execs[l].phase.Rejecting?) then Receipted(s, l) else s
    case Finish(l, authorised) => if l in s.execs && s.execs[l].phase.Done? then Finished(s, l, authorised) else s
    case Crash(l) => s.(execs := s.execs - {l})
  }

  function Run(s: System, steps: seq<Step>): System {
    if steps == [] then s else Next(Run(s, steps[..|steps| - 1]), steps[|steps| - 1])
  }

  function Start(now: int, intent: Intent, maxAttempts: nat): System {
    System(
      now, intent, RunRow(Pending, None, None, 0, None, None), JobRow(Pending, 0, maxAttempts, 0, None),
      [], map[], map[], 0)
  }

  // ---- The invariant ----------------------------------------------------------------------------

  /** Run and job agree; a lease is held exactly while running; one verdict, and output, exactly at the end. */
  ghost predicate RowsAgree(s: System) {
    && s.run.status == s.job.status && s.run.attempts == s.job.attempts && s.run.error == s.job.error
    && (s.run.status == Running <==> s.run.lease.Some?)
    && (s.run.output.Some? <==> s.run.status == Succeeded)
    && s.verdicts == (if Terminal(s.run.status) then 1 else 0)
  }

  ghost predicate Evidenced(s: System, l: Id)
    requires l in s.execs
  {
    var e := s.execs[l];
    && (forall tool :: tool in e.facts ==> Receipt(l, tool, true) in s.receipts)
    && (e.phase == Done(None) ==> Required(s.intent) in e.facts)
  }

  /** Attempt numbers are never reused, and only the newest attempt can hold the lease. */
  ghost predicate Placed(s: System, l: Id)
    requires l in s.execs
  {
    var e := s.execs[l];
    && 1 <= e.attempt <= s.run.attempts
    && (Fenced(s, l) <==> s.run.status == Running && e.attempt == s.run.attempts)
    && e.turns <= MAX_TURNS && (e.phase.Asking? ==> e.turns < MAX_TURNS)
    && (e.attempt > s.job.maxAttempts ==> e.phase.Done? && e.turns == 0)
    && GetOr(s.turnsOf, e.attempt, 0) == e.turns
  }

  ghost predicate ExecsSound(s: System) {
    && (forall l {:trigger Placed(s, l)} :: l in s.execs ==> Placed(s, l))
    && (forall l {:trigger Evidenced(s, l)} :: l in s.execs ==> Evidenced(s, l))
    && (forall l, m :: l in s.execs && m in s.execs && s.execs[l].attempt == s.execs[m].attempt ==> l == m)
  }

  ghost predicate TurnsSound(s: System) {
    forall a :: a in s.turnsOf ==> 1 <= a <= s.run.attempts && a <= s.job.maxAttempts && s.turnsOf[a] <= MAX_TURNS
  }

  ghost predicate SuccessEvidenced(s: System) {
    s.run.status == Succeeded ==> exists l :: Receipt(l, Required(s.intent), true) in s.receipts
  }

  ghost predicate Invariant(s: System) { RowsAgree(s) && ExecsSound(s) && TurnsSound(s) && SuccessEvidenced(s) }

  // ---- Every step keeps it ----------------------------------------------------------------------

  lemma {:induction false} DeliverKeeps(s: System, l: Id)
    requires Invariant(s) && Starts(s, l)
    ensures Invariant(Started(s, l))
  {
    var s' := Started(s, l);
    forall m | m in s'.execs ensures Placed(s', m) && Evidenced(s', m) {
      if m != l {
        assert Placed(s, m) && Evidenced(s, m);
      }
    }
    forall m, n | m in s'.execs && n in s'.execs && s'.execs[m].attempt == s'.execs[n].attempt ensures m == n {
      if m != l {
        assert Placed(s, m);
      }
      if n != l {
        assert Placed(s, n);
      }
    }
  }

  lemma {:induction false} AskKeeps(s: System, l: Id, reply: Reply)
    requires Invariant(s) && l in s.execs && s.execs[l].phase.Asking?
    ensures Invariant(Next(s, Ask(l, reply)))
  {
    var s' := Next(s, Ask(l, reply));
    assert Placed(s, l) && Evidenced(s, l);
    forall m | m in s'.execs ensures Placed(s', m) && Evidenced(s', m) {
      assert Placed(s, m) && Evidenced(s, m);
    }
  }

  lemma {:induction false} ReceiptPlaced(s: System, l: Id, m: Id)
    requires Invariant(s) && l in s.execs && (s.execs[l].phase.Calling? || s.execs[l].phase.Rejecting?) && m in s.execs
    ensures m in Receipted(s, l).execs && Placed(Receipted(s, l), m) && Evidenced(Receipted(s, l), m)
    ensures Receipted(s, l).execs[m].attempt == s.execs[m].attempt
  {
    assert Placed(s, m) && Evidenced(s, m);
  }

  lemma {:induction false} ReceiptKeeps(s: System, l: Id)
    requires Invariant(s) && l in s.execs && (s.execs[l].phase.Calling? || s.execs[l].phase.Rejecting?)
    ensures Invariant(Receipted(s, l))
  {
    var s' := Receipted(s, l);
    forall m | m in s'.execs ensures Placed(s', m) && Evidenced(s', m) && s'.execs[m].attempt == s.execs[m].attempt {
      ReceiptPlaced(s, l, m);
    }
    if s.run.status == Succeeded {
      var m :| Receipt(m, Required(s.intent), true) in s.receipts;
      assert Receipt(m, Required(s.intent), true) in s'.receipts;
    }
  }

  lemma {:induction false} FinishKeeps(s: System, l: Id, authorised: bool)
    requires Invariant(s) && l in s.execs && s.execs[l].phase.Done?
    ensures Invariant(Finished(s, l, authorised))
  {
    var s' := Finished(s, l, authorised);
    assert Placed(s, l) && Evidenced(s, l);
    forall m | m in s'.execs ensures Placed(s', m) && Evidenced(s', m) {
      assert Placed(s, m) && Evidenced(s, m);
    }
    if s'.run.status == Succeeded && Fenced(s, l) {
      assert Receipt(l, Required(s.intent), true) in s'.receipts;
    }
  }

  lemma {:induction false} CrashKeeps(s: System, l: Id)
    requires Invariant(s)
    ensures Invariant(s.(execs := s.execs - {l}))
  {
    var s' := s.(execs := s.execs - {l});
    forall m | m in s'.execs ensures Placed(s', m) && Evidenced(s', m) {
      assert Placed(s, m) && Evidenced(s, m);
    }
  }

  lemma {:induction false} TickKeeps(s: System, later: int)
    requires Invariant(s)
    ensures Invariant(s.(now := later))
  {
    var s' := s.(now := later);
    forall m | m in s'.execs ensures Placed(s', m) && Evidenced(s', m) {
      assert Placed(s, m) && Evidenced(s, m);
    }
  }

  lemma {:induction false} StepKeeps(s: System, step: Step)
    requires Invariant(s)
    ensures Invariant(Next(s, step))
  {
    match step
    case Tick(later) => TickKeeps(s, later);
    case Deliver(l) =>
      if Starts(s, l) {
        DeliverKeeps(s, l);
      }
    case Ask(l, reply) =>
      if l in s.execs && s.execs[l].phase.Asking? {
        AskKeeps(s, l, reply);
      }
    case CommitReceipt(l) =>
      if l in s.execs && (s.execs[l].phase.Calling? || s.execs[l].phase.Rejecting?) {
        ReceiptKeeps(s, l);
      }
    case Finish(l, authorised) =>
      if l in s.execs && s.execs[l].phase.Done? {
        FinishKeeps(s, l, authorised);
      }
    case Crash(l) => CrashKeeps(s, l);
  }

  lemma {:induction false} RunKeeps(s: System, steps: seq<Step>)
    requires Invariant(s)
    ensures Invariant(Run(s, steps))
  {
    if steps != [] {
      RunKeeps(s, steps[..|steps| - 1]);
      StepKeeps(Run(s, steps[..|steps| - 1]), steps[|steps| - 1]);
    }
  }

  /** Over all duplicate deliveries, crashes and slow executors: run and job agree, at most one verdict is
      ever committed, and output is there exactly when the run succeeded. */
  lemma {:induction false} OneVerdict(now: int, intent: Intent, maxAttempts: nat, steps: seq<Step>)
    ensures var s := Run(Start(now, intent, maxAttempts), steps);
      && Invariant(s)
      && s.run.status == s.job.status && s.run.attempts == s.job.attempts
      && s.verdicts <= 1 && (s.verdicts == 1 <==> Terminal(s.run.status))
      && (s.run.output.Some? <==> s.run.status == Succeeded)
  {
    var s0 := Start(now, intent, maxAttempts);
    assert Invariant(s0);
    RunKeeps(s0, steps);
  }

  /** A terminal run is never changed again, nor is its job. */
  lemma {:induction false} Absorbing(s: System, steps: seq<Step>)
    requires Invariant(s) && Terminal(s.run.status)
    ensures Run(s, steps).run == s.run && Run(s, steps).job == s.job && Run(s, steps).verdicts == s.verdicts
  {
    if steps != [] {
      var before := Run(s, steps[..|steps| - 1]);
      Absorbing(s, steps[..|steps| - 1]);
      RunKeeps(s, steps[..|steps| - 1]);
      TerminalStep(before, steps[|steps| - 1]);
    }
  }

  lemma {:induction false} TerminalStep(s: System, step: Step)
    requires Invariant(s) && Terminal(s.run.status)
    ensures Next(s, step).run == s.run && Next(s, step).job == s.job && Next(s, step).verdicts == s.verdicts
  {
  }

  /** An execution whose attempt is not the newest changes neither row and commits no receipt. */
  lemma {:induction false} OldAttemptIsFenced(s: System, step: Step, l: Id)
    requires Invariant(s) && l in s.execs && s.execs[l].attempt < s.run.attempts
    requires step == CommitReceipt(l) || step == Finish(l, true) || step == Finish(l, false) || step == Crash(l)
      || exists reply :: step == Ask(l, reply)
    ensures Next(s, step).run == s.run && Next(s, step).job == s.job && Next(s, step).receipts == s.receipts
  {
    assert Placed(s, l);
  }

  /** Success needs a committed successful call of the intent's required tool. */
  lemma {:induction false} SuccessHasEvidence(now: int, intent: Intent, maxAttempts: nat, steps: seq<Step>)
    ensures var s := Run(Start(now, intent, maxAttempts), steps);
      s.run.status == Succeeded ==> exists l :: Receipt(l, Required(s.intent), true) in s.receipts
  {
    OneVerdict(now, intent, maxAttempts, steps);
  }

  // ---- The work bound ---------------------------------------------------------------------------

  ghost function TurnsTaken(s: System): int {
    SumOver(s.turnsOf.Keys, (a: nat) => GetOr(s.turnsOf, a, 0))
  }

  lemma {:induction false} BoundedSum(keys: set<nat>, f: nat -> int, top: nat, each: nat)
    requires forall a :: a in keys ==> 1 <= a <= top && 0 <= f(a) <= each
    ensures SumOver(keys, f) <= each * top
    decreases top
  {
    if top == 0 {
      assert keys == {};
    } else {
      BoundedSum(keys - {top}, f, top - 1, each);
      Multiples(each, top);
      if top in keys {
        SumOverPick(keys, top, f);
      } else {
        assert keys - {top} == keys;
      }
    }
  }

  lemma {:induction false} TurnsBounded(now: int, intent: Intent, maxAttempts: nat, steps: seq<Step>)
    ensures var s := Run(Start(now, intent, maxAttempts), steps);
      s.job.maxAttempts == maxAttempts && TurnsTaken(s) <= MAX_TURNS * maxAttempts
  {
    var s := Run(Start(now, intent, maxAttempts), steps);
    OneVerdict(now, intent, maxAttempts, steps);
    SameLimit(Start(now, intent, maxAttempts), steps);
    BoundedSum(s.turnsOf.Keys, (a: nat) => GetOr(s.turnsOf, a, 0), maxAttempts, MAX_TURNS);
  }

  lemma {:induction false} SameLimit(s: System, steps: seq<Step>)
    ensures Run(s, steps).job.maxAttempts == s.job.maxAttempts
  {
    if steps != [] {
      SameLimit(s, steps[..|steps| - 1]);
    }
  }

  /** The step calls the provider: an execution is asking, and its authority check has passed. */
  predicate CallsProvider(s: System, step: Step) {
    step.Ask? && step.lease in s.execs && s.execs[step.lease].phase.Asking? && !step.reply.Denied?
  }

  /** How often a run calls the provider. */
  function ProviderCalls(s: System, steps: seq<Step>): nat {
    if steps == [] then 0 else
      var init, last := steps[..|steps| - 1], steps[|steps| - 1];
      ProviderCalls(s, init) + if CallsProvider(Run(s, init), last) then 1 else 0
  }

  lemma {:induction false} TurnsCounted(s: System, step: Step)
    requires Invariant(s)
    ensures TurnsTaken(Next(s, step)) == TurnsTaken(s) + if CallsProvider(s, step) then 1 else 0
  {
    if CallsProvider(s, step) {
      var e := s.execs[step.lease];
      assert Placed(s, step.lease);
      TurnAdded(s.turnsOf, e.attempt, e.turns);
    }
  }

  lemma {:induction false} TurnAdded(turnsOf: map<nat, nat>, a: nat, n: nat)
    requires GetOr(turnsOf, a, 0) == n
    ensures SumOver(turnsOf[a := n + 1].Keys, (x: nat) => GetOr(turnsOf[a := n + 1], x, 0))
      == SumOver(turnsOf.Keys, (x: nat) => GetOr(turnsOf, x, 0)) + 1
  {
    var after := turnsOf[a := n + 1];
    var f, g := (x: nat) => GetOr(turnsOf, x, 0), (x: nat) => GetOr(after, x, 0);
    assert after.Keys == turnsOf.Keys + {a};
    SumOverPick(after.Keys, a, g);
    SumOverAgree(turnsOf.Keys - {a}, f, g);
    assert after.Keys - {a} == turnsOf.Keys - {a};
    if a in turnsOf {
      SumOverPick(turnsOf.Keys, a, f);
    } else {
      assert turnsOf.Keys - {a} == turnsOf.Keys;
    }
  }

  lemma {:induction false} CallsCounted(s: System, steps: seq<Step>)
    requires Invariant(s)
    ensures TurnsTaken(Run(s, steps)) == TurnsTaken(s) + ProviderCalls(s, steps)
  {
    if steps != [] {
      var init := steps[..|steps| - 1];
      CallsCounted(s, init);
      RunKeeps(s, init);
      TurnsCounted(Run(s, init), steps[|steps| - 1]);
    }
  }

  /** Across every delivery and crash of one run, the provider is called at most 4 * max_attempts times. */
  lemma {:induction false} WorkBound(now: int, intent: Intent, maxAttempts: nat, steps: seq<Step>)
    ensures ProviderCalls(Start(now, intent, maxAttempts), steps) <= MAX_TURNS * maxAttempts
  {
    var s0 := Start(now, intent, maxAttempts);
    assert Invariant(s0) && TurnsTaken(s0) == 0;
    CallsCounted(s0, steps);
    TurnsBounded(now, intent, maxAttempts, steps);
  }
}
