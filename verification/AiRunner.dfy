/** AiRunner.execute and the job functions it calls, as runs of the lease protocol. */
module AiRunner {
  import opened Prelude
  import opened AiRun
  import opened AiAnswers

  datatype Ended = AlreadyTerminal | BusyElsewhere | Committed | Retrying

  lemma {:induction false} RunLast(s: System, steps: seq<Step>, step: Step)
    ensures Run(s, steps + [step]) == Next(Run(s, steps), step)
  {
  }

  /** Both rows after an attempt ended with `error`: SUCCEEDED without one, PENDING again when the provider was
      unavailable and attempts are left, FAILED otherwise. */
  ghost predicate Concluded(s: System, attempt: nat, error: Option<ErrorCode>) {
    && s.run.lease == None && s.run.attempts == attempt && s.job.attempts == attempt
    && s.run.error == error && s.job.error == error && s.run.status == s.job.status
    && (s.run.status == Succeeded <==> error == None)
    && (s.run.status == Pending <==> error == Some(ProviderUnavailable) && attempt < s.job.maxAttempts)
    && (s.run.status == Failed <==>
          error.Some? && (error != Some(ProviderUnavailable) || attempt >= s.job.maxAttempts))
    && (error == None ==> s.run.output.Some?)
    && s.job.progress == (if s.run.status == Pending then 0 else 100)
  }

  lemma {:induction false} FinishConcludes(s: System, l: Id, authorised: bool)
    requires l in s.execs && s.execs[l].phase.Done? && s.run.lease == Some(l) && s.run.attempts == s.job.attempts
    ensures Concluded(
      Next(s, Finish(l, authorised)), s.run.attempts, if authorised then s.execs[l].phase.error else Some(OtherError))
  {
  }

  /** The rows an execution works on, and its own local variables as an entry of `execs`. */
  class AiRunner {
    var now: int
    const intent: Intent
    var run: RunRow
    var job: JobRow
    var receipts: seq<Receipt>
    var execs: map<Id, Exec>
    var turnsOf: map<nat, nat>
    var verdicts: nat

    constructor (now: int, intent: Intent, maxAttempts: nat)
      ensures State() == Start(now, intent, maxAttempts)
    {
      this.now, this.intent := now, intent;
      run, job := RunRow(Pending, None, None, 0, None, None), JobRow(Pending, 0, maxAttempts, 0, None);
      receipts, execs, turnsOf, verdicts := [], map[], map[], 0;
    }

    function State(): System
      reads this
    {
      System(now, intent, run, job, receipts, execs, turnsOf, verdicts)
    }

    /** start_ai_attempt. */
    method StartJob(attempts: nat) returns (maxAttempts: nat)
      modifies this`job
      ensures job == old(job).(status := Running, attempts := attempts) && maxAttempts == job.maxAttempts
    {
      job := job.(status := Running, attempts := attempts);
      maxAttempts := job.maxAttempts;
    }

    /** The lease transaction. */
    method TakeLease(lease: Id)
      requires Starts(State(), lease)
      modifies this`run, this`job, this`execs
      ensures State() == Started(old(State()), lease)
    {
      run := run.(status := Running, lease := Some(lease), startedAt := Some(now));
      run := run.(attempts := run.attempts + 1);
      var maxAttempts := StartJob(run.attempts);
      var exhausted := run.attempts > maxAttempts;
      execs := execs[lease := Exec(run.attempts, 0, [], if exhausted then Done(Some(AttemptsExhausted)) else Asking)];
    }

    /** One provider turn. */
    method AskProvider(lease: Id, reply: Reply)
      requires lease in execs && execs[lease].phase.Asking?
      modifies this`execs, this`turnsOf
      ensures State() == Next(old(State()), Ask(lease, reply))
    {
      var e := execs[lease];
      if !reply.Denied? {
        turnsOf := turnsOf[e.attempt := e.turns + 1];
      }
      execs := execs[lease := Answered(e, intent, reply)];
    }

    /** The fenced receipt transaction of _call. */
    method RecordCall(lease: Id)
      requires lease in execs && (execs[lease].phase.Calling? || execs[lease].phase.Rejecting?)
      modifies this`execs, this`receipts
      ensures State() == Next(old(State()), CommitReceipt(lease))
    {
      var e := execs[lease];
      match e.phase {
        case Calling(tool, succeeds) =>
          if run.lease != Some(lease) {
            execs := execs[lease := Fail(e, OtherError)];
          } else {
            receipts := receipts + [Receipt(lease, tool, succeeds)];
            execs := execs[lease := if succeeds then GoRound(e.(facts := e.facts + [tool])) else Fail(e, OtherError)];
          }
        case Rejecting(left, tool, resume) =>
          if left == 0 {
            execs := execs[lease := if resume then GoRound(e) else Fail(e, OtherError)];
          } else if run.lease != Some(lease) {
            execs := execs[lease := Fail(e, OtherError)];
          } else {
            receipts := receipts + [Receipt(lease, tool, false)];
            execs := execs[lease := e.(phase := Rejecting(left - 1, tool, resume))];
          }
      }
    }

    /** finish_ai_attempt. */
    method FinishJob(error: Option<ErrorCode>, attempts: nat) returns (status: Status, retry: bool)
      modifies this`job
      ensures retry == Retries(error, attempts, old(job).maxAttempts) && status == Outcome(error, retry)
      ensures job == old(job).(status := status, progress := if retry then 0 else 100, error := error)
    {
      retry := error == Some(ProviderUnavailable) && attempts < job.maxAttempts;
      if retry {
        status := Pending;
      } else {
        status := if error.Some? then Failed else Succeeded;
      }
      job := job.(status := status, progress := if retry then 0 else 100, error := error);
    }

    /** The fenced commit. */
    method CommitRun(lease: Id, authorised: bool) returns (ended: Ended)
      requires lease in execs && execs[lease].phase.Done?
      modifies this`run, this`job, this`execs, this`verdicts
      ensures State() == Next(old(State()), Finish(lease, authorised))
      ensures ended == BusyElsewhere <==> old(run.lease) != Some(lease)
      ensures ended == Retrying <==> old(run.lease) == Some(lease) && run.status == Pending
      ensures ended != AlreadyTerminal
      ensures old(run.lease) == Some(lease) && old(run.attempts) == old(job.attempts) ==>
        Concluded(
          State(), old(run.attempts), if authorised then old(execs[lease].phase.error) else Some(OtherError))
    {
      if run.lease == Some(lease) && run.attempts == job.attempts {
        FinishConcludes(State(), lease, authorised);
      }
      var e := execs[lease];
      execs := execs - {lease};
      if run.lease != Some(lease) {
        return BusyElsewhere;
      }
      var error := e.phase.error;
      if !authorised {
        error := Some(OtherError);
      }
      var status, retry := FinishJob(error, run.attempts);
      run := run.(status := status, error := error, lease := None);
      if error.None? {
        run := run.(output := Some(e.facts));
      }
      verdicts := verdicts + if retry then 0 else 1;
      return if retry then Retrying else Committed;
    }

    /** The receipts of one turn. */
    method RecordCalls(lease: Id, ghost start: System, ghost steps: seq<Step>) returns (ghost steps': seq<Step>)
      requires lease in execs && !execs[lease].phase.Asking? && State() == AiRun.Run(start, steps)
      modifies this`execs, this`receipts
      ensures State() == AiRun.Run(start, steps')
      ensures lease in execs && (execs[lease].phase.Done?
        || (execs[lease].phase.Asking? && execs[lease].turns < MAX_TURNS))
      ensures execs[lease].turns == old(execs[lease].turns)
        && (old(execs[lease].phase.Done?) ==> execs[lease].phase.Done?)
      ensures run.lease == Some(lease) ==>
        execs[lease] == Recorded(old(execs[lease]))
        && receipts == old(receipts) + StillToCommit(lease, old(execs[lease].phase))
    {
      steps' := steps;
      while execs[lease].phase.Calling? || execs[lease].phase.Rejecting?
        invariant lease in execs && State() == AiRun.Run(start, steps') && execs[lease].turns == old(execs[lease].turns)
        invariant execs[lease].phase.Asking? ==> execs[lease].turns < MAX_TURNS
        invariant old(execs[lease].phase.Done?) ==> execs[lease].phase.Done?
        invariant run.lease == Some(lease) ==>
          Recorded(execs[lease]) == Recorded(old(execs[lease]))
          && receipts + StillToCommit(lease, execs[lease].phase)
             == old(receipts) + StillToCommit(lease, old(execs[lease].phase))
        decreases if execs[lease].phase.Rejecting? then execs[lease].phase.left + 1 else 0,
                  if execs[lease].phase.Calling? then 1 else 0
      {
        RunLast(start, steps', CommitReceipt(lease));
        if run.lease == Some(lease) {
          ReceiptCommitted(State(), lease);
        }
        RecordCall(lease);
        steps' := steps' + [CommitReceipt(lease)];
      }
    }

    method TakeTurn(lease: Id, reply: Reply, ghost start: System, ghost steps: seq<Step>)
          returns (ghost steps': seq<Step>)
      requires lease in execs && execs[lease].phase.Asking? && State() == AiRun.Run(start, steps)
      modifies this`receipts, this`execs, this`turnsOf
      ensures State() == AiRun.Run(start, steps')
      ensures lease in execs && (execs[lease].phase.Done?
        || (execs[lease].phase.Asking? && execs[lease].turns < MAX_TURNS))
      ensures execs[lease].phase.Asking? ==> execs[lease].turns == old(execs[lease].turns) + 1
      ensures run.lease == Some(lease) ==>
        execs[lease] == Recorded(Answered(old(execs[lease]), intent, reply))
        && receipts == old(receipts) + ReceiptsOf(lease, reply)
    {
      TurnReceipts(execs[lease], intent, lease, reply);
      RunLast(start, steps, Ask(lease, reply));
      AskProvider(lease, reply);
      assert State() == AiRun.Run(start, steps + [Ask(lease, reply)]);
      steps' := RecordCalls(lease, start, steps + [Ask(lease, reply)]);
    }

    /** The bounded tool loop. */
    method Converse(lease: Id, replies: nat -> Reply, ghost start: System, ghost steps: seq<Step>)
          returns (ghost steps': seq<Step>)
      requires lease in execs && State() == AiRun.Run(start, steps)
      requires execs[lease].phase.Done? || (execs[lease].phase.Asking? && execs[lease].turns == 0)
      modifies this`receipts, this`execs, this`turnsOf
      ensures lease in execs && execs[lease].phase.Done? && State() == AiRun.Run(start, steps')
      ensures old(execs[lease].phase.Done?) ==> execs[lease] == old(execs[lease])
      ensures run.lease == Some(lease) && old(execs[lease].phase.Asking?) && old(execs[lease].facts) == [] ==>
        execs[lease].phase.error == Ends(intent, replies, 0, [])
    {
      steps' := steps;
      var turn := 0;
      while turn < MAX_TURNS && execs[lease].phase.Asking?
        invariant 0 <= turn <= MAX_TURNS && lease in execs && State() == AiRun.Run(start, steps')
        invariant execs[lease].phase.Done? || (execs[lease].phase.Asking? && execs[lease].turns == turn < MAX_TURNS)
        invariant old(execs[lease].phase.Done?) ==> execs[lease] == old(execs[lease])
        invariant run.lease == Some(lease) && old(execs[lease].phase.Asking?) && old(execs[lease].facts) == [] ==>
          Ends(intent, replies, 0, []) ==
            if execs[lease].phase.Done? then execs[lease].phase.error
            else Ends(intent, replies, turn, execs[lease].facts)
      {
        TurnEnds(execs[lease], intent, replies);
        steps' := TakeTurn(lease, replies(turn), start, steps');
        turn := turn + 1;
      }
    }

    /** The lease and the conversation under it. */
    method Attempt(lease: Id, replies: nat -> Reply) returns (ghost steps: seq<Step>)
      requires Starts(State(), lease)
      modifies this`run, this`job, this`receipts, this`execs, this`turnsOf
      ensures State() == AiRun.Run(old(State()), steps) && lease in execs && execs[lease].phase.Done?
      ensures run.lease == Some(lease) && run.attempts == job.attempts == old(run.attempts) + 1
      ensures job.maxAttempts == old(job.maxAttempts)
      ensures execs[lease].phase.error ==
        if old(run.attempts) >= old(job.maxAttempts) then Some(AttemptsExhausted) else Ends(intent, replies, 0, [])
    {
      ghost var start := State();
      RunLast(start, [], Deliver(lease));
      TakeLease(lease);
      steps := Converse(lease, replies, start, [] + [Deliver(lease)]);
    }

    /** execute(), uninterrupted: a run of the protocol that leaves no execution behind. */
    method Execute(lease: Id, replies: nat -> Reply, authorised: bool) returns (ended: Ended, ghost steps: seq<Step>)
      requires lease !in execs && run.lease != Some(lease)
      modifies this`run, this`job, this`receipts, this`execs, this`turnsOf, this`verdicts
      ensures State() == AiRun.Run(old(State()), steps)
      ensures ended == AlreadyTerminal <==> Terminal(old(run.status))
      ensures ended == BusyElsewhere <==> Busy(old(run), now) && !Terminal(old(run.status))
      ensures ended in {AlreadyTerminal, BusyElsewhere} ==> State() == old(State())
      ensures ended !in {AlreadyTerminal, BusyElsewhere} ==>
        Concluded(
          State(), old(run.attempts) + 1,
          if !authorised then Some(OtherError)
          else if old(run.attempts) >= old(job.maxAttempts) then Some(AttemptsExhausted)
          else Ends(intent, replies, 0, []))
      ensures ended == Retrying <==> !Terminal(old(run.status)) && !Busy(old(run), now) && run.status == Pending
    {
      ghost var start := State();
      steps := [];
      if Terminal(run.status) {
        return AlreadyTerminal, steps;
      }
      if run.status == Running && run.startedAt.Some? && run.startedAt.value > now - LEASE {
        return BusyElsewhere, steps;
      }
      steps := Attempt(lease, replies);
      RunLast(start, steps, Finish(lease, authorised));
      ended := CommitRun(lease, authorised);
      steps := steps + [Finish(lease, authorised)];
    }
  }
}
