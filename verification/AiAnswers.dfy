/** What the replies of one AI execution lead to, and what a committed success goes back to. */
module AiAnswers {
  import opened Prelude
  import opened AiRun

  // ---- The outcome of a conversation ------------------------------------------------------------------------

  /** The tool whose successful call each intent must have seen. */
  predicate Requires(intent: Intent, tool: Tool) {
    || (intent == Search && tool == SearchCompanies)
    || (intent == Timeline && tool == OrderTimeline)
    || (intent == Profit && tool == OrderProfit)
    || (intent == EmailDraft && tool == ReadOrder)
    || (intent == TaskDraft && tool == ReadOrder)
  }

  /** How an execution that keeps its lease ends, from turn `turn` on: with a valid answer (None), or with an
      error. Only successful calls, and refused bundles that the provider can repeat, go on to the next of
      the four turns. */
  ghost function Ends(intent: Intent, replies: nat -> Reply, turn: nat, facts: seq<Tool>): Option<ErrorCode>
    decreases 4 - turn
  {
    if turn >= 4 then Some(TurnLimit)
    else
      match replies(turn)
      case Denied => Some(OtherError)
      case Unavailable => Some(ProviderUnavailable)
      case ProviderFails => Some(OtherError)
      case Final(valid) =>
        if !(exists tool :: tool in facts && Requires(intent, tool)) then Some(MissingEvidence)
        else if !valid then Some(OtherError)
        else None
      case Malformed(_) => Some(OtherError)
      case Many(_, _, resume) => if resume then Ends(intent, replies, turn + 1, facts) else Some(OtherError)
      case Call(tool, succeeds) =>
        if succeeds then Ends(intent, replies, turn + 1, facts + [tool]) else Some(OtherError)
  }

  lemma {:induction false} RequiredIs(intent: Intent, facts: seq<Tool>)
    ensures Required(intent) in facts <==> exists tool :: tool in facts && Requires(intent, tool)
  {
  }

  /** The execution once the receipts of its turn are committed under its lease. */
  function Recorded(e: Exec): Exec {
    match e.phase
    case Calling(tool, succeeds) => if succeeds then GoRound(e.(facts := e.facts + [tool])) else Fail(e, OtherError)
    case Rejecting(_, _, resume) => if resume then GoRound(e) else Fail(e, OtherError)
    case _ => e
  }

  /** The receipts that a turn leaves: one per call, refused or made, and none for other replies. */
  function ReceiptsOf(l: Id, reply: Reply): seq<Receipt> {
    match reply
    case Call(tool, succeeds) => [Receipt(l, tool, succeeds)]
    case Malformed(tool) => [Receipt(l, tool, false)]
    case Many(count, tool, _) => seq(count, i => Receipt(l, tool, false))
    case _ => []
  }

  /** The receipts an execution in this phase still has to commit. */
  function StillToCommit(l: Id, phase: Phase): seq<Receipt> {
    match phase
    case Calling(tool, succeeds) => [Receipt(l, tool, succeeds)]
    case Rejecting(left, tool, _) => seq(left, i => Receipt(l, tool, false))
    case _ => []
  }

  lemma {:induction false} TurnReceipts(e: Exec, intent: Intent, l: Id, reply: Reply)
    ensures StillToCommit(l, Answered(e, intent, reply).phase) == ReceiptsOf(l, reply)
  {
  }

  /** A receipt transaction of the lease holder commits the next of its receipts, and once there is none
      left the execution goes where its turn led. */
  lemma {:induction false} ReceiptCommitted(s: System, l: Id)
    requires l in s.execs && s.run.lease == Some(l) && (s.execs[l].phase.Calling? || s.execs[l].phase.Rejecting?)
    ensures var s', todo := Next(s, CommitReceipt(l)), StillToCommit(l, s.execs[l].phase);
      && l in s'.execs && Recorded(s'.execs[l]) == Recorded(s.execs[l])
      && s'.receipts + StillToCommit(l, s'.execs[l].phase) == s.receipts + todo
      && |s'.receipts| == |s.receipts| + (if todo == [] then 0 else 1)
      && (todo == [] || s.execs[l].phase.Calling? ==> s'.execs[l] == Recorded(s.execs[l]))
      && s' == s.(receipts := s'.receipts, execs := s'.execs)
  {
  }

  /** Without the lease a receipt transaction commits nothing and ends the execution. */
  lemma {:induction false} ReceiptFenced(s: System, l: Id)
    requires l in s.execs && s.run.lease != Some(l) && s.execs[l].phase.Calling?
    ensures Next(s, CommitReceipt(l)) == s.(execs := s.execs[l := s.execs[l].(phase := Done(Some(OtherError)))])
  {
  }

  lemma {:induction false} ClockMoves(s: System, later: int)
    ensures Next(s, Tick(later)) == if later < s.now then s else s.(now := later)
  {
  }

  /** One turn brings the execution to its end, or one turn nearer to the same end. */
  lemma {:induction false} TurnEnds(e: Exec, intent: Intent, replies: nat -> Reply)
    requires e.phase.Asking? && e.turns < 4
    ensures var after := Recorded(Answered(e, intent, replies(e.turns)));
      && (after.phase.Done? || after.phase.Asking?)
      && (after.phase.Asking? ==>
            && after.turns == e.turns + 1 && after.turns < 4 && after.attempt == e.attempt
            && Ends(intent, replies, e.turns, e.facts) == Ends(intent, replies, after.turns, after.facts))
      && (after.phase.Done? ==> after.phase.error == Ends(intent, replies, e.turns, e.facts))
  {
    RequiredIs(intent, e.facts);
  }

  /** The turn goes on: a successful call, or a refused bundle that can be repeated. */
  predicate GoesOn(reply: Reply) { (reply.Call? && reply.succeeds) || (reply.Many? && reply.resume) }

  lemma {:induction false} EndsWell(intent: Intent, replies: nat -> Reply, turn: nat, facts: seq<Tool>, n: nat)
    requires turn <= n < 4 && replies(n) == Final(true) && forall k :: turn <= k < n ==> GoesOn(replies(k))
    requires (exists tool :: tool in facts && Requires(intent, tool)) ||
      exists k :: turn <= k < n && replies(k).Call? && Requires(intent, replies(k).tool)
    ensures Ends(intent, replies, turn, facts) == None
    decreases n - turn
  {
    if turn < n {
      assert GoesOn(replies(turn));
      if replies(turn).Call? {
        var later := facts + [replies(turn).tool];
        if tool :| tool in facts && Requires(intent, tool) {
          assert tool in later;
        } else {
          var k :| turn <= k < n && replies(k).Call? && Requires(intent, replies(k).tool);
          assert k == turn ==> replies(turn).tool in later;
        }
        EndsWell(intent, replies, turn + 1, later, n);
      } else {
        EndsWell(intent, replies, turn + 1, facts, n);
      }
    }
  }

  lemma {:induction false} WellEnded(intent: Intent, replies: nat -> Reply, turn: nat, facts: seq<Tool>)
        returns (n: nat)
    requires Ends(intent, replies, turn, facts) == None
    ensures turn <= n < 4 && replies(n) == Final(true) && forall k :: turn <= k < n ==> GoesOn(replies(k))
    ensures (exists tool :: tool in facts && Requires(intent, tool)) ||
      exists k :: turn <= k < n && replies(k).Call? && Requires(intent, replies(k).tool)
    decreases 4 - turn
  {
    n := turn;
    if replies(turn).Call? {
      var later := facts + [replies(turn).tool];
      n := WellEnded(intent, replies, turn + 1, later);
      if tool :| tool in later && Requires(intent, tool) {
        assert tool in facts || tool == replies(turn).tool;
      }
    } else if replies(turn).Many? {
      n := WellEnded(intent, replies, turn + 1, facts);
    }
  }

  /** An execution ends with a valid answer if and only if that answer is among its four turns, every turn
      before it went on, and one of them was a successful call of a tool the intent requires. */
  lemma {:induction false} ValidAnswer(intent: Intent, replies: nat -> Reply)
    ensures Ends(intent, replies, 0, []) == None <==>
      exists n, k {:trigger replies(n), replies(k)} ::
        && 0 <= k < n < 4 && replies(n) == Final(true) && (forall i :: 0 <= i < n ==> GoesOn(replies(i)))
        && replies(k).Call? && Requires(intent, replies(k).tool)
  {
    if Ends(intent, replies, 0, []) == None {
      var n := WellEnded(intent, replies, 0, []);
      var k :| 0 <= k < n && replies(k).Call? && Requires(intent, replies(k).tool);
      assert 0 <= k < n < 4 && replies(n) == Final(true);
    }
    if n, k {:trigger replies(n), replies(k)} :|
         && 0 <= k < n < 4 && replies(n) == Final(true) && (forall i :: 0 <= i < n ==> GoesOn(replies(i)))
         && replies(k).Call? && Requires(intent, replies(k).tool) {
      EndsWell(intent, replies, 0, [], n);
    }
  }

  /** The first reply that is neither a valid answer nor goes on makes the execution fail; the error is the
      one worth another attempt only when the provider was unavailable. */
  lemma {:induction false} FirstStop(intent: Intent, replies: nat -> Reply, n: nat)
    requires n < 4 && !GoesOn(replies(n)) && forall i :: 0 <= i < n ==> GoesOn(replies(i))
    ensures replies(n) != Final(true) ==> Ends(intent, replies, 0, []).Some?
    ensures Ends(intent, replies, 0, []) == Some(ProviderUnavailable) <==> replies(n) == Unavailable
  {
    var seen := StopsAt(intent, replies, 0, [], n);
  }

  /** Four turns that all go on are too many. */
  lemma {:induction false} NoStop(intent: Intent, replies: nat -> Reply, turn: nat, facts: seq<Tool>)
    requires forall i :: turn <= i < 4 ==> GoesOn(replies(i))
    ensures Ends(intent, replies, turn, facts) == Some(TurnLimit)
    decreases 4 - turn
  {
    if turn < 4 {
      assert GoesOn(replies(turn));
      NoStop(intent, replies, turn + 1, if replies(turn).Call? then facts + [replies(turn).tool] else facts);
    }
  }

  lemma {:induction false} StopsAt(intent: Intent, replies: nat -> Reply, turn: nat, facts: seq<Tool>, n: nat)
      returns (seen: seq<Tool>)
    requires turn <= n < 4 && !GoesOn(replies(n)) && forall i :: turn <= i < n ==> GoesOn(replies(i))
    ensures Ends(intent, replies, turn, facts) == Ends(intent, replies, n, seen)
    decreases n - turn
  {
    if turn == n {
      seen := facts;
    } else {
      assert GoesOn(replies(turn));
      seen := StopsAt(
        intent, replies, turn + 1, if replies(turn).Call? then facts + [replies(turn).tool] else facts, n);
    }
  }

  // ---- A committed success goes back to a valid answer --------------------------------------------------------

  ghost predicate AnswersWell(s: System, step: Step, l: Id) {
    && step == Ask(l, Final(true)) && l in s.execs && s.execs[l].phase.Asking?
    && exists tool :: tool in s.execs[l].facts && Requires(s.intent, tool)
  }

  /** Step `i` of the run gave execution `l` its valid answer, and the execution has lived since. */
  ghost predicate AnsweredAt(s: System, steps: seq<Step>, l: Id, i: nat)
    requires i < |steps|
  {
    && AnswersWell(Run(s, steps[..i]), steps[i], l)
    && forall k :: i < k <= |steps| ==> l in Run(s, steps[..k]).execs
  }

  lemma {:induction false} NewlyDone(s: System, step: Step, l: Id)
    requires l in Next(s, step).execs && Next(s, step).execs[l].phase == Done(None)
    requires !(l in s.execs && s.execs[l].phase == Done(None))
    ensures AnswersWell(s, step, l)
  {
    if step.Ask? && step.lease == l && l in s.execs {
      RequiredIs(s.intent, s.execs[l].facts);
    }
  }

  lemma {:induction false} AnsweredBefore(s: System, steps: seq<Step>, l: Id, i: nat)
    requires steps != [] && i < |steps| - 1 && AnsweredAt(s, steps[..|steps| - 1], l, i) && l in Run(s, steps).execs
    ensures AnsweredAt(s, steps, l, i)
  {
    var init := steps[..|steps| - 1];
    assert init[..i] == steps[..i];
    forall k | i < k <= |steps| ensures l in Run(s, steps[..k]).execs {
      if k < |steps| {
        assert init[..k] == steps[..k];
      } else {
        assert steps[..k] == steps;
      }
    }
  }

  lemma {:induction false} DoneWasAnswered(s: System, steps: seq<Step>, l: Id) returns (i: nat)
    requires s.execs == map[] && l in Run(s, steps).execs && Run(s, steps).execs[l].phase == Done(None)
    ensures i < |steps| && AnsweredAt(s, steps, l, i)
  {
    var init, last := steps[..|steps| - 1], steps[|steps| - 1];
    var before := Run(s, init);
    if l in before.execs && before.execs[l].phase == Done(None) {
      i := DoneWasAnswered(s, init, l);
      AnsweredBefore(s, steps, l, i);
    } else {
      NewlyDone(before, last, l);
      i := |steps| - 1;
      assert steps[..|steps|] == steps;
    }
  }

  /** The step that commits a success: the last transaction of an authorised execution that holds the lease. */
  lemma {:induction false} NewlySucceeded(s: System, step: Step)
    requires Next(s, step).run.status == Succeeded && s.run.status != Succeeded
    ensures step.Finish? && step.authorised && step.lease in s.execs && s.execs[step.lease].phase == Done(None)
    ensures s.run.lease == Some(step.lease)
  {
  }

  /** Over every run: a run that SUCCEEDED did so by the last transaction of an authorised, lease-holding
      execution, and that same execution had received a valid final answer after a call of a tool that its
      intent requires. */
  lemma {:induction false} SuccessWasAnswered(now: int, intent: Intent, maxAttempts: nat, steps: seq<Step>)
      returns (l: Id, i: nat, j: nat)
    requires Run(Start(now, intent, maxAttempts), steps).run.status == Succeeded
    ensures var s := Start(now, intent, maxAttempts);
      && i < j < |steps| && steps[j] == Finish(l, true) && Run(s, steps[..j]).run.lease == Some(l)
      && Run(s, steps[..j + 1]).run.status == Succeeded && AnsweredAt(s, steps[..j], l, i)
    decreases |steps|
  {
    var s := Start(now, intent, maxAttempts);
    var init, last := steps[..|steps| - 1], steps[|steps| - 1];
    if Run(s, init).run.status == Succeeded {
      l, i, j := SuccessWasAnswered(now, intent, maxAttempts, init);
      assert init[..j] == steps[..j] && init[..j + 1] == steps[..j + 1];
    } else {
      NewlySucceeded(Run(s, init), last);
      l, j := last.lease, |steps| - 1;
      i := DoneWasAnswered(s, init, l);
      assert steps[..j + 1] == steps;
    }
  }

  // ---- The two ends of an execution -----------------------------------------------------------------------

  /** A delivery takes the lease unless the run is over, or was started less than 240 seconds ago and still
      runs; the attempt counts, and one beyond the limit asks nothing. */
  lemma {:induction false} DeliveryAnswers(s: System, l: Id)
    requires l !in s.execs && s.run.lease != Some(l)
    ensures var attempt := s.run.attempts + 1;
      var stopped := s.run.status == Succeeded || s.run.status == Failed ||
        (s.run.status == Running && s.run.startedAt.Some? && s.now - s.run.startedAt.value < 240);
      var phase := if attempt <= s.job.maxAttempts then Asking else Done(Some(AttemptsExhausted));
      Next(s, Deliver(l)) ==
        if stopped then s
        else
          s.(run := s.run.(status := Running, lease := Some(l), startedAt := Some(s.now), attempts := attempt),
             job := s.job.(status := Running, attempts := attempt),
             execs := s.execs[l := Exec(attempt, 0, [], phase)])
  {
  }

  /** The last transaction: nothing without the lease; otherwise the outcome, with the facts as output of a
      success. */
  lemma {:induction false} FinishAnswers(s: System, l: Id, authorised: bool)
    requires l in s.execs && s.execs[l].phase.Done?
    ensures s.run.lease != Some(l) ==> Next(s, Finish(l, authorised)) == s.(execs := s.execs - {l})
    ensures s.run.lease == Some(l) ==>
      var s', error := Next(s, Finish(l, authorised)), if authorised then s.execs[l].phase.error else Some(OtherError);
      && s' == s.(run := s'.run, job := s'.job, execs := s.execs - {l}, verdicts := s'.verdicts)
      && s'.run.lease == None && s'.run.attempts == s.run.attempts && s'.run.startedAt == s.run.startedAt
      && s'.job.attempts == s.job.attempts && s'.job.maxAttempts == s.job.maxAttempts
      && s'.run.output == (if error == None then Some(s.execs[l].facts) else s.run.output)
      && s'.verdicts == s.verdicts + (if s'.run.status == Pending then 0 else 1)
  {
  }
}
