/** Retried payment commands refine the plain ledger. */
module PaymentRetries {
  import opened Prelude
  import opened CustomerLedger
  import opened CustomerService
  import I = Idempotency

  /** The commands of the requests whose key is acceptable. */
  function Commands(requests: seq<PaymentRequest>): seq<Command> {
    if requests == [] then [] else
      var init, last := Commands(requests[..|requests| - 1]), requests[|requests| - 1];
      if I.ValidKey(last.slot.key) then init + [last.command] else init
  }

  lemma {:induction false} SendApplies(ledger: Ledger, request: PaymentRequest)
    ensures I.Send(PAYMENTS, ledger, request).0 ==
      if I.ValidKey(request.slot.key) then Apply(ledger, request.command).0 else ledger
  {
  }

  lemma {:induction false} SendAllRuns(ledger: Ledger, requests: seq<PaymentRequest>)
    ensures I.SendAll(PAYMENTS, ledger, requests) == Run(ledger, Commands(requests))
  {
    if requests != [] {
      var init, last := requests[..|requests| - 1], requests[|requests| - 1];
      SendAllRuns(ledger, init);
      SendApplies(Run(ledger, Commands(init)), last);
      var commands := Commands(init);
      assert (commands + [last.command])[..|commands + [last.command]| - 1] == commands;
    }
  }

  /** Any stream of keyed payment commands, with arbitrary repeats and failed attempts, leaves the
      ledger that running the first successes and the failures alone leaves. */
  lemma {:induction false} RetriesRefineLedger(ledger: Ledger, requests: seq<PaymentRequest>)
    ensures I.SubmitAll(PAYMENTS, I.Store.Store(ledger, map[]), requests).ledger
      == Run(ledger, Commands(I.FirstOnly(PAYMENTS, ledger, requests)))
  {
    I.RetryRefinement(PAYMENTS, ledger, requests);
    SendAllRuns(ledger, I.FirstOnly(PAYMENTS, ledger, requests));
  }
}
