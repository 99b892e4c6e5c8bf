/** One execution of a paid order: executePaymentSuccessFulfillment of
    backend/internal/httpapi/routes.go. A payload can hold a balance recharge, an API key
    and a package; each present component calls the upstream and records a result on the
    one job they share. */
module PaymentExecution {
  import opened Common
  import opened Fulfillment

  datatype Payload = Payload(balance: bool, apiKey: bool, tier: bool)

  /** How the upstream answers each component, if it is called. */
  datatype Results = Results(balance: CallResult, apiKey: CallResult, tier: CallResult)

  datatype Component = BalanceRecharge | ApiKeyCreation | PackagePurchase

  // ----- The execution as a function of the job -----

  /** Recording a result; a rejected transition leaves the job and ends the execution. */
  function Recorded(job: Job, r: CallResult, maxRetries: int, now: int): (Job, bool) {
    var input := ResultInput(r, job.retryCount, maxRetries, "", now);
    if CanTransition(job.status, input.status)
    then (Job(job.input, input.status, input.retryCount, input.availableAt), true)
    else (job, false)
  }

  /** A successful recharge is not final while an API key is still to be created. */
  function BalanceStep(job: Job, p: Payload, r: Results, maxRetries: int, now: int): (Job, bool) {
    if r.balance.Success? && p.apiKey
    then if CanTransition(job.status, PaidUnfulfilled)
         then (Job(job.input, PaidUnfulfilled, job.retryCount, now), true) else (job, false)
    else Recorded(job, r.balance, maxRetries, now)
  }

  function PackageStep(job: Job, called: seq<Component>, p: Payload, r: Results, maxRetries: int, now: int)
    : (Job, seq<Component>)
  {
    if p.tier then (Recorded(job, r.tier, maxRetries, now).0, called + [PackagePurchase]) else (job, called)
  }

  function ApiKeyStep(job: Job, called: seq<Component>, p: Payload, r: Results, maxRetries: int, now: int)
    : (Job, seq<Component>)
  {
    if !p.apiKey then PackageStep(job, called, p, r, maxRetries, now)
    else
      var (next, ok) := Recorded(job, r.apiKey, maxRetries, now);
      if ok then PackageStep(next, called + [ApiKeyCreation], p, r, maxRetries, now)
      else (next, called + [ApiKeyCreation])
  }

  /** The job afterwards and the components whose upstream call was made. */
  function Execution(job: Job, p: Payload, r: Results, maxRetries: int, now: int): (Job, seq<Component>) {
    if job.status.Final() then (job, [])
    else if !p.balance then ApiKeyStep(job, [], p, r, maxRetries, now)
    else
      var (next, ok) := BalanceStep(job, p, r, maxRetries, now);
      if ok then ApiKeyStep(next, [BalanceRecharge], p, r, maxRetries, now) else (next, [BalanceRecharge])
  }

  // ----- The code -----

  /** Recording a component's result; false stops the execution. */
  method Record(service: FulfillmentService, id: JobId, result: CallResult, prefix: string, now: int)
    returns (ok: bool)
    requires id > 0 && prefix != "" && id in service.db.jobs && id in service.db.events
    modifies service
    ensures service.db.events.Keys == old(service.db).events.Keys
    ensures var (job, fine) := Recorded(old(service.db).jobs[id], result, service.maxRetries, now);
            ok == fine && service.db.jobs == old(service.db).jobs[id := job]
  {
    var recorded := service.ApplyProxyResult(id, result, prefix, now);
    ok := recorded.Ok?;
  }

  method ExecuteBalanceRecharge(service: FulfillmentService, id: JobId, p: Payload, r: Results, now: int)
    returns (ok: bool)
    requires id > 0 && id in service.db.jobs && id in service.db.events
    modifies service
    ensures service.db.events.Keys == old(service.db).events.Keys
    ensures var (job, fine) := BalanceStep(old(service.db).jobs[id], p, r, service.maxRetries, now);
            ok == fine && service.db.jobs == old(service.db).jobs[id := job]
  {
    if !r.balance.Success? || !p.apiKey {
      ok := Record(service, id, r.balance, "sub2api_balance_recharge", now);
      return;
    }
    var recorded := service.TransitionJob(id, TransitionInput(
      PaidUnfulfilled, "sub2api_balance_recharge_succeeded", service.db.jobs[id].retryCount, now));
    ok := recorded.Ok?;
  }

  /** `service` is not disturbed while this runs. */
  method ExecutePaymentSuccessFulfillment(
    service: FulfillmentService, id: JobId, p: Payload, r: Results, configured: bool, now: int)
    returns (called: seq<Component>)
    requires id > 0 && id in service.db.jobs && id in service.db.events
    modifies service
    ensures !configured ==> called == [] && service.db == old(service.db)
    ensures configured ==>
              var (job, calls) := Execution(old(service.db).jobs[id], p, r, service.maxRetries, now);
              called == calls && service.db.jobs == old(service.db).jobs[id := job]
  {
    called := [];
    if !configured || service.db.jobs[id].status == Fulfilled || service.db.jobs[id].status == FailedTerminal {
      return;
    }
    if p.balance {
      called := [BalanceRecharge];
      var ok := ExecuteBalanceRecharge(service, id, p, r, now);
      if !ok {
        return;
      }
    }
    if p.apiKey {
      called := called + [ApiKeyCreation];
      var ok := Record(service, id, r.apiKey, "sub2api_api_key_create", now);
      if !ok {
        return;
      }
    }
    if p.tier {
      called := called + [PackagePurchase];
      var _ := Record(service, id, r.tier, "sub2api_package_fulfillment", now);
    }
  }

  // ----- Which calls are made -----

  /** Ends a job for good: neither a success nor a retryable answer within the budget. */
  predicate Terminal(r: CallResult, retryCount: int, maxRetries: int) {
    r != Success && !(r.ApiError? && (r.retryReason || r.statusCode >= 500) && retryCount < maxRetries)
  }

  /** Recharge, API key and package are called in this order, each when the payload has it,
      whatever the earlier ones answered. One case is different: an API key created after a
      recharge that failed for good cannot be recorded, and the package is not called. */
  lemma CallsAre(job: Job, p: Payload, r: Results, maxRetries: int, now: int)
    ensures var stopped := p.balance && p.apiKey && Terminal(r.balance, job.retryCount, maxRetries)
                           && !Terminal(r.apiKey, job.retryCount, maxRetries);
            Execution(job, p, r, maxRetries, now).1 ==
            if job.status in {Fulfilled, FailedTerminal} then []
            else (if p.balance then [BalanceRecharge] else [])
                 + (if p.apiKey then [ApiKeyCreation] else [])
                 + (if p.tier && !stopped then [PackagePurchase] else [])
  {
  }

  /** The result of a payload's only component is the job's. */
  lemma OneComponent(job: Job, p: Payload, r: Results, maxRetries: int, now: int)
    requires job.status in {PaidUnfulfilled, FailedRetryable} && SingleComponent(p)
    ensures var job' := Execution(job, p, r, maxRetries, now).0;
            && (p.balance ==> HasResult(job', job.input, job.retryCount, r.balance, maxRetries, now))
            && (p.apiKey ==> HasResult(job', job.input, job.retryCount, r.apiKey, maxRetries, now))
            && (p.tier ==> HasResult(job', job.input, job.retryCount, r.tier, maxRetries, now))
            && (!p.balance && !p.apiKey && !p.tier ==> job' == job)
  {
  }

  // ----- What a fulfilled job means -----

  predicate AllSucceeded(p: Payload, r: Results) {
    && (p.balance ==> r.balance.Success?)
    && (p.apiKey ==> r.apiKey.Success?)
    && (p.tier ==> r.tier.Success?)
  }

  predicate SingleComponent(p: Payload) {
    !(p.balance && p.apiKey) && !(p.balance && p.tier) && !(p.apiKey && p.tier)
  }

  /** Whenever an execution leaves the job fulfilled, every component's call succeeded. */
  ghost predicate FulfilledMeansDone(p: Payload, maxRetries: nat) {
    forall job: Job, r: Results, now: int | !job.status.Final() && 0 <= job.retryCount <= maxRetries ::
      Execution(job, p, r, maxRetries, now).0.status.Fulfilled? ==> AllSucceeded(p, r)
  }

  const FRESH := Job(CreateInput("key", "payment_succeeded", "payload", None, None), PaidUnfulfilled, 0, 0)
  const BUSY := ApiError(503, false, 0)

  /** An execution on a fresh job whose first component fails retryably while the next one
      succeeds: the job is fulfilled, which no retry and no redelivery ever undoes. */
  lemma FailedComponentIsForgotten(p: Payload, maxRetries: nat) returns (r: Results)
    requires !SingleComponent(p) && maxRetries > 0
    ensures Execution(FRESH, p, r, maxRetries, 0).0.status.Fulfilled? && !AllSucceeded(p, r)
  {
    r := if p.balance then Results(BUSY, Success, Success) else Results(Success, BUSY, Success);
  }

  /** Fulfilled means done exactly for payloads with at most one component. */
  lemma FulfilledMeansDoneIff(p: Payload, maxRetries: nat)
    requires maxRetries > 0
    ensures FulfilledMeansDone(p, maxRetries) <==> SingleComponent(p)
  {
    if !SingleComponent(p) {
      var r := FailedComponentIsForgotten(p, maxRetries);
      assert !FRESH.status.Final();
    }
  }

  /** The API key is created whatever became of the recharge before it: also when that
      failed for good and the job stays failed_terminal. */
  lemma ApiKeyCreatedAnyway(job: Job, p: Payload, r: Results, maxRetries: nat, now: int)
    requires p.apiKey && !job.status.Final()
    ensures ApiKeyCreation in Execution(job, p, r, maxRetries, now).1
    ensures p.balance && Recorded(job, r.balance, maxRetries, now).0.status.FailedTerminal? ==>
              Execution(job, p, r, maxRetries, now).0.status.FailedTerminal?
  {
  }
}
