/** Fulfillment jobs: backend/internal/fulfillment/service.go and worker.go, and the retry
    path retryPaymentFulfillmentJob of backend/internal/httpapi/routes.go.

    Each transaction is a function on the job tables, taken as serializable. The service
    class runs the source's methods on the tables; JobMachine interleaves the executions of
    any number of webhook deliveries, workers, polls and admins. */
module Fulfillment {
  import opened Common

  type JobId = int

  datatype Status = PaidUnfulfilled | Fulfilled | FailedRetryable | FailedTerminal {
    predicate Final() { Fulfilled? || FailedTerminal? }
  }

  datatype CreateInput = CreateInput(
    key: string, eventType: string, payload: string, user: Option<int>, subscription: Option<int>)

  datatype Job = Job(input: CreateInput, status: Status, retryCount: int, availableAt: int)

  /** als_fulfillment_jobs with its unique index on the idempotency key, and the event types
      of als_fulfillment_events per job. */
  datatype Tables = Tables(
    jobs: map<JobId, Job>,
    byKey: map<string, JobId>,
    events: map<JobId, seq<string>>,
    nextId: JobId)

  const NO_JOBS := Tables(map[], map[], map[], 1)

  datatype JobError = InvalidInput | IdempotencyConflict | JobNotFound | InvalidTransition | StoreFailure

  // ----- Transactions -----

  function CreateTx(db: Tables, input: CreateInput, now: int): (Tables, Result<JobId, JobError>) {
    if input.key in db.byKey then
      var id := db.byKey[input.key];
      if id in db.jobs && db.jobs[id].input == input then (db, Ok(id)) else (db, Err(IdempotencyConflict))
    else
      var id := db.nextId;
      (Tables(db.jobs[id := Job(input, PaidUnfulfilled, 0, now)],
              db.byKey[input.key := id],
              db.events[id := ["job_created"]],
              id + 1),
       Ok(id))
  }

  predicate CanTransition(current: Status, next: Status) {
    || current == next
    || (match current
        case PaidUnfulfilled => true
        case FailedRetryable => true
        case Fulfilled => false
        case FailedTerminal => false)
  }

  datatype TransitionInput = TransitionInput(status: Status, eventType: string, retryCount: int, availableAt: int)

  function TransitionTx(db: Tables, id: JobId, input: TransitionInput): (Tables, Result<Job, JobError>) {
    if id !in db.jobs || id !in db.events then (db, Err(JobNotFound))
    else if !CanTransition(db.jobs[id].status, input.status) then (db, Err(InvalidTransition))
    else
      var job := db.jobs[id].(status := input.status, retryCount := input.retryCount, availableAt := input.availableAt);
      (db.(jobs := db.jobs[id := job], events := db.events[id := db.events[id] + [input.eventType]]), Ok(job))
  }

  predicate CanClaim(db: Tables, id: JobId) {
    id in db.jobs && db.jobs[id].status.FailedRetryable?
  }

  function ClaimTx(db: Tables, id: JobId, now: int): Tables {
    if CanClaim(db, id)
    then db.(jobs := db.jobs[id := db.jobs[id].(status := PaidUnfulfilled, availableAt := now)])
    else db
  }

  // ----- applyProxyResult -----

  /** The error of an upstream call: `retryReason` says that its reason code is one of the
      three idempotency codes that ask for a retry. */
  datatype CallResult =
    | Success
    | ApiError(statusCode: int, retryReason: bool, retryAfter: int)
    | OtherError

  predicate IsRetryable(r: CallResult) {
    r.ApiError? && (r.retryReason || r.statusCode >= 500)
  }

  const DEFAULT_RETRY_DELAY := 5

  function ResultInput(r: CallResult, retryCount: int, maxRetries: int, prefix: string, now: int): TransitionInput {
    if r.Success? then
      TransitionInput(Fulfilled, prefix + "_succeeded", retryCount, now)
    else if IsRetryable(r) && retryCount + 1 <= maxRetries then
      TransitionInput(FailedRetryable, prefix + "_failed_retryable", retryCount + 1,
                      now + if r.retryAfter > 0 then r.retryAfter else DEFAULT_RETRY_DELAY)
    else
      TransitionInput(FailedTerminal, prefix + "_failed_terminal", retryCount, now)
  }

  /** The stored payload as decoded: its user, and whether it has a component to execute. */
  datatype Payload = Undecodable | Decoded(user: int, replayable: bool)

  datatype RetryError = MissingKey | BadPayload | MissingUser | NothingToReplay | Rejected

  /** What must hold of a failed_retryable job before anything is done. */
  function CheckReplay(job: Job, payload: Payload): Result<(), RetryError> {
    if job.input.key == "" then Err(MissingKey)
    else if payload.Undecodable? then Err(BadPayload)
    else if payload.user <= 0 && (job.input.user.None? || job.input.user.value <= 0) then Err(MissingUser)
    else if !payload.replayable then Err(NothingToReplay)
    else Ok(())
  }

  /** A retry on a snapshot of the job, undisturbed: back to paid_unfulfilled, one upstream
      call, its result recorded. A snapshot that is not failed_retryable is left alone, and
      so is a job that cannot be replayed. */
  function RetryRun(db: Tables, id: JobId, snapshot: Job, payload: Payload, eventType: string, result: CallResult,
                    maxRetries: int, prefix: string, now: int): (Tables, Result<(), RetryError>) {
    if !snapshot.status.FailedRetryable? then (db, Ok(()))
    else if CheckReplay(snapshot, payload).Err? then (db, CheckReplay(snapshot, payload))
    else
      var reset := TransitionTx(db, id, TransitionInput(PaidUnfulfilled, eventType, snapshot.retryCount, now));
      if reset.1.Err? then (db, Err(Rejected))
      else
        var recorded := TransitionTx(reset.0, id, ResultInput(result, snapshot.retryCount, maxRetries, prefix, now));
        (recorded.0, if recorded.1.Ok? then Ok(()) else Err(Rejected))
  }

  function Retried(job: Job, result: CallResult, maxRetries: int, now: int): Job {
    var recorded := ResultInput(result, job.retryCount, maxRetries, "", now);
    Job(job.input, recorded.status, recorded.retryCount, recorded.availableAt)
  }

  lemma RetryRunEffect(db: Tables, id: JobId, snapshot: Job, payload: Payload, result: CallResult,
                       maxRetries: int, prefix: string, now: int)
    requires id in db.jobs && id in db.events && snapshot.status.FailedRetryable?
    requires db.jobs[id].status.PaidUnfulfilled? && db.jobs[id].input == snapshot.input
    requires CheckReplay(snapshot, payload).Ok?
    ensures var (db', r) := RetryRun(db, id, snapshot, payload, "worker_retry", result, maxRetries, prefix, now);
            var recorded := ResultInput(result, snapshot.retryCount, maxRetries, prefix, now);
            && r.Ok?
            && db'.jobs == db.jobs[id := Retried(snapshot, result, maxRetries, now)]
            && db'.events == db.events[id := db.events[id] + ["worker_retry", recorded.eventType]]
            && db'.byKey == db.byKey && db'.nextId == db.nextId
  {
    var recorded := ResultInput(result, snapshot.retryCount, maxRetries, prefix, now).eventType;
    assert db.events[id] + ["worker_retry"] + [recorded] == db.events[id] + ["worker_retry", recorded];
  }

  // ----- One job of a worker's tick -----

  /** What happens to one listed job: another instance may claim it first, the claim's
      statement may fail or land unacknowledged, and the upstream answers. */
  datatype Fate = Fate(rival: bool, claim: Write, payload: Payload, result: CallResult)

  function Claimed(job: Job, now: int): Job {
    Job(job.input, PaidUnfulfilled, job.retryCount, now)
  }

  /** Lost to a rival, or claimed without an answer: claimed and not retried. */
  function Processed(job: Job, f: Fate, maxRetries: int, now: int): Job {
    if f.rival || f.claim.LandedUnacked? then Claimed(job, now)
    else if f.claim.Failed? then job
    else if CheckReplay(job, f.payload).Err? then Claimed(job, now)
    else Retried(job, f.result, maxRetries, now)
  }

  // ----- ListRetryDueJobs -----

  predicate Due(job: Job, now: int, maxRetries: int) {
    job.status.FailedRetryable? && job.availableAt <= now && job.retryCount < maxRetries
  }

  /** The query: due jobs, oldest first, at most `limit`, and none older left behind. */
  ghost predicate IsListing(db: Tables, now: int, maxRetries: int, limit: nat, ids: seq<JobId>) {
    && |ids| <= limit
    && (forall i | 0 <= i < |ids| :: ids[i] in db.jobs && Due(db.jobs[ids[i]], now, maxRetries))
    && (forall i, j | 0 <= i < j < |ids| ::
          ids[i] != ids[j] && db.jobs[ids[i]].availableAt <= db.jobs[ids[j]].availableAt)
    && (forall id | id in db.jobs && id !in ids && Due(db.jobs[id], now, maxRetries) ::
          |ids| == limit && forall i | 0 <= i < |ids| :: db.jobs[ids[i]].availableAt <= db.jobs[id].availableAt)
  }

  /** A job with the result of an execution that knew this retry count. */
  predicate HasResult(job: Job, input: CreateInput, retryCount: int, result: CallResult, maxRetries: int, now: int) {
    if result.Success? then job == Job(input, Fulfilled, retryCount, now)
    else if result.ApiError? && (result.retryReason || result.statusCode >= 500) && retryCount < maxRetries then
      job == Job(input, FailedRetryable, retryCount + 1, now + (if result.retryAfter > 0 then result.retryAfter else 5))
    else job == Job(input, FailedTerminal, retryCount, now)
  }

  /** What a tick makes of one job: untouched when only its own claim failed, left in
      paid_unfulfilled when a rival or a lost answer took it or nothing can be replayed, and
      otherwise with the result of the execution. */
  lemma TickCases(job: Job, f: Fate, maxRetries: int, now: int)
    ensures var job' := Processed(job, f, maxRetries, now);
            var user := if f.payload.Decoded? && f.payload.user > 0 then Some(f.payload.user) else job.input.user;
            if !f.rival && f.claim == Failed then job' == job
            else if f.rival || f.claim == LandedUnacked || job.input.key == "" || f.payload == Undecodable
                    || user.None? || user.value <= 0 || !f.payload.replayable then
              job' == Job(job.input, PaidUnfulfilled, job.retryCount, now)
            else HasResult(job', job.input, job.retryCount, f.result, maxRetries, now)
  {
  }

  // ----- The service -----

  class FulfillmentService {
    var db: Tables
    const maxRetries: int

    constructor (maxRetries: int)
      ensures db == NO_JOBS && this.maxRetries == maxRetries
    {
      db := NO_JOBS;
      this.maxRetries := maxRetries;
    }

    method CreateOrLoadJobByIdempotency(input: CreateInput, now: int) returns (r: Result<JobId, JobError>)
      modifies this
      ensures input.eventType == "" || input.key == "" ==> r == Err(InvalidInput) && db == old(db)
      ensures input.eventType != "" && input.key != "" ==> (db, r) == CreateTx(old(db), input, now)
      // A known key answers with its job, but only to the very same event, payload, user and subscription.
      ensures input.eventType != "" && input.key != "" && input.key in old(db).byKey ==>
                var id := old(db).byKey[input.key];
                && db == old(db)
                && r == if id in db.jobs && db.jobs[id].input == input then Ok(id) else Err(IdempotencyConflict)
      ensures input.eventType != "" && input.key != "" && input.key !in old(db).byKey ==>
                var id := old(db).nextId;
                && r == Ok(id)
                && db.jobs == old(db).jobs[id := Job(input, PaidUnfulfilled, 0, now)]
                && db.events.Keys == old(db).events.Keys + {id} && |db.events[id]| == 1
                && (forall id' | id' in old(db).events && id' != id :: db.events[id'] == old(db).events[id'])
                && db.byKey == old(db).byKey[input.key := id] && db.nextId > id
    {
      if input.eventType == "" || input.key == "" {
        return Err(InvalidInput);
      }
      if input.key in db.byKey {
        var id := db.byKey[input.key];
        if id !in db.jobs || db.jobs[id].input != input {
          return Err(IdempotencyConflict);
        }
        return Ok(id);
      }
      var id := db.nextId;
      db := Tables(db.jobs[id := Job(input, PaidUnfulfilled, 0, now)], db.byKey[input.key := id],
                   db.events[id := ["job_created"]], id + 1);
      r := Ok(id);
    }

    method TransitionJob(id: JobId, input: TransitionInput) returns (r: Result<Job, JobError>)
      modifies this
      ensures id <= 0 || input.eventType == "" ==> r == Err(InvalidInput) && db == old(db)
      ensures id > 0 && input.eventType != "" ==> (db, r) == TransitionTx(old(db), id, input)
      ensures r.Ok? <==>
                && id > 0 && input.eventType != "" && id in old(db).jobs && id in old(db).events
                && old(db).jobs[id].status in {PaidUnfulfilled, FailedRetryable, input.status}
      ensures r.Ok? ==>
                && r.value == Job(old(db).jobs[id].input, input.status, input.retryCount, input.availableAt)
                && db.jobs == old(db).jobs[id := r.value]
                && db.events == old(db).events[id := old(db).events[id] + [input.eventType]]
                && db.byKey == old(db).byKey && db.nextId == old(db).nextId
      ensures r.Err? ==> db == old(db)
    {
      if id <= 0 || input.eventType == "" {
        return Err(InvalidInput);
      }
      if id !in db.jobs || id !in db.events {
        return Err(JobNotFound);
      }
      var job := db.jobs[id];
      if !CanTransition(job.status, input.status) {
        return Err(InvalidTransition);
      }
      job := Job(job.input, input.status, input.retryCount, input.availableAt);
      db := db.(jobs := db.jobs[id := job]);
      db := db.(events := db.events[id := db.events[id] + [input.eventType]]);
      r := Ok(job);
    }

    /** Without interference between its read and its transition. */
    method ApplyProxyResult(id: JobId, result: CallResult, prefix: string, now: int) returns (r: Result<Job, JobError>)
      modifies this
      ensures id <= 0 || id !in old(db).jobs ==> r.Err? && db == old(db)
      ensures id > 0 && id in old(db).jobs ==>
                (db, r) == TransitionTx(old(db), id,
                  ResultInput(result, old(db).jobs[id].retryCount, maxRetries, prefix, now))
      ensures r.Ok? ==>
                && r.value == db.jobs[id]
                && HasResult(db.jobs[id], old(db).jobs[id].input, old(db).jobs[id].retryCount, result, maxRetries, now)
    {
      if id <= 0 || id !in db.jobs {
        return Err(JobNotFound);
      }
      r := TransitionJob(id, ResultInput(result, db.jobs[id].retryCount, maxRetries, prefix, now));
    }

    method ClaimRetryableJob(id: JobId, now: int, w: Write) returns (claimed: Result<bool, JobError>)
      modifies this
      ensures id <= 0 ==> claimed == Err(InvalidInput) && db == old(db)
      ensures id > 0 ==> claimed == (if w.Acked? then Ok(CanClaim(old(db), id)) else Err(StoreFailure))
      ensures id > 0 ==> db == if w.Lands() then ClaimTx(old(db), id, now) else old(db)
      ensures claimed == Ok(true) ==>
                && id in old(db).jobs && old(db).jobs[id].status == FailedRetryable
                && db == old(db).(jobs := old(db).jobs[id := old(db).jobs[id].(status := PaidUnfulfilled,
                                                                               availableAt := now)])
      ensures claimed == Ok(false) ==>
                db == old(db) && (id in old(db).jobs ==> old(db).jobs[id].status != FailedRetryable)
    {
      if id <= 0 {
        return Err(InvalidInput);
      }
      var affected := 0;
      if w.Lands() && id in db.jobs && db.jobs[id].status == FailedRetryable {
        var job := db.jobs[id];
        db := db.(jobs := db.jobs[id := Job(job.input, PaidUnfulfilled, job.retryCount, now)]);
        affected := 1;
      }
      claimed := if w.Acked? then Ok(affected == 1) else Err(StoreFailure);
    }

    method RetryPaymentFulfillmentJob(
      id: JobId, snapshot: Job, payload: Payload, eventType: string, result: CallResult, prefix: string, now: int)
      returns (r: Result<(), RetryError>)
      requires id > 0 && eventType != "" && prefix != ""
      modifies this
      ensures (db, r) == RetryRun(old(db), id, snapshot, payload, eventType, result, maxRetries, prefix, now)
      ensures snapshot.status != FailedRetryable ==> r == Ok(()) && db == old(db)
      ensures snapshot.status == FailedRetryable ==>
                && (r == Err(MissingKey) <==> snapshot.input.key == "")
                && (r == Err(BadPayload) <==> snapshot.input.key != "" && payload == Undecodable)
                && (r.Err? && r.error != Rejected ==> db == old(db))
      ensures snapshot.status == FailedRetryable && snapshot.input.key != "" && payload.Decoded? ==>
                && (r == Err(MissingUser) <==>
                      payload.user <= 0 && (snapshot.input.user.None? || snapshot.input.user.value <= 0))
                && (r == Err(NothingToReplay) ==> !payload.replayable)
                && (!payload.replayable ==> r.Err? && db == old(db))
      ensures r == Ok(()) && snapshot.status == FailedRetryable ==>
                && id in old(db).jobs && id in db.jobs
                && old(db).jobs[id].status in {PaidUnfulfilled, FailedRetryable}
                && HasResult(db.jobs[id], old(db).jobs[id].input, snapshot.retryCount, result, maxRetries, now)
    {
      if !snapshot.status.FailedRetryable? {
        return Ok(());
      }
      if snapshot.input.key == "" {
        return Err(MissingKey);
      }
      if payload.Undecodable? {
        return Err(BadPayload);
      }
      var user := payload.user;
      if user <= 0 && snapshot.input.user.Some? {
        user := snapshot.input.user.value;
      }
      if user <= 0 {
        return Err(MissingUser);
      }
      if !payload.replayable {
        return Err(NothingToReplay);
      }
      var reset := TransitionJob(id, TransitionInput(PaidUnfulfilled, eventType, snapshot.retryCount, now));
      if reset.Err? {
        return Err(Rejected);
      }
      var recorded := ApplyProxyResult(id, result, prefix, now);
      r := if recorded.Ok? then Ok(()) else Err(Rejected);
    }

    /** The worker's handling of one listed job: claim it and, if won, retry it. */
    method Process(id: JobId, f: Fate, prefix: string, now: int)
      requires prefix != "" && id > 0 && id in db.events && CanClaim(db, id)
      modifies this
      ensures db.byKey == old(db).byKey && db.nextId == old(db).nextId
      ensures db.jobs == old(db).jobs[id := Processed(old(db).jobs[id], f, maxRetries, now)]
      ensures db.events ==
              if f.rival || !f.claim.Acked? || CheckReplay(old(db).jobs[id], f.payload).Err? then old(db).events
              else old(db).events[id := old(db).events[id] +
                     ["worker_retry",
                      ResultInput(f.result, old(db).jobs[id].retryCount, maxRetries, prefix, now).eventType]]
    {
      var snapshot := db.jobs[id];
      if f.rival {
        var _ := ClaimRetryableJob(id, now, Acked);
      }
      var claimed := ClaimRetryableJob(id, now, f.claim);
      if claimed.Err? || !claimed.value {
        return;
      }
      ghost var db1 := db;
      var retried := RetryPaymentFulfillmentJob(id, snapshot, f.payload, "worker_retry", f.result, prefix, now);
      if CheckReplay(snapshot, f.payload).Ok? {
        RetryRunEffect(db1, id, snapshot, f.payload, f.result, maxRetries, prefix, now);
      }
    }

    /** One tick of the worker: `listed` is None when the query fails, and the context is
        cancelled before job number `cancelled`. Every job listed before that is handled
        once; all others stay, among them every job that is not failed_retryable, not due yet
        or has used up its retries. */
    method RunOnce(listed: Option<seq<JobId>>, fates: seq<Fate>, cancelled: nat, prefix: string, now: int)
      requires prefix != "" && WellFormed(db)
      requires listed.Some? ==>
                 |fates| == |listed.value| && IsListing(db, now, maxRetries, |listed.value|, listed.value)
      modifies this
      ensures listed.None? ==> db == old(db)
      ensures listed.Some? ==> Handled(old(db), db, listed.value, fates, cancelled, maxRetries, now)
      ensures forall id | id in old(db).jobs && id in db.jobs && db.jobs[id] != old(db).jobs[id] ::
                && old(db).jobs[id].status == FailedRetryable && old(db).jobs[id].availableAt <= now
                && old(db).jobs[id].retryCount < maxRetries
      ensures db.jobs.Keys == old(db).jobs.Keys
    {
      if listed.Some? {
        ProcessAll(listed.value, fates, cancelled, prefix, now);
      }
    }

    method ProcessAll(listed: seq<JobId>, fates: seq<Fate>, cancelled: nat, prefix: string, now: int)
      requires prefix != "" && |fates| == |listed| && db.jobs.Keys == db.events.Keys
      requires forall i | 0 <= i < |listed| :: listed[i] > 0 && CanClaim(db, listed[i])
      requires forall i, j | 0 <= i < j < |listed| :: listed[i] != listed[j]
      modifies this
      ensures Handled(old(db), db, listed, fates, cancelled, maxRetries, now)
    {
      ghost var db0 := db;
      for k := 0 to |listed|
        invariant k <= cancelled && db.jobs.Keys == db.events.Keys
        invariant Handled(db0, db, listed, fates, k, maxRetries, now)
      {
        if k >= cancelled {
          return;
        }
        ghost var before := db;
        Process(listed[k], fates[k], prefix, now);
        HandledNext(db0, before, db, listed, fates, k, maxRetries, now);
      }
    }
  }

  /** A tick's effect on the jobs. */
  ghost predicate Handled(db0: Tables, db: Tables, listed: seq<JobId>, fates: seq<Fate>, cancelled: nat,
                          maxRetries: int, now: int)
    requires |fates| == |listed|
  {
    && db.jobs.Keys == db0.jobs.Keys
    && (forall id | id in db0.jobs && id !in listed :: db.jobs[id] == db0.jobs[id])
    && (forall i | 0 <= i < |listed| ::
          listed[i] in db0.jobs &&
          db.jobs[listed[i]] ==
          if i < cancelled then Processed(db0.jobs[listed[i]], fates[i], maxRetries, now) else db0.jobs[listed[i]])
  }

  lemma HandledNext(db0: Tables, db: Tables, db': Tables, listed: seq<JobId>, fates: seq<Fate>, k: nat,
                    maxRetries: int, now: int)
    requires |fates| == |listed| && k < |listed| && Handled(db0, db, listed, fates, k, maxRetries, now)
    requires forall i, j | 0 <= i < j < |listed| :: listed[i] != listed[j]
    requires db'.jobs == db.jobs[listed[k] := Processed(db.jobs[listed[k]], fates[k], maxRetries, now)]
    ensures Handled(db0, db', listed, fates, k + 1, maxRetries, now)
  {
    assert forall i | 0 <= i < |listed| && i != k :: listed[i] != listed[k];
  }

  /** Ids are positive, below the next one, found under their key, and have events. */
  ghost predicate WellFormed(db: Tables) {
    && db.nextId > 0
    && db.events.Keys == db.jobs.Keys
    && (forall id | id in db.jobs :: 0 < id < db.nextId && db.jobs[id].input.key in db.byKey
                                     && db.byKey[db.jobs[id].input.key] == id)
    && (forall key | key in db.byKey :: db.byKey[key] in db.jobs && db.jobs[db.byKey[key]].input.key == key)
  }
}
