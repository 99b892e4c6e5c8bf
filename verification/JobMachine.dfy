/** Every interleaving of the executions that drive fulfillment jobs.

    An execution is started by a webhook delivery (CreateOrLoadJobByIdempotency, then
    execute), or by a retry: the worker, the checkout status poll or an admin take a
    snapshot of the job, the worker also claims it, the job is reset to paid_unfulfilled,
    the upstream is called for one component of the payload after the other, and for each
    applyProxyResult reads the job and then transitions it. A recharge that succeeds before
    an API key is created is not recorded as a result but puts the job back to
    paid_unfulfilled, with the retry count the execution was started with. A refund or dispute
    event fails a job that is not executed. Each of these is one atomic action and an
    execution can crash between any two. */
module JobMachine {
  import opened Common
  import opened Fulfillment

  type Tid = nat

  /** Without `overlap`, a job is worked on by one execution at a time. A payload has at most
      `components` components; executions of smaller ones stop earlier. */
  datatype Config = Config(maxRetries: nat, overlap: bool, components: nat)

  datatype Pc =
    | Snapshot(id: JobId, job: Job)
    | Executing(id: JobId, retryCount: int, left: nat)    // components still to execute
    | Recording(id: JobId, retryCount: int, left: nat)

  datatype Action =
    | Deliver(t: Tid, input: CreateInput, now: int)
    | Look(t: Tid, id: JobId)
    | Claim(t: Tid, now: int)
    | Reset(t: Tid, eventType: string, now: int)
    | Advance(t: Tid, eventType: string, now: int)
    | Read(t: Tid)
    | Record(t: Tid, result: CallResult, prefix: string, now: int)
    | Terminate(id: JobId, eventType: string, now: int)
    | Crash(t: Tid)

  /** `transitions` and `results` count, per job, the successful TransitionJob calls and
      those among them that recorded the result of an execution. */
  datatype State = State(
    db: Tables, pcs: map<Tid, Pc>, transitions: map<JobId, nat>, results: map<JobId, nat>)

  const INIT := State(NO_JOBS, map[], map[], map[])

  predicate Free(cfg: Config, s: State, id: JobId) {
    cfg.overlap || forall t | t in s.pcs :: s.pcs[t].id != id
  }

  predicate Enabled(cfg: Config, s: State, a: Action) {
    match a
    case Deliver(t, input, now) =>
      t !in s.pcs && input.key != "" && input.eventType != "" &&
      (match CreateTx(s.db, input, now).1 case Ok(id) => Free(cfg, s, id) case Err(_) => true)
    case Look(t, id) => t !in s.pcs && id in s.db.jobs && Free(cfg, s, id)
    case Claim(t, _) => t in s.pcs && s.pcs[t].Snapshot?
    case Reset(t, eventType, _) => t in s.pcs && s.pcs[t].Snapshot? && eventType != ""
    // Only the first component, and only when another follows.
    case Advance(t, eventType, _) =>
      t in s.pcs && s.pcs[t].Executing? && 1 < s.pcs[t].left == cfg.components && eventType != ""
    case Read(t) => t in s.pcs && s.pcs[t].Executing? && s.pcs[t].id in s.db.jobs
    case Record(t, _, _, _) => t in s.pcs && s.pcs[t].Recording?
    case Terminate(id, eventType, _) => id in s.db.jobs && Free(cfg, s, id) && eventType != ""
    case Crash(t) => t in s.pcs
  }

  function Count(counts: map<JobId, nat>, id: JobId): nat {
    if id in counts then counts[id] else 0
  }

  /** Run TransitionJob and keep count of it. */
  function Transition(s: State, id: JobId, input: TransitionInput, records: bool): (State, Result<Job, JobError>) {
    var (db, r) := TransitionTx(s.db, id, input);
    if r.Ok?
    then (s.(db := db, transitions := s.transitions[id := Count(s.transitions, id) + 1],
             results := if records then s.results[id := Count(s.results, id) + 1] else s.results), r)
    else (s, r)
  }

  function Drop(s: State, t: Tid): State {
    s.(pcs := s.pcs - {t})
  }

  /** recordTerminalStripeEvent gives no retry count, which TransitionJob stores as 0. */
  function Failing(eventType: string, now: int): TransitionInput {
    TransitionInput(FailedTerminal, eventType, 0, now)
  }

  function Apply(cfg: Config, s: State, a: Action): State
    requires Enabled(cfg, s, a)
  {
    match a
    case Deliver(t, input, now) =>
      var (db, r) := CreateTx(s.db, input, now);
      (match r
       case Err(_) => s.(db := db)
       case Ok(id) =>
         // executePaymentSuccessFulfillment returns at once on a final job.
         if id in db.jobs && !db.jobs[id].status.Final() && cfg.components > 0
         then s.(db := db, pcs := s.pcs[t := Executing(id, db.jobs[id].retryCount, cfg.components)])
         else s.(db := db))
    case Look(t, id) =>
      if s.db.jobs[id].status.FailedRetryable?
      then s.(pcs := s.pcs[t := Snapshot(id, s.db.jobs[id])]) else s
    case Claim(t, now) =>
      var id := s.pcs[t].id;
      if CanClaim(s.db, id) then s.(db := ClaimTx(s.db, id, now)) else Drop(s, t)
    case Reset(t, eventType, now) =>
      var pc := s.pcs[t];
      var (s', r) := Transition(s, pc.id, TransitionInput(PaidUnfulfilled, eventType, pc.job.retryCount, now), false);
      if r.Ok? && cfg.components > 0
      then s'.(pcs := s.pcs[t := Executing(pc.id, pc.job.retryCount, cfg.components)]) else Drop(s', t)
    case Advance(t, eventType, now) =>
      var pc := s.pcs[t];
      var (s', r) := Transition(s, pc.id, TransitionInput(PaidUnfulfilled, eventType, pc.retryCount, now), false);
      if r.Ok? then s'.(pcs := s.pcs[t := Executing(pc.id, pc.retryCount, pc.left - 1)]) else Drop(s', t)
    case Read(t) =>
      var pc := s.pcs[t];
      s.(pcs := s.pcs[t := Recording(pc.id, s.db.jobs[pc.id].retryCount, pc.left)])
    case Record(t, result, prefix, now) =>
      var pc := s.pcs[t];
      var input := ResultInput(result, pc.retryCount, cfg.maxRetries, prefix, now);
      var (s', r) := Transition(s, pc.id, input, true);
      if r.Ok? && pc.left > 1
      then s'.(pcs := s.pcs[t := Executing(pc.id, input.retryCount, pc.left - 1)]) else Drop(s', t)
    case Terminate(id, eventType, now) =>
      if s.db.jobs[id].status.FailedTerminal? then s
      else Transition(s, id, Failing(eventType, now), false).0
    case Crash(t) => Drop(s, t)
  }

  ghost function After(cfg: Config, acts: seq<Action>): Option<State> {
    if acts == [] then Some(INIT)
    else match After(cfg, acts[..|acts| - 1])
         case None => None
         case Some(s) =>
           var a := acts[|acts| - 1];
           if Enabled(cfg, s, a) then Some(Apply(cfg, s, a)) else None
  }

  // ----- The transactions keep the tables well formed -----

  lemma CreateKeeps(db: Tables, input: CreateInput, now: int)
    requires WellFormed(db)
    ensures WellFormed(CreateTx(db, input, now).0)
  {
  }

  lemma CreateStable(db: Tables, input: CreateInput, now: int)
    requires WellFormed(db)
    ensures forall id | id in db.jobs :: id in CreateTx(db, input, now).0.jobs &&
                                         CreateTx(db, input, now).0.jobs[id] == db.jobs[id]
  {
  }

  lemma TransitionKeeps(db: Tables, id: JobId, input: TransitionInput)
    requires WellFormed(db)
    ensures WellFormed(TransitionTx(db, id, input).0)
  {
  }

  lemma ClaimKeeps(db: Tables, id: JobId, now: int)
    requires WellFormed(db)
    ensures WellFormed(ClaimTx(db, id, now))
  {
  }

  // ----- Every interleaving -----

  ghost predicate Budget(cfg: Config, s: State) {
    && (forall id | id in s.db.jobs :: 0 <= s.db.jobs[id].retryCount <= cfg.maxRetries)
    && (forall t | t in s.pcs && s.pcs[t].Snapshot? :: 0 <= s.pcs[t].job.retryCount <= cfg.maxRetries)
    && (forall t | t in s.pcs && !s.pcs[t].Snapshot? :: 0 <= s.pcs[t].retryCount <= cfg.maxRetries)
  }

  ghost predicate Counted(db: Tables, transitions: map<JobId, nat>) {
    && (forall id | id in db.jobs :: id in db.events && |db.events[id]| == 1 + Count(transitions, id))
    && (forall id | id in transitions :: id in db.jobs)
  }

  ghost predicate EventsCounted(s: State) {
    Counted(s.db, s.transitions)
  }

  ghost predicate Inv(cfg: Config, s: State) {
    WellFormed(s.db) && Budget(cfg, s) && EventsCounted(s)
  }

  lemma DeliverBudget(cfg: Config, s: State, a: Action)
    requires Budget(cfg, s) && Enabled(cfg, s, a) && a.Deliver?
    ensures Budget(cfg, Apply(cfg, s, a))
  {
  }

  lemma RecordBudget(cfg: Config, s: State, a: Action)
    requires Budget(cfg, s) && Enabled(cfg, s, a) && a.Record?
    ensures Budget(cfg, Apply(cfg, s, a))
  {
  }

  lemma TransitionBudget(cfg: Config, s: State, a: Action)
    requires Budget(cfg, s) && Enabled(cfg, s, a) && (a.Reset? || a.Advance? || a.Terminate?)
    ensures Budget(cfg, Apply(cfg, s, a))
  {
  }

  lemma StepBudget(cfg: Config, s: State, a: Action)
    requires Budget(cfg, s) && Enabled(cfg, s, a)
    ensures Budget(cfg, Apply(cfg, s, a))
  {
    match a
    case Deliver(_, _, _) => DeliverBudget(cfg, s, a);
    case Record(_, _, _, _) => RecordBudget(cfg, s, a);
    case Reset(_, _, _) => TransitionBudget(cfg, s, a);
    case Advance(_, _, _) => TransitionBudget(cfg, s, a);
    case Terminate(_, _, _) => TransitionBudget(cfg, s, a);
    case _ =>
  }

  lemma CreateCounted(db: Tables, transitions: map<JobId, nat>, input: CreateInput, now: int)
    requires WellFormed(db) && Counted(db, transitions)
    ensures Counted(CreateTx(db, input, now).0, transitions)
  {
  }

  lemma TransitionCounted(s: State, id: JobId, input: TransitionInput, records: bool)
    requires EventsCounted(s)
    ensures EventsCounted(Transition(s, id, input, records).0)
  {
  }

  lemma StepWellFormed(cfg: Config, s: State, a: Action)
    requires WellFormed(s.db) && EventsCounted(s) && Enabled(cfg, s, a)
    ensures WellFormed(Apply(cfg, s, a).db)
  {
    match a
    case Deliver(_, input, now) => CreateKeeps(s.db, input, now);
    case Claim(t, now) => ClaimKeeps(s.db, s.pcs[t].id, now);
    case Reset(t, e, now) =>
      TransitionKeeps(s.db, s.pcs[t].id, TransitionInput(PaidUnfulfilled, e, s.pcs[t].job.retryCount, now));
    case Advance(t, e, now) =>
      TransitionKeeps(s.db, s.pcs[t].id, TransitionInput(PaidUnfulfilled, e, s.pcs[t].retryCount, now));
    case Terminate(id, e, now) => TransitionKeeps(s.db, id, Failing(e, now));
    case Record(t, result, prefix, now) =>
      TransitionKeeps(s.db, s.pcs[t].id, ResultInput(result, s.pcs[t].retryCount, cfg.maxRetries, prefix, now));
    case _ =>
  }

  lemma StepEvents(cfg: Config, s: State, a: Action)
    requires WellFormed(s.db) && EventsCounted(s) && Enabled(cfg, s, a)
    ensures EventsCounted(Apply(cfg, s, a))
  {
    match a
    case Reset(t, e, now) =>
      TransitionCounted(s, s.pcs[t].id, TransitionInput(PaidUnfulfilled, e, s.pcs[t].job.retryCount, now), false);
    case Advance(t, e, now) =>
      TransitionCounted(s, s.pcs[t].id, TransitionInput(PaidUnfulfilled, e, s.pcs[t].retryCount, now), false);
    case Record(t, result, prefix, now) =>
      TransitionCounted(s, s.pcs[t].id, ResultInput(result, s.pcs[t].retryCount, cfg.maxRetries, prefix, now), true);
    case Terminate(id, e, now) => TransitionCounted(s, id, Failing(e, now), false);
    case Deliver(_, input, now) => CreateCounted(s.db, s.transitions, input, now);
    case _ =>
  }

  lemma {:induction false} InvAlways(cfg: Config, acts: seq<Action>)
    requires After(cfg, acts).Some?
    ensures Inv(cfg, After(cfg, acts).value)
  {
    if acts != [] {
      InvAlways(cfg, acts[..|acts| - 1]);
      var s, a := After(cfg, acts[..|acts| - 1]).value, acts[|acts| - 1];
      StepWellFormed(cfg, s, a);
      StepBudget(cfg, s, a);
      StepEvents(cfg, s, a);
    }
  }

  /** In every run, for payloads with any number of components: retry counts stay within the
      budget, a key has one job, and a job has one event more than successful transitions. */
  lemma JobsSafe(cfg: Config, acts: seq<Action>, s: State, id: JobId, id': JobId)
    requires After(cfg, acts) == Some(s) && id in s.db.jobs && id' in s.db.jobs
    ensures 0 <= s.db.jobs[id].retryCount <= cfg.maxRetries
    ensures s.db.jobs[id].input.key == s.db.jobs[id'].input.key ==> id == id'
    ensures id in s.db.events && |s.db.events[id]| == 1 + Count(s.transitions, id)
  {
    InvAlways(cfg, acts);
  }

  // ----- Final states absorb -----

  lemma TransitionFinal(s: State, id': JobId, input: TransitionInput, records: bool, id: JobId)
    requires id in s.db.jobs && s.db.jobs[id].status.Final()
    ensures var db := Transition(s, id', input, records).0.db;
            id in db.jobs && db.jobs[id].status == s.db.jobs[id].status
  {
  }

  lemma StepFinal(cfg: Config, s: State, a: Action, id: JobId)
    requires WellFormed(s.db) && Enabled(cfg, s, a) && id in s.db.jobs && s.db.jobs[id].status.Final()
    ensures id in Apply(cfg, s, a).db.jobs && Apply(cfg, s, a).db.jobs[id].status == s.db.jobs[id].status
  {
    match a
    case Reset(t, e, now) =>
      TransitionFinal(s, s.pcs[t].id, TransitionInput(PaidUnfulfilled, e, s.pcs[t].job.retryCount, now), false, id);
    case Advance(t, e, now) =>
      TransitionFinal(s, s.pcs[t].id, TransitionInput(PaidUnfulfilled, e, s.pcs[t].retryCount, now), false, id);
    case Record(t, result, prefix, now) =>
      var input := ResultInput(result, s.pcs[t].retryCount, cfg.maxRetries, prefix, now);
      TransitionFinal(s, s.pcs[t].id, input, true, id);
    case Terminate(id', e, now) => TransitionFinal(s, id', Failing(e, now), false, id);
    case _ =>
  }

  /** Once fulfilled or failed_terminal, a job keeps that status for the rest of the run. */
  lemma {:induction false} FinalStays(cfg: Config, acts: seq<Action>, i: nat, id: JobId)
    requires i <= |acts| && After(cfg, acts).Some? && After(cfg, acts[..i]).Some?
    requires id in After(cfg, acts[..i]).value.db.jobs && After(cfg, acts[..i]).value.db.jobs[id].status.Final()
    ensures id in After(cfg, acts).value.db.jobs
    ensures After(cfg, acts).value.db.jobs[id].status == After(cfg, acts[..i]).value.db.jobs[id].status
  {
    if i == |acts| {
      assert acts[..i] == acts;
    } else {
      var before := acts[..|acts| - 1];
      assert before[..i] == acts[..i];
      FinalStays(cfg, before, i, id);
      InvAlways(cfg, before);
      StepFinal(cfg, After(cfg, before).value, acts[|acts| - 1], id);
    }
  }

  // ----- A job keeps the input it was created with -----

  lemma StepInput(cfg: Config, s: State, a: Action, id: JobId)
    requires WellFormed(s.db) && Enabled(cfg, s, a) && id in s.db.jobs
    ensures id in Apply(cfg, s, a).db.jobs && Apply(cfg, s, a).db.jobs[id].input == s.db.jobs[id].input
  {
    if a.Deliver? {
      CreateStable(s.db, a.input, a.now);
    }
  }

  lemma {:induction false} InputStays(cfg: Config, acts: seq<Action>, i: nat, id: JobId)
    requires i <= |acts| && After(cfg, acts).Some? && After(cfg, acts[..i]).Some?
    requires id in After(cfg, acts[..i]).value.db.jobs
    ensures id in After(cfg, acts).value.db.jobs
    ensures After(cfg, acts).value.db.jobs[id].input == After(cfg, acts[..i]).value.db.jobs[id].input
  {
    if i == |acts| {
      assert acts[..i] == acts;
    } else {
      var before := acts[..|acts| - 1];
      assert before[..i] == acts[..i];
      InputStays(cfg, before, i, id);
      InvAlways(cfg, before);
      StepInput(cfg, After(cfg, before).value, acts[|acts| - 1], id);
    }
  }

  /** A delivery starts an execution of a job with exactly its input, or none: an event that
      reuses the key of another changes nothing. */
  lemma DeliverStarts(cfg: Config, s: State, t: Tid, input: CreateInput, now: int)
    requires WellFormed(s.db) && Enabled(cfg, s, Deliver(t, input, now))
    ensures var s' := Apply(cfg, s, Deliver(t, input, now));
            && (t in s'.pcs ==> s'.pcs[t].id in s'.db.jobs && s'.db.jobs[s'.pcs[t].id].input == input)
            && (input.key in s.db.byKey && s.db.jobs[s.db.byKey[input.key]].input != input ==> s' == s)
  {
  }

  /** In every run, what a delivery executes is a job whose input is the one delivered, at
      the delivery and ever after. */
  lemma ExecutesWhatWasDelivered(cfg: Config, acts: seq<Action>, i: nat, s: State)
    requires i < |acts| && acts[i].Deliver? && After(cfg, acts[..i]).Some? && After(cfg, acts[..i + 1]) == Some(s)
    requires After(cfg, acts).Some? && acts[i].t in s.pcs
    ensures var id := s.pcs[acts[i].t].id;
            && id in s.db.jobs && s.db.jobs[id].input == acts[i].input
            && id in After(cfg, acts).value.db.jobs && After(cfg, acts).value.db.jobs[id].input == acts[i].input
  {
    assert acts[..i + 1][..i] == acts[..i];
    InvAlways(cfg, acts[..i]);
    DeliverStarts(cfg, After(cfg, acts[..i]).value, acts[i].t, acts[i].input, acts[i].now);
    InputStays(cfg, acts, i + 1, s.pcs[acts[i].t].id);
  }

  // ----- Who retries a job -----

  /** A snapshot is taken of a failed_retryable job only, and a claim goes on only from one;
      a job that is claimed is paid_unfulfilled, so that every other claim of it gives up. */
  lemma LookIff(cfg: Config, s: State, t: Tid, id: JobId)
    requires Enabled(cfg, s, Look(t, id))
    ensures var s' := Apply(cfg, s, Look(t, id));
            && s'.db == s.db
            && s'.pcs == if s.db.jobs[id].status == FailedRetryable then s.pcs[t := Snapshot(id, s.db.jobs[id])]
                         else s.pcs
  {
  }

  lemma ClaimIff(cfg: Config, s: State, t: Tid, now: int)
    requires Enabled(cfg, s, Claim(t, now))
    ensures var (s', id) := (Apply(cfg, s, Claim(t, now)), s.pcs[t].id);
            && (t in s'.pcs <==> id in s.db.jobs && s.db.jobs[id].status == FailedRetryable)
            && (t in s'.pcs ==> s'.db.jobs == s.db.jobs[id := s.db.jobs[id].(status := PaidUnfulfilled,
                                                                             availableAt := now)])
            && (t !in s'.pcs ==> s'.db == s.db)
  {
  }

  /** Of two workers that took a snapshot of the same job, the second to claim it gives up. */
  lemma ClaimedOnce(cfg: Config, s: State, t: Tid, t': Tid, now: int, now': int)
    requires Enabled(cfg, s, Claim(t, now)) && Enabled(cfg, s, Claim(t', now')) && t != t'
    requires s.pcs[t].id == s.pcs[t'].id && t in Apply(cfg, s, Claim(t, now)).pcs
    ensures var s1 := Apply(cfg, s, Claim(t, now));
            && Enabled(cfg, s1, Claim(t', now'))
            && t' !in Apply(cfg, s1, Claim(t', now')).pcs && Apply(cfg, s1, Claim(t', now')).db == s1.db
  {
  }

  /** Undisturbed from its reset on, a retry of one component records its result. */
  lemma ReplayedAlone(cfg: Config, acts: seq<Action>, s: State, t: Tid, job: Job, result: CallResult, now: int)
    returns (acts': seq<Action>, s': State)
    requires After(cfg, acts) == Some(s) && cfg.components == 1 && t in s.pcs && s.pcs[t].Snapshot?
    requires s.pcs[t].job == job && s.pcs[t].id in s.db.jobs && s.pcs[t].id in s.db.events
    requires s.db.jobs[s.pcs[t].id].status == PaidUnfulfilled && s.db.jobs[s.pcs[t].id].input == job.input
    ensures After(cfg, acts') == Some(s') && s'.pcs == s.pcs - {t}
    ensures s'.db.jobs == s.db.jobs[s.pcs[t].id := Retried(job, result, cfg.maxRetries, now)]
  {
    acts', s' := Extend(cfg, acts, s, Reset(t, "worker_retry", now));
    acts', s' := Extend(cfg, acts', s', Read(t));
    acts', s' := Extend(cfg, acts', s', Record(t, result, "", now));
  }

  /** An undisturbed retry of one component is the one of the service. */
  lemma RetriedAlone(cfg: Config, acts: seq<Action>, s: State, t: Tid, id: JobId, result: CallResult, now: int)
    returns (acts': seq<Action>, s': State)
    requires After(cfg, acts) == Some(s) && cfg.components == 1 && t !in s.pcs && Free(cfg, s, id)
    requires id in s.db.jobs && id in s.db.events && s.db.jobs[id].status == FailedRetryable
    ensures After(cfg, acts') == Some(s') && s'.pcs == s.pcs
    ensures s'.db.jobs == s.db.jobs[id := Retried(s.db.jobs[id], result, cfg.maxRetries, now)]
  {
    LookIff(cfg, s, t, id);
    acts', s' := Extend(cfg, acts, s, Look(t, id));
    ClaimIff(cfg, s', t, now);
    acts', s' := Extend(cfg, acts', s', Claim(t, now));
    acts', s' := ReplayedAlone(cfg, acts', s', t, s.db.jobs[id], result, now);
  }

  /** A result is counted from what the job says when it is read, and not from what the
      execution knew before. */
  lemma ReadIsCurrent(cfg: Config, s: State, t: Tid)
    requires Enabled(cfg, s, Read(t))
    ensures var (s', pc) := (Apply(cfg, s, Read(t)), s.pcs[t]);
            s'.db == s.db && s'.pcs == s.pcs[t := Recording(pc.id, s.db.jobs[pc.id].retryCount, pc.left)]
  {
  }

  /** A refund or dispute event ends its job as failed, whatever retries it had, unless it is
      fulfilled already. */
  lemma TerminateIs(cfg: Config, s: State, id: JobId, eventType: string, now: int)
    requires Enabled(cfg, s, Terminate(id, eventType, now)) && id in s.db.events
    ensures var job := Apply(cfg, s, Terminate(id, eventType, now)).db.jobs[id];
            job == if s.db.jobs[id].status in {Fulfilled, FailedTerminal} then s.db.jobs[id]
                   else Job(s.db.jobs[id].input, FailedTerminal, 0, now)
  {
  }

  // ----- Executions that do not overlap -----

  ghost predicate Alone(s: State) {
    forall t, t' | t in s.pcs && t' in s.pcs && t != t' :: s.pcs[t].id != s.pcs[t'].id
  }

  /** What an execution knows is still true; its job is not final before a result of its own. */
  ghost predicate Current(cfg: Config, db: Tables, pc: Pc) {
    && pc.id in db.jobs
    && var job := db.jobs[pc.id];
       if pc.Snapshot? then !job.status.Final() && pc.job.retryCount == job.retryCount
       else
         && pc.retryCount == job.retryCount && 1 <= pc.left <= cfg.components
         && (pc.left == cfg.components ==> !job.status.Final())
  }

  ghost predicate UpToDate(cfg: Config, s: State) {
    forall t | t in s.pcs :: Current(cfg, s.db, s.pcs[t])
  }

  /** A job that is not final has recorded as many results as it has counted retries, and a
      final one no more than all retries and a whole execution. */
  ghost predicate Settled(cfg: Config, db: Tables, results: map<JobId, nat>) {
    && (forall id | id in db.jobs ::
          var job := db.jobs[id];
          if job.status.Final() then Count(results, id) <= cfg.maxRetries + cfg.components
          else Count(results, id) == job.retryCount)
    && (forall id | id in results :: id in db.jobs)
  }

  /** Each execution has recorded no result for the components it still has to execute. */
  ghost predicate Owed(cfg: Config, s: State) {
    forall t | t in s.pcs && !s.pcs[t].Snapshot? && s.pcs[t].id in s.db.jobs ::
      Count(s.results, s.pcs[t].id) + s.pcs[t].left <= s.db.jobs[s.pcs[t].id].retryCount + cfg.components
  }

  ghost predicate Paid(cfg: Config, s: State) {
    Settled(cfg, s.db, s.results) && Owed(cfg, s)
  }

  lemma StepAlone(cfg: Config, s: State, a: Action)
    requires !cfg.overlap && Alone(s) && Enabled(cfg, s, a)
    ensures Alone(Apply(cfg, s, a))
  {
    match a
    case Deliver(_, _, _) =>
    case _ =>
  }

  lemma DeliverUpToDate(cfg: Config, s: State, a: Action)
    requires WellFormed(s.db) && UpToDate(cfg, s) && Enabled(cfg, s, a) && a.Deliver?
    ensures UpToDate(cfg, Apply(cfg, s, a))
  {
    CreateStable(s.db, a.input, a.now);
  }

  lemma RecordUpToDate(cfg: Config, s: State, a: Action)
    requires Alone(s) && UpToDate(cfg, s) && Enabled(cfg, s, a) && a.Record?
    ensures UpToDate(cfg, Apply(cfg, s, a))
  {
  }

  lemma ResetUpToDate(cfg: Config, s: State, a: Action)
    requires Alone(s) && UpToDate(cfg, s) && Enabled(cfg, s, a) && a.Reset?
    ensures UpToDate(cfg, Apply(cfg, s, a))
  {
    var s' := Apply(cfg, s, a);
    forall t | t in s'.pcs
      ensures Current(cfg, s'.db, s'.pcs[t])
    {
      assert Current(cfg, s.db, s.pcs[t]);
      assert t != a.t ==> s.pcs[t].id != s.pcs[a.t].id;
    }
  }

  lemma AdvanceUpToDate(cfg: Config, s: State, a: Action)
    requires Alone(s) && UpToDate(cfg, s) && Enabled(cfg, s, a) && a.Advance?
    ensures UpToDate(cfg, Apply(cfg, s, a))
  {
  }

  lemma TerminateUpToDate(cfg: Config, s: State, a: Action)
    requires !cfg.overlap && UpToDate(cfg, s) && Enabled(cfg, s, a) && a.Terminate?
    ensures UpToDate(cfg, Apply(cfg, s, a))
  {
  }

  lemma LocalUpToDate(cfg: Config, s: State, a: Action)
    requires UpToDate(cfg, s) && Enabled(cfg, s, a) && (a.Look? || a.Claim? || a.Read? || a.Crash?)
    ensures UpToDate(cfg, Apply(cfg, s, a))
  {
  }

  lemma StepUpToDate(cfg: Config, s: State, a: Action)
    requires !cfg.overlap && WellFormed(s.db) && Alone(s) && UpToDate(cfg, s) && Enabled(cfg, s, a)
    ensures UpToDate(cfg, Apply(cfg, s, a))
  {
    match a
    case Deliver(_, _, _) => DeliverUpToDate(cfg, s, a);
    case Record(_, _, _, _) => RecordUpToDate(cfg, s, a);
    case Reset(_, _, _) => ResetUpToDate(cfg, s, a);
    case Advance(_, _, _) => AdvanceUpToDate(cfg, s, a);
    case Terminate(_, _, _) => TerminateUpToDate(cfg, s, a);
    case _ => LocalUpToDate(cfg, s, a);
  }

  lemma RecordSettled(cfg: Config, s: State, a: Action)
    requires Budget(cfg, s) && UpToDate(cfg, s) && Paid(cfg, s) && Enabled(cfg, s, a) && a.Record?
    ensures Settled(cfg, Apply(cfg, s, a).db, Apply(cfg, s, a).results)
  {
  }

  lemma RecordOwed(cfg: Config, s: State, a: Action)
    requires Alone(s) && UpToDate(cfg, s) && Owed(cfg, s) && Enabled(cfg, s, a) && a.Record?
    ensures Owed(cfg, Apply(cfg, s, a))
  {
  }

  lemma RecordPaid(cfg: Config, s: State, a: Action)
    requires Budget(cfg, s) && Alone(s) && UpToDate(cfg, s) && Paid(cfg, s) && Enabled(cfg, s, a) && a.Record?
    ensures Paid(cfg, Apply(cfg, s, a))
  {
    RecordSettled(cfg, s, a);
    RecordOwed(cfg, s, a);
  }

  lemma CreateSettled(cfg: Config, db: Tables, results: map<JobId, nat>, input: CreateInput, now: int)
    requires WellFormed(db) && Settled(cfg, db, results)
    ensures Settled(cfg, CreateTx(db, input, now).0, results)
  {
  }

  lemma DeliverPaid(cfg: Config, s: State, a: Action)
    requires WellFormed(s.db) && UpToDate(cfg, s) && Paid(cfg, s) && Enabled(cfg, s, a) && a.Deliver?
    ensures Paid(cfg, Apply(cfg, s, a))
  {
    CreateStable(s.db, a.input, a.now);
    CreateSettled(cfg, s.db, s.results, a.input, a.now);
  }

  lemma ResetPaid(cfg: Config, s: State, a: Action)
    requires Alone(s) && UpToDate(cfg, s) && Paid(cfg, s) && Enabled(cfg, s, a) && a.Reset?
    ensures Paid(cfg, Apply(cfg, s, a))
  {
  }

  lemma AdvancePaid(cfg: Config, s: State, a: Action)
    requires Alone(s) && UpToDate(cfg, s) && Paid(cfg, s) && Enabled(cfg, s, a) && a.Advance?
    ensures Paid(cfg, Apply(cfg, s, a))
  {
  }

  lemma TerminatePaid(cfg: Config, s: State, a: Action)
    requires !cfg.overlap && Budget(cfg, s) && UpToDate(cfg, s) && Paid(cfg, s) && Enabled(cfg, s, a) && a.Terminate?
    ensures Paid(cfg, Apply(cfg, s, a))
  {
  }

  lemma LocalPaid(cfg: Config, s: State, a: Action)
    requires UpToDate(cfg, s) && Paid(cfg, s) && Enabled(cfg, s, a) && (a.Look? || a.Claim? || a.Read? || a.Crash?)
    ensures Paid(cfg, Apply(cfg, s, a))
  {
  }

  lemma StepPaid(cfg: Config, s: State, a: Action)
    requires !cfg.overlap && Inv(cfg, s) && Alone(s) && UpToDate(cfg, s) && Paid(cfg, s) && Enabled(cfg, s, a)
    ensures Paid(cfg, Apply(cfg, s, a))
  {
    match a
    case Deliver(_, _, _) => DeliverPaid(cfg, s, a);
    case Record(_, _, _, _) => RecordPaid(cfg, s, a);
    case Reset(_, _, _) => ResetPaid(cfg, s, a);
    case Advance(_, _, _) => AdvancePaid(cfg, s, a);
    case Terminate(_, _, _) => TerminatePaid(cfg, s, a);
    case _ => LocalPaid(cfg, s, a);
  }

  lemma {:induction false} NoOverlapInv(cfg: Config, acts: seq<Action>)
    requires !cfg.overlap && After(cfg, acts).Some?
    ensures var s := After(cfg, acts).value; Alone(s) && UpToDate(cfg, s) && Paid(cfg, s)
  {
    if acts != [] {
      var before := acts[..|acts| - 1];
      NoOverlapInv(cfg, before);
      InvAlways(cfg, before);
      var s, a := After(cfg, before).value, acts[|acts| - 1];
      StepAlone(cfg, s, a);
      StepUpToDate(cfg, s, a);
      StepPaid(cfg, s, a);
    }
  }

  /** No job has more than `bound` recorded results, in any run. */
  ghost predicate ResultsBounded(cfg: Config, bound: nat) {
    forall acts: seq<Action>, s: State, id: JobId | After(cfg, acts) == Some(s) && id in s.db.jobs ::
      Count(s.results, id) <= bound
  }

  // ----- Overlapping executions -----

  lemma Extend(cfg: Config, acts: seq<Action>, s: State, a: Action) returns (acts': seq<Action>, s': State)
    requires After(cfg, acts) == Some(s) && Enabled(cfg, s, a)
    ensures s' == Apply(cfg, s, a) && After(cfg, acts') == Some(s')
  {
    acts', s' := acts + [a], Apply(cfg, s, a);
    assert acts'[..|acts'| - 1] == acts;
  }

  const PAYMENT := CreateInput("key", "payment_succeeded", "payload", None, None)

  /** n deliveries of one event have all read the job and recorded nothing yet. */
  ghost predicate Pending(cfg: Config, s: State, n: nat) {
    && Count(s.results, 1) == 0
    && (forall t: nat :: t in s.pcs <==> t < n)
    && (forall t: nat | t < n :: s.pcs[t] == Recording(1, 0, cfg.components))
    && CreateTx(s.db, PAYMENT, 0) == (s.db, Ok(1)) && 1 in s.db.events
    && s.db.jobs[1] == Job(PAYMENT, PaidUnfulfilled, 0, 0)
  }

  /** The delivery of an event whose job exists and is not final starts an execution. */
  lemma Redelivery(cfg: Config, s: State, t: Tid)
    requires cfg.overlap && 0 < cfg.components && t !in s.pcs
    requires CreateTx(s.db, PAYMENT, 0) == (s.db, Ok(1)) && s.db.jobs[1] == Job(PAYMENT, PaidUnfulfilled, 0, 0)
    ensures Enabled(cfg, s, Deliver(t, PAYMENT, 0))
    ensures Apply(cfg, s, Deliver(t, PAYMENT, 0)) == s.(pcs := s.pcs[t := Executing(1, 0, cfg.components)])
  {
  }

  lemma OneDelivery(cfg: Config, acts: seq<Action>, s: State, n: nat) returns (acts': seq<Action>, s': State)
    requires cfg.overlap && 0 < cfg.components && After(cfg, acts) == Some(s) && Pending(cfg, s, n)
    ensures After(cfg, acts') == Some(s') && Pending(cfg, s', n + 1)
  {
    Redelivery(cfg, s, n);
    acts', s' := Extend(cfg, acts, s, Deliver(n, PAYMENT, 0));
    acts', s' := Extend(cfg, acts', s', Read(n));
  }

  lemma {:induction false} ManyDeliveries(cfg: Config, n: nat) returns (acts: seq<Action>, s: State)
    requires cfg.overlap && 0 < cfg.components && 0 < n
    ensures After(cfg, acts) == Some(s) && Pending(cfg, s, n)
  {
    if n == 1 {
      acts, s := Extend(cfg, [], INIT, Deliver(0, PAYMENT, 0));
      acts, s := Extend(cfg, acts, s, Read(0));
    } else {
      acts, s := ManyDeliveries(cfg, n - 1);
      acts, s := OneDelivery(cfg, acts, s, n - 1);
    }
  }

  /** k of n such executions have recorded a success: fulfilled to fulfilled is an accepted
      transition. */
  lemma {:induction false} ManyResults(cfg: Config, n: nat, k: nat) returns (acts: seq<Action>, s: State)
    requires cfg.overlap && 0 < cfg.components && 0 < n && k <= n
    ensures After(cfg, acts) == Some(s) && Count(s.results, 1) == k
    ensures 1 in s.db.jobs && 1 in s.db.events && (k == 0 || s.db.jobs[1].status.Fulfilled?)
    ensures k == 0 ==> s.db.jobs[1].status.PaidUnfulfilled?
    ensures forall t: nat | k <= t < n :: t in s.pcs && s.pcs[t] == Recording(1, 0, cfg.components)
  {
    if k == 0 {
      acts, s := ManyDeliveries(cfg, n);
    } else {
      acts, s := ManyResults(cfg, n, k - 1);
      acts, s := Extend(cfg, acts, s, Record(k - 1, Success, "step", 0));
    }
  }

  // ----- A job that uses up its whole budget -----

  /** Job 1 has k recorded results and is being executed by thread 0 alone. */
  ghost predicate Running(s: State, status: Status, k: nat, retryCount: nat, left: nat) {
    && s.pcs == map[0 := Executing(1, retryCount, left)]
    && 1 in s.db.jobs && 1 in s.db.events && s.db.jobs[1].status == status
    && s.db.jobs[1].retryCount == retryCount && Count(s.results, 1) == k
  }

  /** Job 1 can be retried, with k recorded results. */
  ghost predicate Waiting(s: State, k: nat) {
    && 1 in s.db.jobs && 1 in s.db.events && s.db.jobs[1].status.FailedRetryable?
    && s.db.jobs[1].retryCount == k && Count(s.results, 1) == k
  }

  const UNAVAILABLE := ApiError(503, false, 0)

  /** The first component of an execution fails for now, and the rest is never executed. */
  lemma GiveUp(cfg: Config, acts: seq<Action>, s: State, k: nat) returns (acts': seq<Action>, s': State)
    requires k < cfg.maxRetries && 0 < cfg.components && After(cfg, acts) == Some(s)
    requires Running(s, PaidUnfulfilled, k, k, cfg.components)
    ensures After(cfg, acts') == Some(s') && s'.pcs == map[] && Waiting(s', k + 1)
  {
    acts', s' := Extend(cfg, acts, s, Read(0));
    acts', s' := Extend(cfg, acts', s', Record(0, UNAVAILABLE, "step", 0));
    if 0 in s'.pcs {
      acts', s' := Extend(cfg, acts', s', Crash(0));
    }
  }

  /** A retry starts the payload again. */
  lemma Retry(cfg: Config, acts: seq<Action>, s: State, k: nat) returns (acts': seq<Action>, s': State)
    requires 0 < cfg.components && After(cfg, acts) == Some(s) && s.pcs == map[] && Waiting(s, k)
    ensures After(cfg, acts') == Some(s')
    ensures Running(s', PaidUnfulfilled, k, k, cfg.components)
  {
    acts', s' := Extend(cfg, acts, s, Look(0, 1));
    acts', s' := Extend(cfg, acts', s', Reset(0, "worker_retry", 0));
  }

  /** k retries have failed and the payload is being executed once more. */
  lemma {:induction false} Exhaust(cfg: Config, k: nat) returns (acts: seq<Action>, s: State)
    requires k <= cfg.maxRetries && 0 < cfg.components
    ensures After(cfg, acts) == Some(s)
    ensures Running(s, PaidUnfulfilled, k, k, cfg.components)
  {
    if k == 0 {
      acts, s := [], INIT;
      acts, s := Extend(cfg, acts, s, Deliver(0, PAYMENT, 0));
    } else {
      acts, s := Exhaust(cfg, k - 1);
      acts, s := GiveUp(cfg, acts, s, k - 1);
      acts, s := Retry(cfg, acts, s, k);
    }
  }

  /** In an execution after the last retry, n components have failed for good. */
  ghost predicate Draining(cfg: Config, s: State, n: nat) {
    && n < cfg.components
    && Running(s, if n == 0 then PaidUnfulfilled else FailedTerminal, cfg.maxRetries + n,
               cfg.maxRetries, cfg.components - n)
  }

  /** The next one does too: failed_terminal to failed_terminal is an accepted transition. */
  lemma FailForGood(cfg: Config, acts: seq<Action>, s: State, n: nat) returns (acts': seq<Action>, s': State)
    requires After(cfg, acts) == Some(s) && Draining(cfg, s, n)
    ensures After(cfg, acts') == Some(s') && 1 in s'.db.jobs && Count(s'.results, 1) == cfg.maxRetries + n + 1
    ensures n + 1 < cfg.components ==> Draining(cfg, s', n + 1)
  {
    acts', s' := Extend(cfg, acts, s, Read(0));
    acts', s' := Extend(cfg, acts', s', Record(0, OtherError, "step", 0));
  }

  lemma {:induction false} Drain(cfg: Config, n: nat) returns (acts: seq<Action>, s: State)
    requires n < cfg.components
    ensures After(cfg, acts) == Some(s) && Draining(cfg, s, n)
  {
    if n == 0 {
      acts, s := Exhaust(cfg, cfg.maxRetries);
    } else {
      acts, s := Drain(cfg, n - 1);
      acts, s := FailForGood(cfg, acts, s, n - 1);
    }
  }

  /** A bound on the results of a job exists exactly when its executions do not overlap, and
      then the least one is the retries and one whole execution: maxRetries + 1 for payloads
      with one component. */
  lemma ResultsBoundedIff(cfg: Config, bound: nat)
    requires 0 < cfg.components
    ensures ResultsBounded(cfg, bound) <==> !cfg.overlap && bound >= cfg.maxRetries + cfg.components
  {
    if cfg.overlap {
      var acts, s := ManyResults(cfg, bound + 1, bound + 1);
    } else if bound < cfg.maxRetries + cfg.components {
      var acts, s := Drain(cfg, cfg.components - 1);
      acts, s := FailForGood(cfg, acts, s, cfg.components - 1);
    } else {
      forall acts: seq<Action>, s: State, id: JobId | After(cfg, acts) == Some(s) && id in s.db.jobs
        ensures Count(s.results, id) <= bound
      {
        NoOverlapInv(cfg, acts);
        InvAlways(cfg, acts);
      }
    }
  }
}
