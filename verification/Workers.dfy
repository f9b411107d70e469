/** A worker as the program has it (`runjob`): it updates a job object and stores it. What
  * it does is a run of the protocol, and which steps it takes depends on how the attempt
  * ends.
  */
module Workers {
  import opened ChannelJobs
  import opened Channels
  import opened RunProtocol
  import opened RunPlaces
  import opened RunTheorems
  import opened RunnerLoop
  import opened JobAttempts

  /** The world after an event of a worker wrote the row of job `u`. */
  function Written(w: World, e: Event, u: RowId, r: Row, workers: map<nat, Worker>): World {
    w.(rows := w.rows[u := r], workers := workers, notified := WithNotified(w, e))
  }

  /** `w'` differs from `w` in the row of `u` and in worker `k` only. */
  ghost predicate OnlyJob(w: World, w': World, u: RowId, k: nat) {
    && w'.mem == w.mem && w'.specs == w.specs && w'.open == w.open && w'.up == w.up && w'.abandoned == w.abandoned
    && w'.rows.Keys == w.rows.Keys && (forall v :: v in w.rows && v != u ==> w'.rows[v] == w.rows[v])
    && w'.workers - {k} == w.workers - {k}
  }

  /** The job object agrees with its row and with the rows of its parents. */
  ghost predicate Mirrors(w: World, u: RowId, job: JobRecord)
    reads job, job.dependsOn
  {
    && u in w.rows && u in w.specs && job.state == w.rows[u].state && job.eta == w.rows[u].eta
    && (AnyUnfinished(job.dependsOn) <==> !ParentsDone(w, u))
  }

  /** What `Written` gives is one step, and it is a step of the protocol. */
  lemma WrittenLeads(cfg: Config, w: World, e: Event, u: RowId, r: Row, workers: map<nat, Worker>, k: nat)
    requires WInv(cfg, w) && u in w.rows && workers - {k} == w.workers - {k}
    requires NextWorld(cfg, w, Written(w, e, u, r, workers), e)
    ensures WInv(cfg, Written(w, e, u, r, workers)) && Leads(cfg, w, Written(w, e, u, r, workers))
    ensures OnlyJob(w, Written(w, e, u, r, workers), u, k)
  {
    LeadsNowhere(cfg, w);
    LeadsStep(cfg, w, w, Written(w, e, u, r, workers), e);
  }

  /** The rows of workers change as these events say. */
  ghost predicate WorkerEvent(cfg: Config, w: World, e: Event, u: RowId, r: Row, workers: map<nat, Worker>) {
    match e
    case Start(v, k) =>
      && v == u && u in w.rows && w.rows[u].state == Enqueued && k !in w.workers
      && r == w.rows[u].(state := Started) && workers == w.workers[k := Performing(u)]
    case StartFails(v) =>
      && v == u && u in w.rows && w.rows[u].state == Enqueued
      && r == w.rows[u].(state := JobState.Failed) && workers == w.workers
    case StartConflicts(v, eta) =>
      && v == u && u in w.rows && u in w.specs && w.rows[u].state == Enqueued && ParentsDone(w, u)
      && r == Row(Pending, eta) && workers == w.workers
    case Finish(k) =>
      && IsPerforming(w, k) && w.workers[k].u == u
      && r == w.rows[u].(state := Done) && workers == w.workers[k := Owing(u, 0)]
    case Fail(k) =>
      && IsPerforming(w, k) && w.workers[k].u == u
      && r == w.rows[u].(state := JobState.Failed) && workers == w.workers - {k}
    case Postpone(k, eta) =>
      && IsPerforming(w, k) && w.workers[k].u == u && ParentsDone(w, u)
      && r == Row(Pending, eta) && workers == w.workers - {k}
    case _ => false
  }

  lemma WorkerEventIsAStep(cfg: Config, w: World, e: Event, u: RowId, r: Row, workers: map<nat, Worker>)
    requires Inv(cfg, w.mem) && WorkerEvent(cfg, w, e, u, r, workers)
    ensures NextWorld(cfg, w, Written(w, e, u, r, workers), e)
  {
  }

  lemma StartedParentsDone(cfg: Config, w: World, u: RowId)
    requires WInv(cfg, w) && u in w.rows && u in w.specs && w.rows[u].state != WaitDependencies
    ensures ParentsDone(w, u)
  {
  }

  lemma WorkerStep(cfg: Config, w: World, e: Event, u: RowId, r: Row, workers: map<nat, Worker>, k: nat) returns (w': World)
    requires WInv(cfg, w) && WorkerEvent(cfg, w, e, u, r, workers) && u in w.rows && workers - {k} == w.workers - {k}
    ensures WInv(cfg, w') && Leads(cfg, w, w') && OnlyJob(w, w', u, k) && w'.rows[u] == r && w'.workers == workers
  {
    w' := Written(w, e, u, r, workers);
    WorkerEventIsAStep(cfg, w, e, u, r, workers);
    WrittenLeads(cfg, w, e, u, r, workers, k);
  }

  /** The end of an attempt that was started: done, failed or postponed. */
  lemma EndLeads(cfg: Config, w: World, u: RowId, k: nat, st: JobState, eta: int) returns (w': World)
    requires WInv(cfg, w) && IsPerforming(w, k) && w.workers[k].u == u && w.rows[u].state == Started
    requires st == Done || st == JobState.Failed || st == Pending
    requires st != Pending ==> eta == w.rows[u].eta
    ensures WInv(cfg, w') && Leads(cfg, w, w') && OnlyJob(w, w', u, k) && w'.rows[u] == Row(st, eta)
    ensures w'.workers == if st == Done then w.workers[k := Owing(u, 0)] else w.workers - {k}
  {
    if st == Done {
      w' := WorkerStep(cfg, w, Finish(k), u, w.rows[u].(state := Done), w.workers[k := Owing(u, 0)], k);
    } else {
      w' := FailOrPostponeLeads(cfg, w, u, k, st, eta);
    }
  }

  lemma FailOrPostponeLeads(cfg: Config, w: World, u: RowId, k: nat, st: JobState, eta: int) returns (w': World)
    requires WInv(cfg, w) && IsPerforming(w, k) && w.workers[k].u == u && w.rows[u].state == Started
    requires st == JobState.Failed || st == Pending
    requires st != Pending ==> eta == w.rows[u].eta
    ensures WInv(cfg, w') && Leads(cfg, w, w') && OnlyJob(w, w', u, k) && w'.rows[u] == Row(st, eta)
    ensures w'.workers == w.workers - {k}
  {
    StartedParentsDone(cfg, w, u);
    if st == Pending {
      w' := WorkerStep(cfg, w, Postpone(k, eta), u, Row(Pending, eta), w.workers - {k}, k);
    } else {
      w' := WorkerStep(cfg, w, Fail(k), u, w.rows[u].(state := JobState.Failed), w.workers - {k}, k);
    }
  }

  /** The attempt ended before the row was committed as started. */
  lemma NotStartedLeads(cfg: Config, w: World, u: RowId, k: nat, st: JobState, eta: int) returns (w': World)
    requires WInv(cfg, w) && u in w.rows && u in w.specs && w.rows[u].state == Enqueued
    requires st == JobState.Failed || st == Pending
    requires st != Pending ==> eta == w.rows[u].eta
    ensures WInv(cfg, w') && Leads(cfg, w, w') && OnlyJob(w, w', u, k) && w'.rows[u] == Row(st, eta) && w'.workers == w.workers
  {
    StartedParentsDone(cfg, w, u);
    w' := WorkerStep(cfg, w, if st == Pending then StartConflicts(u, eta) else StartFails(u), u, Row(st, eta), w.workers, k);
  }

  lemma StartLeads(cfg: Config, w: World, u: RowId, k: nat) returns (w': World)
    requires WInv(cfg, w) && u in w.rows && w.rows[u].state == Enqueued && k !in w.workers
    ensures WInv(cfg, w') && Leads(cfg, w, w') && OnlyJob(w, w', u, k)
    ensures w'.rows[u] == w.rows[u].(state := Started) && w'.workers == w.workers[k := Performing(u)]
  {
    w' := WorkerStep(cfg, w, Start(u, k), u, w.rows[u].(state := Started), w.workers[k := Performing(u)], k);
  }

  lemma OnlyJobTwice(a: World, b: World, c: World, u: RowId, k: nat)
    requires OnlyJob(a, b, u, k) && OnlyJob(b, c, u, k)
    ensures OnlyJob(a, c, u, k)
  {
  }

  lemma StartAndEndLeads(cfg: Config, w: World, u: RowId, k: nat, st: JobState, eta: int) returns (w': World)
    requires WInv(cfg, w) && u in w.rows && u in w.specs && w.rows[u].state == Enqueued && k !in w.workers
    requires st == Done || st == JobState.Failed || st == Pending
    requires st != Pending ==> eta == w.rows[u].eta
    ensures WInv(cfg, w') && Leads(cfg, w, w') && OnlyJob(w, w', u, k) && w'.rows[u] == Row(st, eta)
    ensures w'.workers == if st == Done then w.workers[k := Owing(u, 0)] else w.workers
  {
    var w1 := StartLeads(cfg, w, u, k);
    w' := EndLeads(cfg, w1, u, k, st, eta);
    LeadsFurther(cfg, w, w1, w');
    OnlyJobTwice(w, w1, w', u, k);
    WorkerCameAndWent(w.workers, k, Performing(u), Owing(u, 0));
  }

  lemma WorkerCameAndWent(workers: map<nat, Worker>, k: nat, a: Worker, b: Worker)
    requires k !in workers
    ensures workers[k := a] - {k} == workers && workers[k := a][k := b] == workers[k := b]
  {
  }

  /** The protocol's steps for an attempt on job `u` that leaves the job object in state
    * `st` with eta `eta`. */
  lemma AttemptLeads(cfg: Config, w: World, u: RowId, k: nat, outcome: Outcome, st: JobState, eta: int) returns (w': World)
    requires WInv(cfg, w) && u in w.rows && u in w.specs && w.rows[u].state == Enqueued && k !in w.workers
    requires st == Done || st == JobState.Failed || st == Pending
    requires outcome.FailsBefore? || outcome.ConflictBefore? ==> st != Done
    requires st != Pending ==> eta == w.rows[u].eta
    ensures WInv(cfg, w') && Leads(cfg, w, w') && OnlyJob(w, w', u, k) && w'.rows[u] == Row(st, eta)
    ensures w'.workers == if st == Done then w.workers[k := Owing(u, 0)] else w.workers
  {
    if outcome.FailsBefore? || outcome.ConflictBefore? {
      w' := NotStartedLeads(cfg, w, u, k, st, eta);
    } else {
      w' := StartAndEndLeads(cfg, w, u, k, st, eta);
    }
  }

  /** `runjob` for worker `k`, up to `enqueue_waiting`. Whatever the outcome, it is a run of
    * the protocol that writes the row of this job only and leaves it as the job object is;
    * and exactly a success leaves the worker owing the wake-up of the children. */
  method RunJob(cfg: Config, job: JobRecord, u: RowId, k: nat, outcome: Outcome, now: int, pattern: seq<(int, Wait)>,
                ghost w: World) returns (ghost w': World)
    requires WInv(cfg, w) && Mirrors(w, u, job) && job.state == Enqueued && k !in w.workers
    requires ProperPattern(pattern) && ProperOutcome(outcome)
    modifies job
    ensures WInv(cfg, w') && Leads(cfg, w, w') && OnlyJob(w, w', u, k)
    ensures u in w'.rows && w'.rows[u] == Row(job.state, job.eta)
    ensures outcome.Succeeds? || outcome.NothingToDo? ==> job.state == Done && w'.workers == w.workers[k := Owing(u, 0)]
    ensures !(outcome.Succeeds? || outcome.NothingToDo?) ==> job.state != Done && w'.workers == w.workers
    ensures outcome.Fails? || outcome.FailsBefore? ==> job.state == JobState.Failed
    ensures outcome.Conflict? || outcome.ConflictBefore? ==> job.state == Pending && job.eta == now + 5
    ensures outcome.Retryable? ==> job.state == JobState.Failed || job.state == Pending
  {
    StartedParentsDone(cfg, w, u);
    var _, _ := job.Attempt(outcome, now, pattern);
    w' := AttemptLeads(cfg, w, u, k, outcome, job.state, job.eta);
  }
}
