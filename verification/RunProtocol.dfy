/** The whole job runner as a distributed state machine: the rows of the
  * `queue_job` table, the memory of one runner, and the workers that serve
  * `/queue_job/runjob`.
  *
  * Every committed SQL statement is one atomic step. The network is not trusted:
  * a request may arrive late, twice or never, and a request's timeout may fire at
  * any time, so starting a worker and resetting a row are guarded by the row alone.
  */
module RunProtocol {
  import opened ChannelJobs
  import opened Channels
  import opened SchedulerSteps
  import opened SchedulerRuns

  /** A job as the databases know it. Every database has its own table: the same uuid
    * may be stored in several of them, in a copy of a database for instance. */
  datatype RowId = RowId(db: nat, uuid: nat)

  /** What never changes about a job after its creation. */
  datatype JobSpec = JobSpec(chan: nat, key: Key, parents: set<RowId>)

  datatype Row = Row(state: JobState, eta: int)

  /** A worker executes the job, or has committed it as done and still has to run
    * `enqueue_waiting` (having failed to `tries` times). */
  datatype Worker = Performing(u: RowId) | Owing(u: RowId, tries: nat)

  /** The runner listens to the databases in `open`; `up` holds from the end of
    * `initialize_databases` until the next failure. `notified` are the rows whose
    * notification is still to be handled, `unread` rows that were selected but not
    * yet passed to `notify`; `sending` is a job yielded by the root channel whose row
    * is about to be updated. `abandoned` (a ghost of the past) are done jobs whose
    * worker gave up on, or died before, `enqueue_waiting`. `clock` is the runner's last
    * reading of the clock, `latest` the latest time it ever read. */
  datatype World = World(
    specs: map<RowId, JobSpec>, rows: map<RowId, Row>,
    mem: Sched, open: set<nat>, up: bool, notified: set<RowId>, unread: map<RowId, Row>, sending: Option<RowId>,
    workers: map<nat, Worker>, abandoned: set<RowId>,
    clock: int, latest: int)

  predicate Busy(st: JobState) { st == Enqueued || st == Started }

  predicate NotDone(st: JobState) { st != Done && st != Cancelled }

  function ToPending(r: Row): Row { r.(state := Pending) }

  predicate ParentsDone(w: World, u: RowId)
    requires u in w.specs
  {
    forall p :: p in w.specs[u].parents ==> p in w.rows && w.rows[p].state == Done
  }

  // -------------------------------------------------------------------- steps

  datatype Event =
    | Create(db: nat, news: map<RowId, JobSpec>, etas: map<RowId, int>)
    | ReadRows(us: set<RowId>)
    | Apply(u: RowId)
    | Schedule(step: Step)
    | Collect(uuid: nat)
    | Tick(now: int)
    | Send
    | Crash
    | Open(db: nat)
    | Ready
    | Start(u: RowId, k: nat)
    | StartFails(u: RowId)
    | StartConflicts(u: RowId, eta: int)
    | Timeout(u: RowId)
    | Finish(k: nat)
    | Postpone(k: nat, eta: int)
    | Fail(k: nat)
    | Die(k: nat)
    | WakeChildren(k: nat)
    | RetryLater(k: nat)

  ghost predicate SameTable(w: World, w': World) {
    w'.specs == w.specs && w'.rows == w.rows && w'.workers == w.workers && w'.abandoned == w.abandoned
  }

  ghost predicate SameRunner(w: World, w': World) {
    w'.mem == w.mem && w'.open == w.open && w'.up == w.up && w'.unread == w.unread && w'.sending == w.sending
    && SameClock(w, w')
  }

  predicate SameClock(w: World, w': World) { w'.clock == w.clock && w'.latest == w.latest }

  /** `DelayableGraph.delay`: all jobs of a graph are stored in one transaction; those
    * with parents wait for them. */
  ghost predicate Stored(cfg: Config, w: World, w': World, db: nat, news: map<RowId, JobSpec>, etas: map<RowId, int>) {
    && (w.up ==> db in w.open) && (forall u :: u in news ==> u.db == db)
    && news.Keys !! w.rows.Keys && etas.Keys == news.Keys
    && (forall u :: u in news ==> news[u].chan < |cfg.parent| && news[u].parents <= news.Keys - {u})
    && w'.specs == w.specs + news
    && w'.rows == w.rows + (map u | u in news :: Row(if news[u].parents == {} then Pending else WaitDependencies, etas[u]))
    && w'.workers == w.workers && w'.abandoned == w.abandoned
  }

  /** A serialization failure of `enqueue_waiting`: the worker tries again or, after
    * the last try, gives up. */
  ghost predicate TriesAgain(w: World, w': World, k: nat) {
    && k in w.workers && w.workers[k].Owing?
    && w'.specs == w.specs && w'.rows == w.rows
    && if w.workers[k].tries >= DEPENDS_MAX_TRIES
       then w'.workers == w.workers - {k} && w'.abandoned == w.abandoned + {w.workers[k].u}
       else w'.workers == w.workers[k := Owing(w.workers[k].u, w.workers[k].tries + 1)] && w'.abandoned == w.abandoned
  }

  /** A worker gives up on the children of its job only when it dies or fails once more
    * after five failed tries. */
  lemma GivesUpLate(cfg: Config, w: World, w': World, e: Event, u: RowId)
    requires TableStep(cfg, w, w', e) && u in w'.abandoned && u !in w.abandoned
    ensures e.Die? || (e.RetryLater? && e.k in w.workers && w.workers[e.k] == Owing(u, w.workers[e.k].tries)
                       && w.workers[e.k].tries >= 5)
  {
  }

  /** What an event does to the table and the workers. */
  ghost predicate TableStep(cfg: Config, w: World, w': World, e: Event) {
    match e
    case Create(db, news, etas) => Stored(cfg, w, w', db, news, etas)
    case Send =>
      // `set_job_enqueued`, which has no guard on the state
      && w.sending.Some? && w.sending.value in w.rows
      && RowSet(w, w', w.sending.value, w.rows[w.sending.value].(state := Enqueued))
      && w'.workers == w.workers && w'.abandoned == w.abandoned
    case Start(u, k) =>
      // `runjob`: lock the row if it is enqueued, commit it as started
      && u in w.rows && w.rows[u].state == Enqueued && k !in w.workers
      && RowSet(w, w', u, w.rows[u].(state := Started))
      && w'.workers == w.workers[k := Performing(u)] && w'.abandoned == w.abandoned
    case StartFails(u) =>
      // an exception before the row is committed as started
      && u in w.rows && w.rows[u].state == Enqueued
      && RowSet(w, w', u, w.rows[u].(state := JobState.Failed))
      && w'.workers == w.workers && w'.abandoned == w.abandoned
    case StartConflicts(u, eta) =>
      // a conflict before the row is committed as started: `retry_postpone`
      && u in w.rows && u in w.specs && w.rows[u].state == Enqueued
      && RowSet(w, w', u, Row(if ParentsDone(w, u) then Pending else WaitDependencies, eta))
      && w'.workers == w.workers && w'.abandoned == w.abandoned
    case Timeout(u) =>
      // `set_job_pending`
      && u in w.rows && w.rows[u].state == Enqueued
      && RowSet(w, w', u, w.rows[u].(state := Pending))
      && w'.workers == w.workers && w'.abandoned == w.abandoned
    case Finish(k) =>
      && IsPerforming(w, k)
      && RowSet(w, w', w.workers[k].u, w.rows[w.workers[k].u].(state := Done))
      && w'.workers == w.workers[k := Owing(w.workers[k].u, 0)] && w'.abandoned == w.abandoned
    case Postpone(k, eta) =>
      // `retry_postpone`
      && IsPerforming(w, k)
      && RowSet(w, w', w.workers[k].u, Row(if ParentsDone(w, w.workers[k].u) then Pending else WaitDependencies, eta))
      && w'.workers == w.workers - {k} && w'.abandoned == w.abandoned
    case Fail(k) =>
      && IsPerforming(w, k)
      && RowSet(w, w', w.workers[k].u, w.rows[w.workers[k].u].(state := JobState.Failed))
      && w'.workers == w.workers - {k} && w'.abandoned == w.abandoned
    case Die(k) =>
      && k in w.workers
      && w'.specs == w.specs && w'.rows == w.rows && w'.workers == w.workers - {k}
      && w'.abandoned == w.abandoned + (if w.workers[k].Owing? then {w.workers[k].u} else {})
    case WakeChildren(k) =>
      // `enqueue_waiting`
      && k in w.workers && w.workers[k].Owing?
      && w'.specs == w.specs && w'.rows == Woken(w, w.workers[k].u)
      && w'.workers == w.workers - {k} && w'.abandoned == w.abandoned
    case RetryLater(k) => TriesAgain(w, w', k)
    case _ => SameTable(w, w')
  }

  predicate IsPerforming(w: World, k: nat) {
    k in w.workers && w.workers[k].Performing? && w.workers[k].u in w.rows && w.workers[k].u in w.specs
  }

  ghost predicate RowSet(w: World, w': World, u: RowId, r: Row) {
    w'.specs == w.specs && w'.rows == w.rows[u := r]
  }

  /** The rows an event writes; the trigger on the table notifies each of them. */
  function Written(w: World, e: Event): set<RowId> {
    match e
    case Create(_, news, _) => news.Keys
    case Send => if w.sending.Some? then {w.sending.value} else {}
    case Start(u, _) => {u}
    case StartFails(u) => {u}
    case StartConflicts(u, _) => {u}
    case Timeout(u) => {u}
    case Finish(k) => RowOf(w, k)
    case Postpone(k, _) => RowOf(w, k)
    case Fail(k) => RowOf(w, k)
    case WakeChildren(k) =>
      if k in w.workers then set c | c in w.rows && WakesUp(w, w.workers[k].u, c) else {}
    case _ => {}
  }

  function RowOf(w: World, k: nat): set<RowId> {
    if k in w.workers then {w.workers[k].u} else {}
  }

  /** The notifications not yet handled, with those of an event. */
  function WithNotified(w: World, e: Event): set<RowId> {
    w.notified + set u | u in Written(w, e) && u.db in w.open
  }

  function Selected(w: World, db: nat): map<RowId, Row> {
    map u | u in w.rows && u.db == db && NotDone(w.rows[u].state) :: w.rows[u]
  }

  /** What an event does to the runner. */
  ghost predicate RunnerStep(cfg: Config, w: World, w': World, e: Event)
    requires Inv(cfg, w.mem)
  {
    match e
    case ReadRows(us) =>
      // `process_notifications`: take notifications and select their rows
      && w.up && w.unread == map[] && w.sending == None
      && w'.unread == (map u | u in us && u in w.rows :: w.rows[u]) && w'.notified == w.notified - us
      && w'.mem == w.mem && w'.open == w.open && w'.up == w.up && w'.sending == w.sending && SameClock(w, w')
    case Apply(u) =>
      // a selected row is passed to `ChannelManager.notify`
      && u in w.unread && u in w.specs
      && NotifyAllowed(cfg, w.mem, u.uuid, u.db, w.specs[u].chan, w.specs[u].key)
      && w'.mem == Notify(cfg, w.mem, u.uuid, u.db, w.specs[u].chan, w.specs[u].key, w.unread[u].eta, w.unread[u].state)
      && w'.unread == w.unread - {u} && w'.open == w.open && w'.up == w.up && w'.sending == w.sending
      && w'.notified == w.notified && SameClock(w, w')
    case Schedule(step) =>
      // an iteration inside `get_jobs_to_run`; a job launched from the root
      // channel is handed to `run_jobs`
      && w.up && w.unread == map[] && w.sending == None
      && !step.Notified? && !step.Removed? && (Timed(step) ==> step.now == w.clock) && SameClock(w, w')
      && Next(cfg, w.mem, w'.mem, step)
      && w'.open == w.open && w'.up == w.up && w'.unread == w.unread && w'.notified == w.notified
      && w'.sending == if step.Launch? && step.c == 0 then Some(IdOf(step.job)) else None
    case Collect(uuid) =>
      // the weak table loses an object that nothing refers to
      && Next(cfg, w.mem, w'.mem, Forget(uuid))
      && w'.open == w.open && w'.up == w.up && w'.unread == w.unread && w'.sending == w.sending
      && w'.notified == w.notified && SameClock(w, w')
    case Tick(now) =>
      // `run_jobs` reads the clock, which may go back
      && w'.mem == w.mem && w'.open == w.open && w'.up == w.up && w'.unread == w.unread && w'.sending == w.sending
      && w'.notified == w.notified && w'.clock == now && w'.latest == if now > w.latest then now else w.latest
    case Send =>
      && w'.mem == w.mem && w'.open == w.open && w'.up == w.up && w'.unread == w.unread && w'.sending == None
      && w'.notified == WithNotified(w, e) && SameClock(w, w')
    case Crash =>
      // `close_databases`: every job is removed from the channels. This is also
      // what an assertion of `notify` that fails leads to
      && Inv(cfg, w'.mem) && w'.mem.byUuid == map[]
      && w'.open == {} && !w'.up && w'.unread == map[] && w'.sending == None && w'.notified == {}
      && SameClock(w, w')
    case Open(db) =>
      // `initialize_databases`: listen to one more database and select its rows
      && !w.up && db !in w.open && w.unread == map[]
      && w'.open == w.open + {db} && w'.unread == Selected(w, db)
      && w'.mem == w.mem && w'.up == w.up && w'.sending == w.sending && w'.notified == w.notified
      && SameClock(w, w')
    case Ready =>
      // the end of `initialize_databases`
      && !w.up && w.unread == map[] && (forall u :: u in w.specs ==> u.db in w.open)
      && w'.up && w'.mem == w.mem && w'.open == w.open && w'.unread == w.unread && w'.sending == w.sending
      && w'.notified == w.notified && SameClock(w, w')
    case _ => SameRunner(w, w') && w'.notified == WithNotified(w, e)
  }

  function IdOf(j: Job): RowId { RowId(j.db, j.uuid) }

  ghost predicate NextWorld(cfg: Config, w: World, w': World, e: Event)
    requires Inv(cfg, w.mem)
  {
    TableStep(cfg, w, w', e) && RunnerStep(cfg, w, w', e)
  }

  /** The children of `u` that wait and whose parents are all done. */
  predicate WakesUp(w: World, u: RowId, c: RowId) {
    && c in w.rows && c in w.specs
    && u in w.specs[c].parents && w.rows[c].state == WaitDependencies && ParentsDone(w, c)
  }

  function Woken(w: World, u: RowId): map<RowId, Row> {
    map c | c in w.rows :: if WakesUp(w, u, c) then ToPending(w.rows[c]) else w.rows[c]
  }

  // --------------------------------------------------------------- invariants

  /** The table and the constant part. */
  ghost predicate TableInv(cfg: Config, w: World) {
    && w.rows.Keys == w.specs.Keys
    && (forall u :: u in w.specs ==> w.specs[u].chan < |cfg.parent| && w.specs[u].parents <= w.specs.Keys - {u})
    && (forall u :: u in w.rows ==> w.rows[u].state != Cancelled)
  }

  /** The runner has a job object for this row. */
  predicate InMemory(s: Sched, u: RowId) {
    u.uuid in s.byUuid && s.byUuid[u.uuid].db == u.db
  }

  function Object(s: Sched, u: RowId): Job
    requires InMemory(s, u)
  {
    s.byUuid[u.uuid]
  }

  /** The objects in the runner's memory have the properties of their rows. */
  ghost predicate MemMatches(w: World) {
    forall uuid :: uuid in w.mem.byUuid ==> ObjectMatches(w, w.mem.byUuid[uuid], uuid)
  }

  predicate ObjectMatches(w: World, j: Job, uuid: nat) {
    && j.uuid == uuid && j.db in w.open && IdOf(j) in w.specs
    && j.chan == w.specs[IdOf(j)].chan && j.key == w.specs[IdOf(j)].key
  }

  /** The job is running in the root channel (and hence in its whole path). */
  predicate RunningInMemory(s: Sched, u: RowId) {
    InMemory(s, u) && Running(s, 0, Object(s, u))
  }

  predicate QueuedInMemory(s: Sched, c: nat, u: RowId) {
    InMemory(s, u) && Queued(s, c, Object(s, u))
  }

  /** A row of an open database that is enqueued or started is accounted for. */
  ghost predicate BusyAccounted(w: World) {
    forall u :: u in w.rows && u.db in w.open && Busy(w.rows[u].state) ==>
      RunningInMemory(w.mem, u) || (u in w.unread && Busy(w.unread[u].state))
  }

  /** Still queued in memory implies pending in the table. */
  ghost predicate QueuedIsPending(w: World) {
    forall c, u :: QueuedInMemory(w.mem, c, u) ==> u in w.rows && w.rows[u].state == Pending
  }

  /** What a selected but unprocessed row still says about the table. */
  ghost predicate UnreadSound(w: World) {
    forall u :: u in w.unread ==> u in w.rows && u.db in w.open && StillSays(w, w.unread[u].state, u)
  }

  ghost predicate StillSays(w: World, st: JobState, u: RowId)
    requires u in w.rows
  {
    && (st == Pending ==> w.rows[u].state == Pending)
    && (st == WaitDependencies ==> w.rows[u].state == WaitDependencies || w.rows[u].state == Pending)
    && (w.rows[u].state == WaitDependencies ==> st == WaitDependencies)
    && (st in {Done, Cancelled, JobState.Failed} ==> w.rows[u].state == st)
    && (Busy(st) ==> forall c :: !QueuedInMemory(w.mem, c, u))
  }

  ghost predicate SendingSound(w: World) {
    w.sending.Some? ==>
      && w.up && w.unread == map[]
      && w.sending.value in w.rows && w.rows[w.sending.value].state == Pending
      && RunningInMemory(w.mem, w.sending.value)
  }

  ghost predicate RunnerInv(cfg: Config, w: World) {
    && Inv(cfg, w.mem)
    && MemMatches(w)
    && BusyAccounted(w)
    && QueuedIsPending(w)
    && UnreadSound(w)
    && SendingSound(w)
    && (w.up ==> forall u :: u in w.specs ==> u.db in w.open)
    && w.clock <= w.latest
  }

  /** The job of row `u` is exactly at place `p`. */
  ghost predicate PlacedAt(cfg: Config, s: Sched, u: RowId, p: Place)
    requires ValidConfig(cfg)
  {
    InMemory(s, u) && At(cfg, s, Object(s, u), p)
  }

  ghost predicate NowhereInMemory(cfg: Config, s: Sched, u: RowId)
    requires ValidConfig(cfg)
  {
    InMemory(s, u) ==> At(cfg, s, Object(s, u), Nowhere)
  }

  /** A queued job with the eta of its row, or with none, once the row's eta has come. */
  ghost predicate Waits(cfg: Config, s: Sched, u: RowId, eta: int, latest: int)
    requires ValidConfig(cfg)
  {
    && (exists c :: PlacedAt(cfg, s, u, QueuedIn(c)))
    && InMemory(s, u) && HasEta(s, Object(s, u), eta, latest)
  }

  predicate HasEta(s: Sched, j: Job, eta: int, latest: int) {
    Eta(s, j) == eta || (Eta(s, j) == 0 && eta <= latest)
  }

  /** The job of a row is where the state of the row says. */
  ghost predicate InPlace(cfg: Config, s: Sched, u: RowId, r: Row, latest: int)
    requires ValidConfig(cfg)
  {
    match r.state
    case Pending => Waits(cfg, s, u, r.eta, latest)
    case Enqueued => PlacedAt(cfg, s, u, RunningToRoot)
    case Started => PlacedAt(cfg, s, u, RunningToRoot)
    case Failed => PlacedAt(cfg, s, u, InFailed)
    case _ => NowhereInMemory(cfg, s, u)
  }

  /** Nothing about the row is on its way between table and runner. */
  predicate Settled(w: World, u: RowId) {
    u in w.rows && u.db in w.open && u !in w.notified && u !in w.unread && w.sending != Some(u)
  }

  /** No job is forgotten: settled rows have their jobs in place; a selected row without
    * a new notification is still as it was selected. */
  ghost predicate PlacesInv(cfg: Config, w: World)
    requires ValidConfig(cfg)
  {
    && (forall u :: Settled(w, u) ==> InPlace(cfg, w.mem, u, w.rows[u], w.latest))
    && (forall u :: u in w.unread && u !in w.notified ==> u in w.rows && w.rows[u] == w.unread[u])
    && (forall u :: u in w.rows && w.rows[u].state == WaitDependencies ==> NowhereInMemory(cfg, w.mem, u))
  }

  /** A queued job, and a pending row that was selected, have the eta of the row. */
  ghost predicate EtaInv(w: World) {
    && (forall c, u :: QueuedInMemory(w.mem, c, u) ==>
          u in w.rows && HasEta(w.mem, Object(w.mem, u), w.rows[u].eta, w.latest))
    && (forall u :: u in w.unread && w.unread[u].state == Pending ==> u in w.rows && w.rows[u].eta == w.unread[u].eta)
  }

  /** A performing worker's row is started, and no job has two such workers. */
  ghost predicate WorkerInv(w: World) {
    && (forall k :: k in w.workers ==>
          && w.workers[k].u in w.rows
          && w.rows[w.workers[k].u].state == if w.workers[k].Performing? then Started else Done)
    && (forall k, l :: k in w.workers && l in w.workers && k != l && w.workers[k].Performing? && w.workers[l].Performing?
          ==> w.workers[k].u != w.workers[l].u)
  }

  ghost predicate Owed(w: World, p: RowId) {
    p in w.abandoned || exists k :: k in w.workers && w.workers[k].Owing? && w.workers[k].u == p
  }

  /** A job that has left WAIT_DEPENDENCIES has all parents done; a job that
    * waits has a parent that is not done or still owes its wake-up. */
  ghost predicate DependencyInv(w: World) {
    && (forall u :: u in w.rows && u in w.specs && w.rows[u].state != WaitDependencies ==> ParentsDone(w, u))
    && (forall u :: u in w.rows && u in w.specs && w.rows[u].state == WaitDependencies ==>
          exists p :: p in w.specs[u].parents && p in w.rows && (w.rows[p].state != Done || Owed(w, p)))
  }

  ghost predicate WInv(cfg: Config, w: World) {
    && ValidConfig(cfg)
    && TableInv(cfg, w)
    && RunnerInv(cfg, w)
    && PlacesInv(cfg, w)
    && EtaInv(w)
    && WorkerInv(w)
    && DependencyInv(w)
  }

  // ------------------------------------------------------------- preservation

  /** The invariants of the table, the workers and the dependencies, and the one
    * fact about the runner they rest on. */
  ghost predicate TableSide(cfg: Config, w: World) {
    TableInv(cfg, w) && WorkerInv(w) && DependencyInv(w) && SendsPending(w)
  }

  predicate SendsPending(w: World) {
    w.sending.Some? && w.sending.value in w.rows ==> w.rows[w.sending.value].state == Pending
  }

  /** The only state changes of a row. */
  predicate RowMoves(a: JobState, b: JobState) {
    || a == b
    || (a == WaitDependencies && b == Pending)
    || (a == Pending && b == Enqueued)
    || (a == Enqueued && (b == Started || b == Pending || b == JobState.Failed))
    || (a == Started && (b == Done || b == Pending || b == JobState.Failed))
  }

  /** The events that write the row of one job. */
  predicate WritesOneRow(e: Event) {
    || e.Send? || e.Start? || e.StartFails? || e.StartConflicts? || e.Timeout?
    || e.Finish? || e.Postpone? || e.Fail?
  }

  lemma RowSetMoves(w: World, w': World, v: RowId, r: Row, u: RowId)
    requires RowSet(w, w', v, r) && u in w.rows && v in w.rows && RowMoves(w.rows[v].state, r.state)
    ensures u in w'.rows && RowMoves(w.rows[u].state, w'.rows[u].state)
  {
  }

  lemma SentOrStartedMoves(cfg: Config, w: World, w': World, e: Event, u: RowId)
    requires SendsPending(w) && TableStep(cfg, w, w', e) && u in w.rows && (e.Send? || e.Start?)
    ensures u in w'.rows && RowMoves(w.rows[u].state, w'.rows[u].state)
  {
    match e
    case Send => RowSetMoves(w, w', w.sending.value, w.rows[w.sending.value].(state := Enqueued), u);
    case Start(v, _) => RowSetMoves(w, w', v, w.rows[v].(state := Started), u);
  }

  lemma NotStartedMoves(cfg: Config, w: World, w': World, e: Event, u: RowId)
    requires DependencyInv(w) && TableStep(cfg, w, w', e) && u in w.rows && (e.StartFails? || e.StartConflicts? || e.Timeout?)
    ensures u in w'.rows && RowMoves(w.rows[u].state, w'.rows[u].state)
  {
    match e
    case StartFails(v) => RowSetMoves(w, w', v, w.rows[v].(state := JobState.Failed), u);
    case StartConflicts(v, eta) => RowSetMoves(w, w', v, Row(Pending, eta), u);
    case Timeout(v) => RowSetMoves(w, w', v, w.rows[v].(state := Pending), u);
  }

  lemma PerformedMoves(cfg: Config, w: World, w': World, e: Event, u: RowId)
    requires WorkerInv(w) && DependencyInv(w) && TableStep(cfg, w, w', e) && u in w.rows
    requires e.Finish? || e.Postpone? || e.Fail?
    ensures u in w'.rows && RowMoves(w.rows[u].state, w'.rows[u].state)
  {
    var v := w.workers[e.k].u;
    match e
    case Finish(_) => RowSetMoves(w, w', v, w.rows[v].(state := Done), u);
    case Postpone(_, eta) => RowSetMoves(w, w', v, Row(Pending, eta), u);
    case Fail(_) => RowSetMoves(w, w', v, w.rows[v].(state := JobState.Failed), u);
  }

  lemma OneRowMoves(cfg: Config, w: World, w': World, e: Event, u: RowId)
    requires TableSide(cfg, w) && TableStep(cfg, w, w', e) && u in w.rows && WritesOneRow(e)
    ensures u in w'.rows && RowMoves(w.rows[u].state, w'.rows[u].state)
  {
    if e.Send? || e.Start? {
      SentOrStartedMoves(cfg, w, w', e, u);
    } else if e.StartFails? || e.StartConflicts? || e.Timeout? {
      NotStartedMoves(cfg, w, w', e, u);
    } else {
      PerformedMoves(cfg, w, w', e, u);
    }
  }

  lemma OtherRowsMove(cfg: Config, w: World, w': World, e: Event, u: RowId)
    requires TableSide(cfg, w) && TableStep(cfg, w, w', e) && u in w.rows && !WritesOneRow(e)
    ensures u in w'.rows && RowMoves(w.rows[u].state, w'.rows[u].state)
  {
  }

  /** Only a worker that postpones its job, or a conflict that keeps one from starting,
    * changes the eta of a row; in particular neither waking, enqueuing, starting nor
    * resetting a job does. */
  lemma EtasStay(cfg: Config, w: World, w': World, e: Event, u: RowId)
    requires TableStep(cfg, w, w', e) && u in w.rows
    ensures u in w'.rows
    ensures w'.rows[u].eta == w.rows[u].eta
      || (e.Postpone? && e.k in w.workers && w.workers[e.k].u == u && w'.rows[u].eta == e.eta)
      || (e.StartConflicts? && e.u == u && w'.rows[u].eta == e.eta)
  {
  }

  lemma SpecsStay(cfg: Config, w: World, w': World, e: Event, u: RowId)
    requires TableInv(cfg, w) && TableStep(cfg, w, w', e) && u in w.specs
    ensures u in w'.specs && w'.specs[u] == w.specs[u]
  {
    assert e.Create? ==> u !in e.news;
  }

  lemma RowsMove(cfg: Config, w: World, w': World, e: Event, u: RowId)
    requires TableSide(cfg, w) && TableStep(cfg, w, w', e) && u in w.rows
    ensures u in w'.rows && u in w'.specs && w'.specs[u] == w.specs[u]
    ensures RowMoves(w.rows[u].state, w'.rows[u].state)
  {
    SpecsStay(cfg, w, w', e, u);
    if WritesOneRow(e) {
      OneRowMoves(cfg, w, w', e, u);
    } else {
      OtherRowsMove(cfg, w, w', e, u);
    }
  }

  lemma RowsAppear(cfg: Config, w: World, w': World, e: Event, u: RowId)
    requires TableSide(cfg, w) && TableStep(cfg, w, w', e) && u in w'.rows && u !in w.rows
    ensures e.Create? && u in e.news && u in w'.specs && w'.specs[u] == e.news[u]
    ensures w'.rows[u].state == if e.news[u].parents == {} then Pending else WaitDependencies
  {
  }

  lemma TableKept(cfg: Config, w: World, w': World, e: Event)
    requires TableSide(cfg, w) && TableStep(cfg, w, w', e)
    ensures TableInv(cfg, w')
  {
    SpecsKept(cfg, w, w', e);
    forall u | u in w'.rows ensures w'.rows[u].state != Cancelled {
      if u in w.rows {
        RowsMove(cfg, w, w', e, u);
      } else {
        RowsAppear(cfg, w, w', e, u);
      }
    }
  }

  lemma SpecsKept(cfg: Config, w: World, w': World, e: Event)
    requires TableInv(cfg, w) && TableStep(cfg, w, w', e)
    ensures w'.rows.Keys == w'.specs.Keys
    ensures forall u :: u in w'.specs ==> w'.specs[u].chan < |cfg.parent| && w'.specs[u].parents <= w'.specs.Keys - {u}
  {
    if e.Create? {
      assert w'.rows.Keys == w.rows.Keys + e.news.Keys;
    } else {
      assert w'.specs == w.specs;
      RowsStay(cfg, w, w', e);
    }
  }

  lemma RowsStay(cfg: Config, w: World, w': World, e: Event)
    requires TableInv(cfg, w) && TableStep(cfg, w, w', e) && !e.Create?
    ensures w'.rows.Keys == w.rows.Keys
  {
  }

  lemma WorkersKept(cfg: Config, w: World, w': World, e: Event)
    requires TableSide(cfg, w) && TableStep(cfg, w, w', e)
    ensures WorkerInv(w')
  {
    if TouchesNoWorker(e) {
      UntouchedWorkersKept(cfg, w, w', e);
    } else if e.WakeChildren? || e.Die? || e.RetryLater? {
      OwingWorkersKept(cfg, w, w', e);
    } else {
      ActiveWorkersKept(cfg, w, w', e);
    }
  }

  predicate TouchesNoWorker(e: Event) { e.Create? || e.Send? || e.StartFails? || e.StartConflicts? || e.Timeout? }

  lemma UntouchedWorkersKept(cfg: Config, w: World, w': World, e: Event)
    requires SendsPending(w) && WorkerInv(w) && TableStep(cfg, w, w', e) && TouchesNoWorker(e)
    ensures WorkerInv(w')
  {
  }

  lemma OwingWorkersKept(cfg: Config, w: World, w': World, e: Event)
    requires WorkerInv(w) && TableStep(cfg, w, w', e) && (e.WakeChildren? || e.Die? || e.RetryLater?)
    ensures WorkerInv(w')
  {
    match e
    case WakeChildren(_) =>
    case Die(_) =>
    case RetryLater(_) =>
  }

  lemma ActiveWorkersKept(cfg: Config, w: World, w': World, e: Event)
    requires WorkerInv(w) && TableStep(cfg, w, w', e)
    requires !(TouchesNoWorker(e) || e.WakeChildren? || e.Die? || e.RetryLater?)
    ensures WorkerInv(w')
  {
    match e
    case Start(_, _) =>
    case Finish(_) =>
    case Postpone(_, _) =>
    case Fail(_) =>
    case _ =>
  }

  lemma DependenciesKept(cfg: Config, w: World, w': World, e: Event)
    requires TableSide(cfg, w) && TableStep(cfg, w, w', e)
    ensures DependencyInv(w')
  {
    forall u | u in w'.rows && u in w'.specs && w'.rows[u].state != WaitDependencies
      ensures ParentsDone(w', u)
    {
      ParentsStayDone(cfg, w, w', e, u);
    }
    forall u | u in w'.rows && u in w'.specs && w'.rows[u].state == WaitDependencies
      ensures exists p :: p in w'.specs[u].parents && p in w'.rows && (w'.rows[p].state != Done || Owed(w', p))
    {
      WaitingIsOwed(cfg, w, w', e, u);
    }
  }

  lemma ParentsStayDone(cfg: Config, w: World, w': World, e: Event, u: RowId)
    requires TableSide(cfg, w) && TableStep(cfg, w, w', e)
    requires u in w'.rows && u in w'.specs && w'.rows[u].state != WaitDependencies
    ensures ParentsDone(w', u)
  {
    if u in w.rows {
      RowsMove(cfg, w, w', e, u);
      if w.rows[u].state == WaitDependencies {
        WaitEndsWithParents(cfg, w, w', e, u);
      }
      assert ParentsDone(w, u);
      forall p | p in w'.specs[u].parents ensures p in w'.rows && w'.rows[p].state == Done {
        RowsMove(cfg, w, w', e, p);
      }
    } else {
      RowsAppear(cfg, w, w', e, u);
    }
  }

  lemma WaitEndsWithParents(cfg: Config, w: World, w': World, e: Event, u: RowId)
    requires SendsPending(w) && WorkerInv(w) && TableStep(cfg, w, w', e)
    requires u in w.rows && w.rows[u].state == WaitDependencies
    requires u in w'.rows && w'.rows[u].state != WaitDependencies
    ensures e.WakeChildren? && ParentsDone(w, u)
  {
  }

  lemma WaitingIsOwed(cfg: Config, w: World, w': World, e: Event, u: RowId)
    requires TableSide(cfg, w) && TableStep(cfg, w, w', e)
    requires u in w'.rows && u in w'.specs && w'.rows[u].state == WaitDependencies
    ensures exists p :: p in w'.specs[u].parents && p in w'.rows && (w'.rows[p].state != Done || Owed(w', p))
  {
    if u in w.rows {
      RowsMove(cfg, w, w', e, u);
      var p :| p in w.specs[u].parents && p in w.rows && (w.rows[p].state != Done || Owed(w, p));
      StillOwed(cfg, w, w', e, u, p);
    } else {
      RowsAppear(cfg, w, w', e, u);
      var p :| p in e.news[u].parents;
      RowsAppear(cfg, w, w', e, p);
    }
  }

  /** The reason `p` why `u` waits still holds, or another one does. */
  lemma StillOwed(cfg: Config, w: World, w': World, e: Event, u: RowId, p: RowId)
    requires TableSide(cfg, w) && TableStep(cfg, w, w', e) && u in w.rows && u in w.specs && u in w'.rows && u in w'.specs
    requires w'.specs[u] == w.specs[u]
    requires w.rows[u].state == WaitDependencies && w'.rows[u].state == WaitDependencies
    requires p in w.specs[u].parents && p in w.rows && (w.rows[p].state != Done || Owed(w, p))
    ensures exists q :: q in w.specs[u].parents && q in w'.rows && (w'.rows[q].state != Done || Owed(w', q))
  {
    RowsMove(cfg, w, w', e, p);
    if w'.rows[p].state == Done {
      if w.rows[p].state != Done {
        FinishedIsOwed(cfg, w, w', e, p);
      } else if !(e.WakeChildren? && e.k in w.workers && w.workers[e.k].u == p) {
        DebtKept(cfg, w, w', e, p);
      } else {
        var q := NotWokenHasReason(cfg, w, w', e.k, u);
      }
    }
  }

  /** A child that `enqueue_waiting` does not wake has a parent that is not done. */
  lemma NotWokenHasReason(cfg: Config, w: World, w': World, k: nat, u: RowId) returns (q: RowId)
    requires TableInv(cfg, w) && TableStep(cfg, w, w', WakeChildren(k)) && u in w.rows && u in w'.rows && u in w.specs
    requires w.workers[k].u in w.specs[u].parents
    requires w.rows[u].state == WaitDependencies && w'.rows[u].state == WaitDependencies
    ensures q in w.specs[u].parents && q in w'.rows && w'.rows[q].state != Done
  {
    assert !WakesUp(w, w.workers[k].u, u);
    q :| q in w.specs[u].parents && !(q in w.rows && w.rows[q].state == Done);
  }

  lemma FinishedIsOwed(cfg: Config, w: World, w': World, e: Event, p: RowId)
    requires TableStep(cfg, w, w', e)
    requires p in w.rows && p in w'.rows && w.rows[p].state != Done && w'.rows[p].state == Done
    ensures Owed(w', p)
  {
    match e
    case Finish(k) => assert w'.workers[k].Owing? && w'.workers[k].u == p;
    case _ => assert false;
  }

  /** A debt disappears only when it is paid. */
  lemma DebtKept(cfg: Config, w: World, w': World, e: Event, p: RowId)
    requires TableStep(cfg, w, w', e)
    requires Owed(w, p) && !(e.WakeChildren? && e.k in w.workers && w.workers[e.k].u == p)
    ensures Owed(w', p)
  {
    if p !in w.abandoned {
      var l :| l in w.workers && w.workers[l].Owing? && w.workers[l].u == p;
      match e
      case Die(k) => assert l == k || (l in w'.workers && w'.workers[l] == w.workers[l]);
      case RetryLater(k) => assert p in w'.abandoned || (l in w'.workers && w'.workers[l].Owing? && w'.workers[l].u == p);
      case _ => assert l in w'.workers && w'.workers[l] == w.workers[l];
    }
  }
}
