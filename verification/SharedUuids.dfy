/** A copied database: two databases store the same uuid. The uuid column has no
  * constraint across databases, but the runner has one table of uuids for all of them.
  */
module SharedUuids {
  import opened ChannelJobs
  import opened Channels
  import opened SchedulerSteps
  import opened RunProtocol
  import opened RunMemory
  import opened RunPlaces
  import opened RunTheorems
  import opened RunnerLoop
  import opened Runners
  import opened GraphRuns

  const ORIGINAL := RowId(0, 7)
  const COPY := RowId(1, 7)

  function NoEta(y: nat): int { 0 }

  /** The table of database `u.db` with the one pending job `u`. */
  function OneJob(u: RowId): map<RowId, JobSpec> {
    map[u := JobSpec(0, Key(10, 0, 1), {})]
  }

  function WithJob(w: World, u: RowId): World {
    AfterDelay(w, u.db, OneJob(u), NoEta)
  }

  lemma OneJobIsAStep(cfg: Config, w: World, u: RowId)
    requires Inv(cfg, w.mem) && !w.up && u !in w.rows
    ensures NextWorld(cfg, w, WithJob(w, u), Create(u.db, OneJob(u), EtasOf(OneJob(u), NoEta)))
  {
    StoringIsAStep(cfg, w, u.db, OneJob(u), NoEta);
  }

  lemma JobStored(cfg: Config, w0: World, w: World, u: RowId)
    requires WInv(cfg, w) && Leads(cfg, w0, w) && !w.up && u !in w.rows
    ensures WInv(cfg, WithJob(w, u)) && Leads(cfg, w0, WithJob(w, u))
  {
    OneJobIsAStep(cfg, w, u);
    LeadsStep(cfg, w0, w, WithJob(w, u), Create(u.db, OneJob(u), EtasOf(OneJob(u), NoEta)));
  }

  /** Both databases hold the job; nothing is running yet. */
  function Copied(cfg: Config): World {
    WithJob(WithJob(InitialWorld(cfg), ORIGINAL), COPY)
  }

  lemma CopiedIsReached(cfg: Config)
    requires ValidConfig(cfg)
    ensures Leads(cfg, InitialWorld(cfg), Copied(cfg)) && WInv(cfg, Copied(cfg))
  {
    InitialWorldOk(cfg);
    LeadsNowhere(cfg, InitialWorld(cfg));
    JobStored(cfg, InitialWorld(cfg), InitialWorld(cfg), ORIGINAL);
    JobStored(cfg, InitialWorld(cfg), WithJob(InitialWorld(cfg), ORIGINAL), COPY);
  }

  lemma OpenedIsReached(cfg: Config, w0: World, w: World, db: nat)
    requires WInv(cfg, w) && Leads(cfg, w0, w) && !w.up && db !in w.open && w.unread == map[]
    ensures WInv(cfg, Opened(w, db)) && Leads(cfg, w0, Opened(w, db))
  {
    OpenLeads(cfg, w, db);
    LeadsFurther(cfg, w0, w, Opened(w, db));
  }

  /** The first row of the first database meets the assertions and is kept in memory. */
  lemma FirstRowApplied(cfg: Config, w0: World, w: World, u: RowId) returns (w': World)
    requires WInv(cfg, w) && Leads(cfg, w0, w) && u in w.unread && u.uuid !in w.mem.byUuid
    ensures WInv(cfg, w') && Leads(cfg, w0, w') && w'.unread == w.unread - {u} && InMemory(w'.mem, u)
    ensures SameTable(w, w') && w'.open == w.open && w'.up == w.up
  {
    MemoryMeetsAssertions(cfg, w, u);
    ApplyLeads(cfg, w, u);
    w' := Applied(cfg, w, u);
    var _ := NotifiedPlace(cfg, w, w', u);
    LeadsFurther(cfg, w0, w, w');
  }

  /** The tables hold the job twice. */
  predicate HoldsBoth(w: World) {
    w.rows == map[ORIGINAL := Row(Pending, 0), COPY := Row(Pending, 0)] && w.specs.Keys == {ORIGINAL, COPY}
  }

  /** The row of the first database is selected. */
  lemma OriginalSelected(cfg: Config) returns (w: World)
    requires ValidConfig(cfg)
    ensures Leads(cfg, InitialWorld(cfg), w) && WInv(cfg, w) && HoldsBoth(w) && w.mem.byUuid == map[]
    ensures w.open == {0} && !w.up && w.unread == map[ORIGINAL := Row(Pending, 0)]
  {
    CopiedIsReached(cfg);
    CopiedRows(cfg);
    w := Opened(Copied(cfg), 0);
    OpenedIsReached(cfg, InitialWorld(cfg), Copied(cfg), 0);
  }

  /** The first of the two databases is initialised. */
  lemma OriginalInMemory(cfg: Config) returns (w: World)
    requires ValidConfig(cfg)
    ensures Leads(cfg, InitialWorld(cfg), w) && WInv(cfg, w) && HoldsBoth(w) && InMemory(w.mem, ORIGINAL)
    ensures w.open == {0} && !w.up && w.unread == map[]
  {
    var w1 := OriginalSelected(cfg);
    w := FirstRowApplied(cfg, InitialWorld(cfg), w1, ORIGINAL);
  }

  /** With a copied database the assertion on the database name fails while the
    * databases are initialised: a run leads there from the initial world. */
  lemma CopiedDatabaseFails(cfg: Config) returns (w: World)
    requires ValidConfig(cfg)
    ensures Leads(cfg, InitialWorld(cfg), w) && COPY in w.unread && COPY in w.specs
    ensures !NotifyAllowed(cfg, w.mem, COPY.uuid, COPY.db, w.specs[COPY].chan, w.specs[COPY].key)
  {
    var w1 := OriginalInMemory(cfg);
    OpenedIsReached(cfg, InitialWorld(cfg), w1, 1);
    w := Opened(w1, 1);
    assert InMemory(w.mem, ORIGINAL);
  }

  lemma CopiedRows(cfg: Config)
    ensures var w := Copied(cfg);
      && HoldsBoth(w) && !w.up && w.open == {} && w.unread == map[] && w.mem.byUuid == map[]
      && Opened(w, 0).unread == map[ORIGINAL := Row(Pending, 0)]
  {
  }

  /** Only the order decides when one of the two rows waits for its parents: the weak
    * table forgets a waiting job at once, but not one that is in a channel. */
  lemma WaitingFirstIsHarmless()
    ensures var rows := map[ORIGINAL := Row(WaitDependencies, 0), COPY := Row(Pending, 0)];
      !Clash(rows, [0, 1]) && Clash(rows, [1, 0])
  {
    var rows := map[ORIGINAL := Row(WaitDependencies, 0), COPY := Row(Pending, 0)];
    var dbs := [1, 0];
    assert dbs[0] == 1 && dbs[1] == 0;
    assert ClashOf(rows, dbs, COPY, ORIGINAL);
  }
}
