/** The runner as the program has it (`QueueJobRunner`): methods that update the
  * channel manager and the job tables in place. Whatever they do is a run of the
  * protocol, so everything proved about runs holds for them.
  */
module Runners {
  import opened ChannelJobs
  import opened Channels
  import opened SchedulerSteps
  import opened SchedulerRuns
  import opened JobSelection
  import opened RunProtocol
  import opened RunMemory
  import opened RunPlaces
  import opened RunTheorems
  import opened RunnerLoop
  import M = Manager

  // --------------------------------------------------- when initialisation fails

  /** A row of this state keeps its job in some channel. */
  predicate KeepsJob(st: JobState) { st == Pending || Busy(st) || st == JobState.Failed }

  /** A job with the uuid of `u` in memory, but of another database. */
  predicate Rival(s: Sched, u: RowId) {
    u.uuid in s.byUuid && s.byUuid[u.uuid].db != u.db
  }

  /** Two databases store the same uuid in unfinished rows, and the row of the database
    * that is opened first does not wait for dependencies. */
  predicate Clash(rows: map<RowId, Row>, dbs: seq<nat>) {
    exists u, v | u in rows && v in rows :: ClashOf(rows, dbs, v, u)
  }

  predicate ClashOf(rows: map<RowId, Row>, dbs: seq<nat>, v: RowId, u: RowId)
    requires v in rows && u in rows
  {
    && v.uuid == u.uuid
    && rows[v].state in {Pending, Enqueued, Started, JobState.Failed}
    && rows[u].state in {WaitDependencies, Pending, Enqueued, Started, JobState.Failed}
    && exists i, k :: 0 <= i < k < |dbs| && v.db == dbs[i] && u.db == dbs[k]
  }

  /** Memory during `initialize_databases`: the jobs of the rows already passed to
    * `notify`, if they are kept in some channel. */
  ghost predicate HoldsProcessed(w: World) {
    forall v :: InMemory(w.mem, v) <==> v in w.rows && v.db in w.open && v !in w.unread && KeepsJob(w.rows[v].state)
  }

  /** Each row passed to `notify` so far had no rival in a database before. */
  ghost predicate NoClashYet(w: World, dbs: seq<nat>) {
    forall u, v :: u in w.rows && v in w.rows && u.db in w.open && u !in w.unread ==> !ClashOf(w.rows, dbs, v, u)
  }

  /** The i-th database is being initialised, the ones before are. */
  ghost predicate Opening(w: World, dbs: seq<nat>, i: nat) {
    && i < |dbs| && (forall a, b :: 0 <= a < b < |dbs| ==> dbs[a] != dbs[b])
    && (forall d :: d in w.open <==> d in dbs[..i + 1])
    && forall u :: u in w.unread ==> u.db == dbs[i] && u in w.rows && w.rows[u] == w.unread[u] && NotDone(w.rows[u].state)
  }

  ghost predicate Initialising(w: World, dbs: seq<nat>, i: nat) {
    HoldsProcessed(w) && NoClashYet(w, dbs) && Opening(w, dbs, i)
  }

  /** The row `u` was passed to `notify`. */
  ghost predicate Passed(cfg: Config, w: World, w': World, u: RowId)
    requires Inv(cfg, w.mem)
  {
    RunnerStep(cfg, w, w', Apply(u)) && SameTable(w, w') && w'.unread == w.unread - {u}
  }

  /** With nothing unread or about to be sent, only notifications are outstanding. */
  lemma AllInPlace(cfg: Config, w: World)
    requires WInv(cfg, w) && Idle(w)
    ensures forall u :: u in w.rows && u !in w.notified ==> InPlace(cfg, w.mem, u, w.rows[u], w.latest)
  {
    forall u | u in w.rows && u !in w.notified ensures InPlace(cfg, w.mem, u, w.rows[u], w.latest) {
      assert Settled(w, u);
    }
  }

  /** A rival is the job of a database opened before. */
  lemma RivalClashes(cfg: Config, w: World, dbs: seq<nat>, i: nat, u: RowId)
    requires WInv(cfg, w) && HoldsProcessed(w) && Opening(w, dbs, i) && u in w.unread && Rival(w.mem, u)
    ensures Clash(w.rows, dbs)
  {
    var v := RowId(w.mem.byUuid[u.uuid].db, u.uuid);
    assert InMemory(w.mem, v);
    OpenedBefore(w, dbs, i, v.db);
    assert ClashOf(w.rows, dbs, v, u);
  }

  lemma OpenedBefore(w: World, dbs: seq<nat>, i: nat, db: nat)
    requires Opening(w, dbs, i) && db in w.open && db != dbs[i]
    ensures exists a :: 0 <= a < i && dbs[a] == db
  {
    var a :| 0 <= a < i + 1 && dbs[..i + 1][a] == db;
    assert dbs[a] == db;
  }

  /** Conversely a row that clashes with one of a database opened before has a rival. */
  lemma ClashHasRival(cfg: Config, w: World, dbs: seq<nat>, i: nat, v: RowId, u: RowId)
    requires WInv(cfg, w) && HoldsProcessed(w) && Opening(w, dbs, i) && u in w.unread
    requires v in w.rows && ClashOf(w.rows, dbs, v, u)
    ensures Rival(w.mem, u)
  {
    var a, b :| 0 <= a < b < |dbs| && v.db == dbs[a] && u.db == dbs[b];
    assert b == i && dbs[..i + 1][a] == v.db;
    assert InMemory(w.mem, v);
    RivalIsInMemory(cfg, w, u);
  }

  lemma ProcessedWithoutClash(cfg: Config, w: World, w': World, dbs: seq<nat>, i: nat, u: RowId)
    requires WInv(cfg, w) && HoldsProcessed(w) && Opening(w, dbs, i) && u in w.unread && !Rival(w.mem, u)
    requires NoClashYet(w, dbs) && w'.rows == w.rows && w'.open == w.open && w'.unread == w.unread - {u}
    ensures NoClashYet(w', dbs) && Opening(w', dbs, i)
  {
    forall v | v in w.rows ensures !ClashOf(w.rows, dbs, v, u) {
      if ClashOf(w.rows, dbs, v, u) {
        ClashHasRival(cfg, w, dbs, i, v, u);
      }
    }
  }

  lemma RivalIsInMemory(cfg: Config, w: World, u: RowId)
    requires WInv(cfg, w)
    ensures Rival(w.mem, u) <==> exists v :: InMemory(w.mem, v) && v.uuid == u.uuid && v != u
    ensures Rival(w.mem, u) ==> InMemory(w.mem, RowId(w.mem.byUuid[u.uuid].db, u.uuid))
  {
    if Rival(w.mem, u) {
      assert InMemory(w.mem, RowId(w.mem.byUuid[u.uuid].db, u.uuid));
    }
  }

  lemma RivalFails(cfg: Config, w: World, u: RowId)
    requires WInv(cfg, w) && u in w.unread
    ensures u in w.specs
    ensures NotifyAllowed(cfg, w.mem, u.uuid, u.db, w.specs[u].chan, w.specs[u].key) <==> !Rival(w.mem, u)
  {
    MemoryMeetsAssertions(cfg, w, u);
    RivalIsInMemory(cfg, w, u);
  }

  /** The weak table drops the object of a row that is notified for the first time as
    * waiting, and of no other. */
  lemma FirstNotified(cfg: Config, w: World, w': World, u: RowId)
    requires RunnerInv(cfg, w) && RunnerStep(cfg, w, w', Apply(u)) && u.uuid !in w.mem.byUuid
    ensures Inv(cfg, w'.mem) && InMemory(w'.mem, u)
    ensures w.unread[u].state == WaitDependencies ==> M.Collectable(cfg, w'.mem, u.uuid)
    ensures KeepsJob(w.unread[u].state) ==> !M.Collectable(cfg, w'.mem, u.uuid)
  {
    var p := NotifiedPlace(cfg, w, w', u);
    if w.unread[u].state == WaitDependencies {
      NewObjectUnreferenced(cfg, w.mem, u.uuid, u.db, w.specs[u].chan, w.specs[u].key, w.unread[u].eta);
    } else if KeepsJob(w.unread[u].state) && M.Collectable(cfg, w'.mem, u.uuid) {
      PlacedOnce(cfg, w'.mem, u, Nowhere, PlaceAfter(Object(w'.mem, u), p, w.unread[u].state));
    }
  }

  lemma NewObjectUnreferenced(cfg: Config, s: Sched, u: nat, db: nat, chan: nat, key: Key, eta: int)
    requires Inv(cfg, s) && u !in s.byUuid && chan < |cfg.parent|
    ensures M.Collectable(cfg, NewObject(s, u, db, chan, key, eta), u)
  {
    NewObjectWorks(cfg, s, u, db, chan, key, eta);
    var s' := NewObject(s, u, db, chan, key, eta);
    forall c | 0 <= c < |s'.chans|
      ensures s'.byUuid[u] !in s'.chans[c].readyHeap && s'.byUuid[u] !in s'.chans[c].waitHeap
    {
      assert ChanHeapsSound(s, c);
    }
  }

  lemma OthersInMemory(cfg: Config, w: World, w': World, u: RowId, v: RowId)
    requires RunnerInv(cfg, w) && RunnerStep(cfg, w, w', Apply(u)) && u != v
    ensures InMemory(w'.mem, v) <==> InMemory(w.mem, v)
  {
    var _ := NotifiedPlace(cfg, w, w', u);
    OthersUnmoved(cfg, w, w', u, v);
  }

  // ----------------------------------------------------------------- the class

  class JobRunner {
    const manager: M.ChannelManager
    var specs: map<RowId, JobSpec>
    var rows: map<RowId, Row>
    var workers: map<nat, Worker>
    ghost var abandoned: set<RowId>
    /** The databases of `db_by_name`. */
    var open: set<nat>
    var up: bool
    var notified: set<RowId>
    var unread: map<RowId, Row>
    var clock: int
    ghost var latest: int

    ghost function Current(): World
      reads this, manager
    {
      World(specs, rows, manager.State(), open, up, notified, unread, None, workers, abandoned, clock, latest)
    }

    ghost predicate Valid()
      reads this, manager
    {
      WInv(manager.cfg, Current())
    }

    /** Within the limits of all channels. */
    ghost predicate Fits()
      requires Valid()
      reads this, manager
    {
      WithinLimits(manager.cfg, Current())
    }

    /** A runner that has not started, on empty tables. */
    constructor (cfg: Config)
      requires ValidConfig(cfg)
      ensures Valid() && fresh(manager) && manager.cfg == cfg && Current() == InitialWorld(cfg)
    {
      manager := new M.ChannelManager(cfg);
      specs, rows, workers, abandoned := map[], map[], map[], {};
      open, up, notified, unread, clock, latest := {}, false, {}, map[], 0, 0;
      new;
      InitialWorldOk(cfg);
    }

    /** A selected row is passed to `notify`; `ok` is false if an assertion fails, which
      * it does exactly when a job with this uuid of another database is in memory. */
    method NotifyRow(u: RowId) returns (ok: bool)
      requires Valid() && u in unread
      modifies this`unread, manager
      ensures ok <==> !old(Rival(manager.State(), u))
      ensures !ok ==> Current() == old(Current())
      ensures ok ==> Passed(manager.cfg, old(Current()), Current(), u)
      ensures Valid() && Leads(manager.cfg, old(Current()), Current())
    {
      RivalFails(manager.cfg, Current(), u);
      LeadsNowhere(manager.cfg, Current());
      if u.uuid in manager.byUuid
        && (manager.byUuid[u.uuid].db != u.db || manager.byUuid[u.uuid].key.created != specs[u].key.created) {
        return false;
      }
      ghost var w := Current();
      ApplyLeads(manager.cfg, w, u);
      var r := unread[u];
      manager.NotifyJob(u.uuid, u.db, specs[u].chan, specs[u].key, r.eta, r.state);
      unread := unread - {u};
      assert Current() == Applied(manager.cfg, w, u);
      ok := true;
    }

    /** An object that nothing refers to any more is dropped from the weak table. */
    method CollectObject(uuid: nat)
      requires Valid()
      modifies manager
      ensures Valid() && Leads(manager.cfg, old(Current()), Current())
      ensures old(M.Collectable(manager.cfg, manager.State(), uuid)) ==>
        manager.byUuid == old(manager.byUuid) - {uuid}
      ensures !old(M.Collectable(manager.cfg, manager.State(), uuid)) ==> manager.State() == old(manager.State())
    {
      ghost var w := Current();
      manager.Collect(uuid);
      LeadsNowhere(manager.cfg, w);
      if M.Collectable(manager.cfg, w.mem, uuid) {
        CollectLeads(manager.cfg, w, manager.State(), uuid);
        assert Current() == w.(mem := manager.State());
      }
    }

    // --------------------------------------------------- initialize_databases

    /** One row of the select statement of `initialize_databases`. */
    method InitialiseRow(u: RowId, ghost dbs: seq<nat>, ghost i: nat) returns (ok: bool)
      requires Valid() && u in unread && Initialising(Current(), dbs, i)
      modifies this`unread, manager
      ensures Valid() && Leads(manager.cfg, old(Current()), Current())
      ensures ok ==> unread == old(unread) - {u} && Initialising(Current(), dbs, i)
      ensures !ok ==> Clash(rows, dbs)
    {
      ghost var w := Current();
      ok := NotifyRow(u);
      if !ok {
        RivalClashes(manager.cfg, w, dbs, i, u);
        return;
      }
      AcceptRow(u, dbs, i, w);
    }

    /** After the row was passed to `notify`; `w` is the world before. */
    method AcceptRow(u: RowId, ghost dbs: seq<nat>, ghost i: nat, ghost w: World)
      requires Valid() && WInv(manager.cfg, w) && Initialising(w, dbs, i)
      requires u in w.unread && !Rival(w.mem, u) && Leads(manager.cfg, w, Current())
      requires Passed(manager.cfg, w, Current(), u)
      modifies manager
      ensures Valid() && Leads(manager.cfg, w, Current())
      ensures unread == old(unread) && Initialising(Current(), dbs, i)
    {
      ghost var w1 := Current();
      CollectObject(u.uuid);
      RowDone(manager.cfg, w, w1, Current(), dbs, i, u);
    }

    /** The select statement of `initialize_databases` for the next database. */
    method Select(db: nat)
      requires Valid() && !up && unread == map[] && db !in open
      modifies this`open, this`unread
      ensures Valid() && Leads(manager.cfg, old(Current()), Current())
      ensures open == old(open) + {db} && unread == Selected(old(Current()), db)
    {
      ghost var w := Current();
      open := open + {db};
      unread := map u | u in rows && u.db == db && NotDone(rows[u].state) :: rows[u];
      OpenLeads(manager.cfg, w, db);
      assert Current() == Opened(w, db);
    }

    /** One turn of the loop of `initialize_databases`: the i-th database. */
    method InitialiseDatabase(dbs: seq<nat>, i: nat) returns (ok: bool)
      requires Valid() && !up && unread == map[] && NextToOpen(Current(), dbs, i)
      requires HoldsProcessed(Current()) && NoClashYet(Current(), dbs)
      modifies this`open, this`unread, manager
      ensures Valid() && Leads(manager.cfg, old(Current()), Current())
      ensures ok ==> unread == map[] && HoldsProcessed(Current()) && NoClashYet(Current(), dbs)
      ensures ok ==> forall d :: d in open <==> d in dbs[..i + 1]
      ensures !ok ==> Clash(rows, dbs)
    {
      ghost var w := Current();
      Select(dbs[i]);
      JustSelected(manager.cfg, w, Current(), dbs, i);
      while unread != map[]
        invariant Valid() && Leads(manager.cfg, w, Current()) && Initialising(Current(), dbs, i)
        decreases unread.Keys
      {
        ghost var w1 := Current();
        var u :| u in unread;
        ok := InitialiseRow(u, dbs, i);
        LeadsFurther(manager.cfg, w, w1, Current());
        if !ok {
          return;
        }
      }
      ok := true;
    }

    /** The end of `initialize_databases`. */
    method BecomeReady()
      requires Valid() && !up && unread == map[] && forall u :: u in specs ==> u.db in open
      modifies this`up
      ensures Valid() && Leads(manager.cfg, old(Current()), Current()) && up
    {
      ghost var w := Current();
      up := true;
      ReadyLeads(manager.cfg, w);
      assert Current() == w.(up := true);
    }

    /** `initialize_databases`: the databases `dbs` are opened one after the other. An
      * assertion of `notify` fails if and only if two of them store the same uuid in
      * unfinished rows and the job of the first one is kept in a channel. Otherwise
      * every row of every database has its job in place. */
    method InitializeDatabases(dbs: seq<nat>) returns (ok: bool)
      requires Valid() && !up && open == {} && unread == map[]
      requires (forall a, b :: 0 <= a < b < |dbs| ==> dbs[a] != dbs[b]) && forall u :: u in specs ==> u.db in dbs
      modifies this`open, this`unread, this`up, manager
      ensures Valid() && Leads(manager.cfg, old(Current()), Current())
      ensures old(Fits()) ==> Fits()
      ensures ok <==> !Clash(rows, dbs)
      ensures ok ==> Idle(Current()) && forall u :: u in rows && u !in notified ==> InPlace(manager.cfg, manager.State(), u, rows[u], latest)
      ensures !ok ==> !up
    {
      ghost var w := Current();
      ok := OpenDatabases(dbs);
      if ok {
        AllOpenNoClash(Current(), dbs);
        ghost var w2 := Current();
        BecomeReady();
        LeadsFurther(manager.cfg, w, w2, Current());
        AllInPlace(manager.cfg, Current());
      }
      LeadsKeeps(manager.cfg, w, Current());
    }

    /** The loop over the databases. */
    method OpenDatabases(dbs: seq<nat>) returns (ok: bool)
      requires Valid() && !up && open == {} && unread == map[]
      requires forall a, b :: 0 <= a < b < |dbs| ==> dbs[a] != dbs[b]
      modifies this`open, this`unread, manager
      ensures Valid() && Leads(manager.cfg, old(Current()), Current())
      ensures ok ==> unread == map[] && NoClashYet(Current(), dbs) && forall d :: d in open <==> d in dbs
      ensures !ok ==> Clash(rows, dbs)
    {
      ghost var w := Current();
      LeadsNowhere(manager.cfg, w);
      NothingOpen(manager.cfg, w, dbs);
      for i := 0 to |dbs|
        invariant Valid() && Leads(manager.cfg, w, Current()) && unread == map[]
        invariant HoldsProcessed(Current()) && NoClashYet(Current(), dbs)
        invariant forall d :: d in open <==> d in dbs[..i]
      {
        ghost var w1 := Current();
        assert dbs[i] !in dbs[..i];
        ok := InitialiseDatabase(dbs, i);
        LeadsFurther(manager.cfg, w, w1, Current());
        if !ok {
          return;
        }
      }
      assert dbs[..|dbs|] == dbs;
      ok := true;
    }

    // ------------------------------------------------- process_notifications

    /** One notification handled by `process_notifications`: select the row and pass it
      * to `notify`, or forget the job of this uuid when there is no row. `ok` is false
      * if an assertion fails. */
    method ProcessNotification(u: RowId) returns (ok: bool)
      requires Valid() && Idle(Current())
      modifies this`unread, this`notified, manager
      ensures manager.Valid() && notified == old(notified) - {u}
      ensures ok <==> u !in rows || !old(Rival(manager.State(), u))
      ensures u !in rows ==> manager.State() == RemoveJob(manager.cfg, old(manager.State()), u.uuid)
      ensures u in rows || u.uuid !in old(manager.byUuid) ==>
        Valid() && Leads(manager.cfg, old(Current()), Current()) && (old(Fits()) ==> Fits())
      ensures u in rows && ok ==> Idle(Current()) && InPlace(manager.cfg, manager.State(), u, rows[u], latest)
    {
      ghost var w := Current();
      ReadOne(u);
      if u in rows {
        ok := NotifyRead(u, w);
      } else {
        RemoveMissing(u, w);
        ok := true;
      }
    }

    /** No row was selected: the job of this uuid is removed; `w` as for `NotifyRead`. */
    method RemoveMissing(u: RowId, ghost w: World)
      requires Valid() && WInv(manager.cfg, w) && Leads(manager.cfg, w, Current())
      modifies manager
      ensures manager.Valid() && manager.State() == RemoveJob(manager.cfg, old(manager.State()), u.uuid)
      ensures u.uuid !in old(manager.byUuid) ==>
        Valid() && Leads(manager.cfg, w, Current()) && (WithinLimits(manager.cfg, w) ==> Fits())
    {
      LeadsKeeps(manager.cfg, w, Current());
      manager.RemoveUuid(u.uuid);
    }

    /** Pass the row to `notify`; `w` is the world before its notification was taken. */
    method NotifyRead(u: RowId, ghost w: World) returns (ok: bool)
      requires Valid() && WInv(manager.cfg, w) && Leads(manager.cfg, w, Current()) && up
      requires unread.Keys == {u} && u !in notified && u in rows
      modifies this`unread, manager
      ensures Valid() && Leads(manager.cfg, w, Current()) && (WithinLimits(manager.cfg, w) ==> Fits())
      ensures ok <==> !old(Rival(manager.State(), u))
      ensures ok ==> Idle(Current()) && InPlace(manager.cfg, manager.State(), u, rows[u], latest)
    {
      ghost var w1 := Current();
      ok := NotifyRow(u);
      if ok {
        LeadsFurther(manager.cfg, w, w1, Current());
        assert unread == map[] && Settled(Current(), u);
      }
      LeadsKeeps(manager.cfg, w, Current());
    }

    /** Take the notification and select its row. */
    method ReadOne(u: RowId)
      requires Valid() && Idle(Current())
      modifies this`unread, this`notified
      ensures Valid() && Leads(manager.cfg, old(Current()), Current())
      ensures notified == old(notified) - {u} && unread == if u in rows then map[u := rows[u]] else map[]
    {
      ghost var w := Current();
      notified := notified - {u};
      unread := if u in rows then map[u := rows[u]] else map[];
      ReadLeads(manager.cfg, w, u);
      assert Current() == ReadOf(w, u);
    }

    // --------------------------------------------------------------- run_jobs

    /** `run_jobs` (not stopped): the jobs that the root channel yields, and only they,
      * get enqueued rows, which are notified; every channel is used up afterwards. */
    method RunJobs(now: int) returns (js: seq<Job>)
      requires Valid() && Idle(Current()) && now >= 0
      modifies this`rows, this`notified, this`clock, this`latest, manager
      ensures Valid() && Leads(manager.cfg, old(Current()), Current()) && Idle(Current())
      ensures old(Fits()) ==> Fits()
      ensures rows == EnqueuedRows(old(rows), js)
      ensures notified == old(notified) + IdsOf(js) && clock == now
      ensures forall c: nat :: c < |manager.cfg.parent| ==> Exhausted(manager.cfg, manager.State(), c, now)
    {
      ghost var w0 := Current();
      ReadClock(now);
      ghost var w := Current();
      js := manager.GetJobsToRun(0, now);
      RunJobsIsARun(manager.cfg, w, manager.State(), now);
      YieldedWorld(manager.cfg, w, manager.State(), js);
      SetJobsEnqueued(js);
      assert Current() == AfterRunJobs(w, manager.State());
      LeadsFurther(manager.cfg, w0, w, Current());
      LeadsKeeps(manager.cfg, w0, Current());
      AllUsedUp(manager.cfg, manager.State(), now);
    }

    method ReadClock(now: int)
      requires Valid()
      modifies this`clock, this`latest
      ensures Valid() && Leads(manager.cfg, old(Current()), Current())
      ensures clock == now
    {
      ghost var w := Current();
      TickLeads(manager.cfg, w, now);
      clock, latest := now, if now > latest then now else latest;
      assert Current() == Ticked(w, now);
    }

    /** `set_job_enqueued` for each of the jobs; the trigger notifies the rows. */
    method SetJobsEnqueued(js: seq<Job>)
      modifies this`rows, this`notified
      ensures rows == EnqueuedRows(old(rows), js) && notified == old(notified) + IdsOf(js)
    {
      for i := 0 to |js|
        invariant rows == EnqueuedRows(old(rows), js[..i]) && notified == old(notified) + IdsOf(js[..i])
      {
        var u := IdOf(js[i]);
        if u in rows {
          rows := rows[u := rows[u].(state := Enqueued)];
        }
        notified := notified + {u};
        OneMoreEnqueued(old(rows), js, i);
      }
      assert js[..|js|] == js;
    }

    // --------------------------------------------------------- close_databases

    /** `close_databases` after an exception: the memory of all open databases is gone. */
    method CloseDatabases()
      requires Valid()
      modifies this`open, this`up, this`unread, this`notified, manager
      ensures Valid() && Leads(manager.cfg, old(Current()), Current())
      ensures old(Fits()) ==> Fits()
      ensures !up && open == {} && unread == map[]
    {
      ghost var w := Current();
      var todo := open;
      while todo != {}
        invariant manager.Valid()
        invariant forall uuid :: uuid in manager.byUuid ==> manager.byUuid[uuid].db in todo
        decreases todo
      {
        var db :| db in todo;
        manager.RemoveDb(db);
        todo := todo - {db};
      }
      open, up, unread, notified := {}, false, map[], {};
      assert manager.byUuid == map[];
      CrashLeads(manager.cfg, w, manager.State());
      assert Current() == Crashed(w, manager.State());
      LeadsKeeps(manager.cfg, w, Current());
    }

    /** The outer loop of `run` after an exception. Whatever happened before, a copied
      * database with unfinished jobs makes it fail again, every time. */
    method Recover(dbs: seq<nat>) returns (ok: bool)
      requires Valid()
      requires (forall a, b :: 0 <= a < b < |dbs| ==> dbs[a] != dbs[b]) && forall u :: u in specs ==> u.db in dbs
      modifies this`open, this`up, this`unread, this`notified, manager
      ensures Valid() && Leads(manager.cfg, old(Current()), Current()) && (old(Fits()) ==> Fits())
      ensures ok <==> !Clash(rows, dbs)
      ensures ok ==> Idle(Current()) && forall u :: u in rows && u !in notified ==> InPlace(manager.cfg, manager.State(), u, rows[u], latest)
    {
      ghost var w := Current();
      CloseDatabases();
      ghost var w1 := Current();
      ok := InitializeDatabases(dbs);
      LeadsFurther(manager.cfg, w, w1, Current());
    }
  }

  /** The i-th database is the next to be opened. */
  ghost predicate NextToOpen(w: World, dbs: seq<nat>, i: nat) {
    && i < |dbs| && (forall a, b :: 0 <= a < b < |dbs| ==> dbs[a] != dbs[b])
    && forall d :: d in w.open <==> d in dbs[..i]
  }

  lemma JustSelected(cfg: Config, w: World, w': World, dbs: seq<nat>, i: nat)
    requires WInv(cfg, w) && NextToOpen(w, dbs, i) && w.unread == map[] && HoldsProcessed(w) && NoClashYet(w, dbs)
    requires w' == w.(open := w.open + {dbs[i]}, unread := Selected(w, dbs[i]))
    ensures Opening(w', dbs, i) && HoldsProcessed(w') && NoClashYet(w', dbs)
  {
    assert dbs[i] !in w.open;
    SelectedOpening(w, w', dbs, i);
    SelectedHeld(w, w', dbs[i]);
  }

  lemma SelectedOpening(w: World, w': World, dbs: seq<nat>, i: nat)
    requires NextToOpen(w, dbs, i) && NoClashYet(w, dbs) && w.unread == map[]
    requires w' == w.(open := w.open + {dbs[i]}, unread := Selected(w, dbs[i]))
    ensures Opening(w', dbs, i) && NoClashYet(w', dbs)
  {
    assert dbs[..i + 1] == dbs[..i] + [dbs[i]];
  }

  lemma SelectedHeld(w: World, w': World, db: nat)
    requires HoldsProcessed(w) && db !in w.open && w.unread == map[]
    requires w' == w.(open := w.open + {db}, unread := Selected(w, db))
    ensures HoldsProcessed(w')
  {
  }

  /** Nothing is processed and nothing is in memory while no database is open. */
  lemma NothingOpen(cfg: Config, w: World, dbs: seq<nat>)
    requires WInv(cfg, w) && w.open == {}
    ensures HoldsProcessed(w) && NoClashYet(w, dbs)
  {
    forall v ensures !InMemory(w.mem, v) {
      MemoryIsKnown(w, v);
    }
  }

  lemma AllOpenNoClash(w: World, dbs: seq<nat>)
    requires NoClashYet(w, dbs) && w.unread == map[] && forall d :: d in w.open <==> d in dbs
    ensures !Clash(w.rows, dbs)
  {
    forall u, v | u in w.rows && v in w.rows ensures !ClashOf(w.rows, dbs, v, u) {
    }
  }

  lemma AllUsedUp(cfg: Config, s: Sched, now: int)
    requires Inv(cfg, s) && forall c: nat :: c < |cfg.parent| && OnPath(cfg, c, 0) ==> Exhausted(cfg, s, c, now)
    ensures forall c: nat :: c < |cfg.parent| ==> Exhausted(cfg, s, c, now)
  {
    forall c: nat | c < |cfg.parent| ensures Exhausted(cfg, s, c, now) {
      PathReachesRoot(cfg, c);
    }
  }

  // ------------------------------------------------------- the yielded jobs

  function IdsOf(js: seq<Job>): set<RowId> {
    set j | j in js :: IdOf(j)
  }

  /** The rows after `set_job_enqueued` for the jobs `js`. */
  function EnqueuedRows(rows: map<RowId, Row>, js: seq<Job>): map<RowId, Row> {
    map u | u in rows :: if u in IdsOf(js) then rows[u].(state := Enqueued) else rows[u]
  }

  lemma OneMoreEnqueued(rows: map<RowId, Row>, js: seq<Job>, i: nat)
    requires i < |js|
    ensures IdsOf(js[..i + 1]) == IdsOf(js[..i]) + {IdOf(js[i])}
    ensures EnqueuedRows(rows, js[..i + 1]) ==
      if IdOf(js[i]) in rows
      then EnqueuedRows(rows, js[..i])[IdOf(js[i]) := rows[IdOf(js[i])].(state := Enqueued)]
      else EnqueuedRows(rows, js[..i])
  {
    assert js[..i + 1] == js[..i] + [js[i]];
  }

  lemma RunningIsCurrent(cfg: Config, t: Sched, j: Job)
    requires Inv(cfg, t) && Running(t, 0, j)
    ensures j.uuid in t.byUuid && t.byUuid[j.uuid] == j
  {
    assert Channels.Current(t, j);
  }

  /** The jobs that `get_jobs_to_run` yields are those that newly run in the root. */
  lemma YieldedNewlyRuns(cfg: Config, s: Sched, t: Sched, js: seq<Job>, u: RowId)
    requires Inv(cfg, s) && Inv(cfg, t) && t.byUuid == s.byUuid
    requires t.chans[0].running == s.chans[0].running + M.SetOf(js) && M.OnceEach(s.chans[0].running, js)
    ensures NewlyRuns(s, t, u) <==> u in IdsOf(js)
    ensures u in IdsOf(js) ==> InMemory(s, u)
  {
    forall j | j in js ensures j.uuid in s.byUuid && s.byUuid[j.uuid] == j {
      RunningIsCurrent(cfg, t, j);
    }
  }

  lemma YieldedWorld(cfg: Config, w: World, t: Sched, js: seq<Job>)
    requires WInv(cfg, w) && w.up && Inv(cfg, t) && t.byUuid == w.mem.byUuid
    requires t.chans[0].running == w.mem.chans[0].running + M.SetOf(js) && M.OnceEach(w.mem.chans[0].running, js)
    ensures AfterRunJobs(w, t).rows == EnqueuedRows(w.rows, js)
    ensures AfterRunJobs(w, t).notified == w.notified + IdsOf(js)
  {
    forall u ensures NewlyRuns(w.mem, t, u) <==> u in IdsOf(js)
      ensures u in IdsOf(js) ==> u in w.rows && u.db in w.open
    {
      YieldedNewlyRuns(cfg, w.mem, t, js, u);
      MemoryIsKnown(w, u);
    }
  }

  lemma OthersStay(cfg: Config, w: World, w1: World, s2: Sched, u: RowId, v: RowId)
    requires WInv(cfg, w) && RunnerStep(cfg, w, w1, Apply(u)) && u != v && InMemory(w1.mem, u)
    requires s2.byUuid == w1.mem.byUuid - {u.uuid} || s2 == w1.mem
    ensures InMemory(s2, v) <==> InMemory(w.mem, v)
  {
    OthersInMemory(cfg, w, w1, u, v);
  }

  lemma OwnStays(cfg: Config, w: World, w1: World, s2: Sched, u: RowId)
    requires WInv(cfg, w) && RunnerStep(cfg, w, w1, Apply(u)) && u.uuid !in w.mem.byUuid && NotDone(w.unread[u].state)
    requires w.unread[u].state != Cancelled
    requires if M.Collectable(cfg, w1.mem, u.uuid) then s2.byUuid == w1.mem.byUuid - {u.uuid} else s2 == w1.mem
    ensures InMemory(w1.mem, u) && (InMemory(s2, u) <==> KeepsJob(w.unread[u].state))
    ensures s2.byUuid == w1.mem.byUuid - {u.uuid} || s2 == w1.mem
  {
    FirstNotified(cfg, w, w1, u);
  }

  lemma RowDone(cfg: Config, w: World, w1: World, w2: World, dbs: seq<nat>, i: nat, u: RowId)
    requires WInv(cfg, w) && Leads(cfg, w, w1) && Leads(cfg, w1, w2) && Passed(cfg, w, w1, u)
    requires Initialising(w, dbs, i) && u in w.unread && !Rival(w.mem, u)
    requires w2 == w1.(mem := w2.mem)
    requires if M.Collectable(cfg, w1.mem, u.uuid) then w2.mem.byUuid == w1.mem.byUuid - {u.uuid} else w2.mem == w1.mem
    ensures Leads(cfg, w, w2) && Initialising(w2, dbs, i)
  {
    LeadsFurther(cfg, w, w1, w2);
    RowInitialised(cfg, w, w1, w2, u);
    ProcessedWithoutClash(cfg, w, w2, dbs, i, u);
  }

  /** The memory after one more row was passed to `notify`. */
  lemma RowInitialised(cfg: Config, w: World, w1: World, w2: World, u: RowId)
    requires WInv(cfg, w) && RunnerStep(cfg, w, w1, Apply(u)) && SameTable(w, w1) && HoldsProcessed(w) && !Rival(w.mem, u)
    requires u in w.rows && u in w.unread && w.rows[u] == w.unread[u] && NotDone(w.rows[u].state)
    requires w2 == w1.(mem := w2.mem)
    requires if M.Collectable(cfg, w1.mem, u.uuid) then w2.mem.byUuid == w1.mem.byUuid - {u.uuid} else w2.mem == w1.mem
    ensures HoldsProcessed(w2)
  {
    assert u.uuid !in w.mem.byUuid by {
      assert !InMemory(w.mem, u);
    }
    OwnStays(cfg, w, w1, w2.mem, u);
    forall v | v != u ensures InMemory(w2.mem, v) <==> InMemory(w.mem, v) {
      OthersStay(cfg, w, w1, w2.mem, u, v);
    }
  }
}
