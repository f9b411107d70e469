/** What holds over every run of the job runner, whatever the network, the
  * timeouts, the workers and the restarts of the runner do.
  */
module RunTheorems {
  import opened ChannelJobs
  import opened Channels
  import opened SchedulerSteps
  import opened SchedulerRuns
  import opened JobSelection
  import opened RunProtocol
  import opened RunMemory
  import opened RunPlaces

  // ----------------------------------------------------------------- capacity

  /** The most jobs that may run in a channel of limited capacity. */
  function Limit(cfg: Config, c: nat): nat
    requires c < |cfg.capacity|
  {
    if cfg.capacity[c] < 0 then 0 else cfg.capacity[c]
  }

  /** The jobs of channel `c` and of the channels above it that the tables have as
    * enqueued or started. */
  ghost function BusyRows(cfg: Config, w: World, c: nat): set<RowId>
    requires ValidConfig(cfg) && c < |cfg.parent| && TableInv(cfg, w)
  {
    set u | u in w.rows && Busy(w.rows[u].state) && OnPath(cfg, w.specs[u].chan, c)
  }

  predicate RunsIn(s: Sched, c: nat, u: RowId) {
    InMemory(s, u) && Running(s, c, Object(s, u))
  }

  /** What the runner counts as occupying channel `c`. */
  ghost function RunningRows(w: World, c: nat): set<RowId> {
    set u | u in w.specs && RunsIn(w.mem, c, u)
  }

  /** Busy rows the runner has read but not yet taken into account. */
  ghost function UnreadBusy(cfg: Config, w: World, c: nat): set<RowId>
    requires ValidConfig(cfg) && c < |cfg.parent| && TableInv(cfg, w) && UnreadSound(w)
  {
    set u | u in w.unread && Busy(w.unread[u].state) && OnPath(cfg, w.specs[u].chan, c)
  }

  /** The jobs counted against the capacity of channel `c`. */
  ghost function Counted(cfg: Config, w: World, c: nat): set<RowId>
    requires ValidConfig(cfg) && c < |cfg.parent| && TableInv(cfg, w) && UnreadSound(w)
  {
    RunningRows(w, c) + UnreadBusy(cfg, w, c) + BusyRows(cfg, w, c)
  }

  /** All channels are within their limits. */
  ghost predicate WithinLimits(cfg: Config, w: World)
    requires WInv(cfg, w)
  {
    forall c: nat :: c < |cfg.parent| && cfg.capacity[c] != 0 ==>
      |Counted(cfg, w, c)| <= Limit(cfg, c)
  }

  lemma SubsetSize<T>(a: set<T>, b: set<T>)
    requires a <= b
    ensures |a| <= |b|
  {
    assert b == a + (b - a);
  }

  /** Every busy row of an open database is running in memory, or is being read. */
  lemma BusyRunsOrUnread(cfg: Config, w: World, c: nat, u: RowId)
    requires WInv(cfg, w) && c < |cfg.parent| && u in BusyRows(cfg, w, c) && u.db in w.open
    ensures u in RunningRows(w, c) || u in w.unread
  {
    if RunningInMemory(w.mem, u) {
      RunsInWholePath(cfg, w, c, u);
    }
  }

  lemma RunsInWholePath(cfg: Config, w: World, c: nat, u: RowId)
    requires WInv(cfg, w) && c < |cfg.parent| && u in w.specs && OnPath(cfg, w.specs[u].chan, c)
    requires RunningInMemory(w.mem, u)
    ensures RunsIn(w.mem, c, u)
  {
    RootMeansWholePath(cfg, w.mem, u);
    assert ObjectMatches(w, w.mem.byUuid[u.uuid], u.uuid);
    assert IdOf(Object(w.mem, u)) == u;
    assert RunsAt(cfg, Object(w.mem, u), RunningToRoot, c);
  }

  /** Different rows have different job objects. */
  lemma {:induction false} RowsAreFewer(us: set<RowId>, js: set<Job>, s: Sched)
    requires forall u :: u in us ==> InMemory(s, u) && Object(s, u) in js && IdOf(Object(s, u)) == u
    ensures |us| <= |js|
  {
    if us != {} {
      var u :| u in us;
      RowsAreFewer(us - {u}, js - {Object(s, u)}, s);
    }
  }

  lemma RunningAreFewer(cfg: Config, w: World, c: nat)
    requires WInv(cfg, w) && c < |cfg.parent|
    ensures |RunningRows(w, c)| <= |w.mem.chans[c].running|
  {
    forall u | u in RunningRows(w, c) ensures IdOf(Object(w.mem, u)) == u {
      assert ObjectMatches(w, w.mem.byUuid[u.uuid], u.uuid);
    }
    RowsAreFewer(RunningRows(w, c), w.mem.chans[c].running, w.mem);
  }

  /** While the runner is up and has nothing unread, it counts what runs in memory. */
  lemma CountedWhenRead(cfg: Config, w: World, c: nat)
    requires WInv(cfg, w) && c < |cfg.parent| && w.up && w.unread == map[]
    ensures Counted(cfg, w, c) == RunningRows(w, c)
  {
    forall u | u in BusyRows(cfg, w, c) ensures u in RunningRows(w, c) {
      BusyRunsOrUnread(cfg, w, c, u);
    }
  }

  lemma LaunchOfOwn(cfg: Config, w: World, w': World, step: Step, c: nat)
    requires WInv(cfg, w) && WInv(cfg, w') && NextWorld(cfg, w, w', Schedule(step))
    requires step.Launch? && step.c == c && c < |cfg.parent| && cfg.capacity[c] != 0
    ensures |Counted(cfg, w', c)| <= Limit(cfg, c)
  {
    LaunchRespectsCapacity(cfg, w.mem, w'.mem, step, c);
    CountedWhenRead(cfg, w', c);
    RunningAreFewer(cfg, w', c);
  }

  lemma LaunchElsewhere(cfg: Config, w: World, w': World, step: Step, c: nat)
    requires WInv(cfg, w) && WInv(cfg, w') && NextWorld(cfg, w, w', Schedule(step))
    requires step.Launch? && step.c != c && c < |cfg.parent|
    ensures Counted(cfg, w', c) <= Counted(cfg, w, c)
  {
    LaunchLeavesRunning(cfg, w.mem, w'.mem, step, c);
    LaunchedInMemory(cfg, w.mem, w'.mem, step.c, step.now, step.job);
  }

  /** The jobs running in other channels stay the same. */
  lemma LaunchLeavesRunning(cfg: Config, s: Sched, s': Sched, step: Step, c: nat)
    requires Inv(cfg, s) && Next(cfg, s, s', step) && step.Launch? && c < |cfg.parent| && c != step.c
    ensures |s'.chans| == |s.chans| && s'.chans[c].running == s.chans[c].running
  {
  }

  /** Steps that move no job count no more jobs. */
  lemma ShrinkingCount(cfg: Config, w: World, w': World, step: Step, c: nat)
    requires WInv(cfg, w) && WInv(cfg, w') && SameTable(w, w') && w'.unread == w.unread && c < |cfg.parent|
    requires Next(cfg, w.mem, w'.mem, step) && !step.Notified? && !step.Removed? && !step.Launch?
    ensures Counted(cfg, w', c) <= Counted(cfg, w, c)
  {
    forall u | u in RunningRows(w', c) ensures u in RunningRows(w, c) {
      NothingStartsRunning(cfg, w.mem, w'.mem, step, c, u);
    }
  }

  lemma NothingStartsRunning(cfg: Config, s: Sched, s': Sched, step: Step, c: nat, u: RowId)
    requires Inv(cfg, s) && Next(cfg, s, s', step) && !step.Notified? && !step.Removed? && !step.Launch?
    ensures RunsIn(s', c, u) ==> RunsIn(s, c, u)
  {
    UnmovedInMemory(cfg, s, s', step, TimeOf(step));
    if InMemory(s', u) {
      assert SameMembership(s, s', Object(s', u));
    }
  }

  lemma ApplyCount(cfg: Config, w: World, w': World, u: RowId, c: nat)
    requires WInv(cfg, w) && WInv(cfg, w') && NextWorld(cfg, w, w', Apply(u)) && c < |cfg.parent|
    ensures Counted(cfg, w', c) <= Counted(cfg, w, c)
  {
    AppliedInMemory(cfg, w, w', u);
    forall v | v in RunningRows(w', c) ensures v in RunningRows(w, c) || v in UnreadBusy(cfg, w, c) {
      if v != u {
        OthersUnmoved(cfg, w, w', u, v);
      }
    }
  }

  lemma FewerCounted(cfg: Config, w: World, w': World, c: nat)
    requires ValidConfig(cfg) && c < |cfg.parent| && TableInv(cfg, w) && TableInv(cfg, w') && UnreadSound(w) && UnreadSound(w')
    requires SameTable(w, w') && RunningRows(w', c) <= RunningRows(w, c)
    requires forall u :: u in w'.unread ==> u in w.rows && w'.unread[u] == w.rows[u]
    ensures Counted(cfg, w', c) <= Counted(cfg, w, c)
  {
  }

  /** Selecting rows, the end of the initialisation, and failures. */
  lemma SelectingCount(cfg: Config, w: World, w': World, e: Event, c: nat)
    requires WInv(cfg, w) && WInv(cfg, w') && NextWorld(cfg, w, w', e) && c < |cfg.parent|
    requires e.ReadRows? || e.Open? || e.Ready? || e.Crash?
    ensures Counted(cfg, w', c) <= Counted(cfg, w, c)
  {
    RunnerEventsLeaveTable(cfg, w, w', e);
    SelectedAreRows(cfg, w, w', e);
    FewerCounted(cfg, w, w', c);
  }

  lemma SelectedAreRows(cfg: Config, w: World, w': World, e: Event)
    requires Inv(cfg, w.mem) && RunnerStep(cfg, w, w', e) && SameTable(w, w')
    requires e.ReadRows? || e.Open? || e.Ready? || e.Crash?
    ensures forall u :: u in w'.unread ==> u in w.rows && w'.unread[u] == w.rows[u]
    ensures forall c :: RunningRows(w', c) <= RunningRows(w, c)
  {
  }

  lemma SendCount(cfg: Config, w: World, w': World, c: nat)
    requires WInv(cfg, w) && WInv(cfg, w') && NextWorld(cfg, w, w', Send) && c < |cfg.parent|
    ensures Counted(cfg, w', c) <= Counted(cfg, w, c)
  {
    SendLeaves(cfg, w, w');
    var u := w.sending.value;
    if OnPath(cfg, w.specs[u].chan, c) {
      RunsInWholePath(cfg, w, c, u);
    }
    SentCounted(cfg, w, w', c, u);
  }

  lemma SentCounted(cfg: Config, w: World, w': World, c: nat, u: RowId)
    requires ValidConfig(cfg) && c < |cfg.parent| && TableInv(cfg, w) && TableInv(cfg, w') && UnreadSound(w) && UnreadSound(w')
    requires u in w.rows && RowSet(w, w', u, w.rows[u].(state := Enqueued)) && w'.mem == w.mem && w'.unread == w.unread
    requires OnPath(cfg, w.specs[u].chan, c) ==> RunsIn(w.mem, c, u)
    ensures Counted(cfg, w', c) <= Counted(cfg, w, c)
  {
  }

  lemma NothingNewBusy(cfg: Config, w: World, w': World, e: Event, u: RowId)
    requires WInv(cfg, w) && NextWorld(cfg, w, w', e) && !e.Send? && u in w'.rows && Busy(w'.rows[u].state)
    ensures u in w.rows && Busy(w.rows[u].state)
  {
    if u in w.rows {
      OnlySendMakesBusy(cfg, w, w', e, u);
    } else {
      RowsAppear(cfg, w, w', e, u);
    }
  }

  lemma TableEventsCount(cfg: Config, w: World, w': World, e: Event, c: nat)
    requires WInv(cfg, w) && WInv(cfg, w') && NextWorld(cfg, w, w', e) && SameRunner(w, w') && !e.Send?
    requires c < |cfg.parent|
    ensures Counted(cfg, w', c) <= Counted(cfg, w, c)
  {
    forall u | u in Counted(cfg, w', c) ensures u in Counted(cfg, w, c) {
      if u in w.specs {
        SpecsStay(cfg, w, w', e, u);
      }
      if u in BusyRows(cfg, w', c) {
        NothingNewBusy(cfg, w, w', e, u);
      } else if u in RunningRows(w', c) {
        MemoryIsKnown(w, u);
      }
    }
  }

  lemma TickCount(cfg: Config, w: World, w': World, c: nat)
    requires ValidConfig(cfg) && c < |cfg.parent| && TableInv(cfg, w) && TableInv(cfg, w') && UnreadSound(w) && UnreadSound(w')
    requires SameTable(w, w') && w'.mem == w.mem && w'.unread == w.unread
    ensures Counted(cfg, w', c) == Counted(cfg, w, c)
  {
  }

  lemma TickLeaves(cfg: Config, w: World, w': World, now: int)
    requires Inv(cfg, w.mem) && RunnerStep(cfg, w, w', Tick(now))
    ensures w'.mem == w.mem && w'.unread == w.unread
  {
  }

  lemma MovingCount(cfg: Config, w: World, w': World, e: Event, c: nat)
    requires WInv(cfg, w) && WInv(cfg, w') && NextWorld(cfg, w, w', e)
    requires e.Apply? || e.Collect? || e.Tick? || (e.Schedule? && !e.step.Launch?)
    requires c < |cfg.parent|
    ensures Counted(cfg, w', c) <= Counted(cfg, w, c)
  {
    if e.Apply? {
      ApplyCount(cfg, w, w', e.u, c);
    } else if e.Tick? {
      RunnerEventsLeaveTable(cfg, w, w', e);
      TickLeaves(cfg, w, w', e.now);
      TickCount(cfg, w, w', c);
    } else {
      ShrinkingCount(cfg, w, w', if e.Schedule? then e.step else Forget(e.uuid), c);
    }
  }

  /** The count of channel `c` after a step other than a launch does not grow. */
  lemma CountDoesNotGrow(cfg: Config, w: World, w': World, e: Event, c: nat)
    requires WInv(cfg, w) && WInv(cfg, w') && NextWorld(cfg, w, w', e)
    requires !(e.Schedule? && e.step.Launch?) && c < |cfg.parent|
    ensures Counted(cfg, w', c) <= Counted(cfg, w, c)
  {
    if !ConcernsRunner(e) {
      OtherEventsLeaveRunner(cfg, w, w', e);
      TableEventsCount(cfg, w, w', e, c);
    } else if e.Send? {
      SendCount(cfg, w, w', c);
    } else if e.Apply? || e.Collect? || e.Schedule? || e.Tick? {
      MovingCount(cfg, w, w', e, c);
    } else {
      SelectingCount(cfg, w, w', e, c);
    }
  }

  lemma LimitsKept(cfg: Config, w: World, w': World, e: Event)
    requires WInv(cfg, w) && WInv(cfg, w') && NextWorld(cfg, w, w', e) && WithinLimits(cfg, w)
    ensures WithinLimits(cfg, w')
  {
    forall c: nat | c < |cfg.parent| && cfg.capacity[c] != 0
      ensures |Counted(cfg, w', c)| <= Limit(cfg, c)
    {
      if e.Schedule? && e.step.Launch? && e.step.c == c {
        LaunchOfOwn(cfg, w, w', e.step, c);
      } else {
        if e.Schedule? && e.step.Launch? {
          LaunchElsewhere(cfg, w, w', e.step, c);
        } else {
          CountDoesNotGrow(cfg, w, w', e, c);
        }
        SubsetSize(Counted(cfg, w', c), Counted(cfg, w, c));
      }
    }
  }

  // --------------------------------------------------------------------- runs

  /** One event leads from `w` to `w'`. `NextWorld` is stated for worlds that meet the
    * invariants; every world of a run that starts in one does (`RunKeepsInv`). */
  ghost predicate Follows(cfg: Config, w: World, w': World, e: Event) {
    WInv(cfg, w) ==> NextWorld(cfg, w, w', e)
  }

  /** A run: consecutive worlds joined by events. */
  ghost predicate Run(cfg: Config, ws: seq<World>, es: seq<Event>) {
    && |ws| == |es| + 1
    && forall i {:trigger es[i]} :: 0 <= i < |es| ==> Follows(cfg, ws[i], ws[i+1], es[i])
  }

  /** The initial world: an empty table and a runner that has not started. */
  function InitialWorld(cfg: Config): World {
    World(map[], map[], EmptySched(cfg), {}, false, {}, map[], None, map[], {}, 0, 0)
  }

  lemma InitialWorldOk(cfg: Config)
    requires ValidConfig(cfg)
    ensures WInv(cfg, InitialWorld(cfg)) && WithinLimits(cfg, InitialWorld(cfg))
  {
    EmptyInv(cfg);
    var w := InitialWorld(cfg);
    forall c: nat | c < |cfg.parent| ensures BusyRows(cfg, w, c) == {} {
    }
  }

  lemma FollowsKeepsInv(cfg: Config, w: World, w': World, e: Event)
    requires WInv(cfg, w) && Follows(cfg, w, w', e)
    ensures WInv(cfg, w') && (WithinLimits(cfg, w) ==> WithinLimits(cfg, w'))
  {
    NextWorldKeepsInv(cfg, w, w', e);
    if WithinLimits(cfg, w) {
      LimitsKept(cfg, w, w', e);
    }
  }

  /** What holds at first and carries over from each element to the next holds always. */
  lemma {:induction false} KeptAlong<W(!new)>(good: W -> bool, ws: seq<W>, n: nat)
    requires n < |ws| && good(ws[0])
    requires forall i {:trigger good(ws[i])} :: 0 < i < |ws| && good(ws[i - 1]) ==> good(ws[i])
    ensures good(ws[n])
  {
    if n > 0 {
      KeptAlong(good, ws, n - 1);
      assert good(ws[n - 1]);
    }
  }

  lemma RunKeepsInv(cfg: Config, ws: seq<World>, es: seq<Event>, n: nat)
    requires Run(cfg, ws, es) && n < |ws| && WInv(cfg, ws[0])
    ensures WInv(cfg, ws[n])
    ensures WithinLimits(cfg, ws[0]) ==> WithinLimits(cfg, ws[n])
  {
    var within := WithinLimits(cfg, ws[0]);
    var good := w => WInv(cfg, w) && (within ==> WithinLimits(cfg, w));
    forall i | 0 < i < |ws| && good(ws[i - 1]) ensures good(ws[i]) {
      assert Follows(cfg, ws[i - 1], ws[i - 1 + 1], es[i - 1]);
      FollowsKeepsInv(cfg, ws[i - 1], ws[i], es[i - 1]);
    }
    KeptAlong(good, ws, n);
  }

  /** End-to-end capacity: over every run that starts within the limits, the jobs
    * that the table has as enqueued or started (so a fortiori the jobs that
    * workers execute) never exceed the capacity of any channel on their paths. */
  lemma CapacityNeverExceeded(cfg: Config, ws: seq<World>, es: seq<Event>, n: nat, c: nat)
    requires Run(cfg, ws, es) && n < |ws| && WInv(cfg, ws[0]) && WithinLimits(cfg, ws[0])
    requires c < |cfg.parent| && cfg.capacity[c] != 0
    ensures TableInv(cfg, ws[n]) && |BusyRows(cfg, ws[n], c)| <= Limit(cfg, c)
    ensures forall k :: k in ws[n].workers && ws[n].workers[k].Performing? && ws[n].workers[k].u in ws[n].specs
              && OnPath(cfg, ws[n].specs[ws[n].workers[k].u].chan, c)
              ==> ws[n].workers[k].u in BusyRows(cfg, ws[n], c)
  {
    RunKeepsInv(cfg, ws, es, n);
    SubsetSize(BusyRows(cfg, ws[n], c), Counted(cfg, ws[n], c));
  }

  /** Whatever the table of an open database has as enqueued or started, and whose
    * row the runner is not just reading, runs in memory in every channel of its path. */
  lemma BusyRunsInWholePath(cfg: Config, ws: seq<World>, es: seq<Event>, n: nat, u: RowId, c: nat)
    requires Run(cfg, ws, es) && n < |ws| && WInv(cfg, ws[0])
    requires u.db in ws[n].open && u !in ws[n].unread && u in ws[n].rows && Busy(ws[n].rows[u].state)
    requires u in ws[n].specs && ws[n].specs[u].chan < |cfg.parent| && OnPath(cfg, ws[n].specs[u].chan, c)
    ensures RunsIn(ws[n].mem, c, u)
  {
    RunKeepsInv(cfg, ws, es, n);
    PathGoesDown(cfg, ws[n].specs[u].chan, c);
    BusyRunsOrUnread(cfg, ws[n], c, u);
  }

  // --------------------------------------------------------- mutual exclusion

  /** Over every run, a job has at most one worker inside `perform`, and none
    * while its row is anything but started. */
  lemma MutualExclusion(cfg: Config, ws: seq<World>, es: seq<Event>, n: nat, k: nat, l: nat)
    requires Run(cfg, ws, es) && n < |ws| && WInv(cfg, ws[0])
    requires k in ws[n].workers && ws[n].workers[k].Performing?
    ensures ws[n].workers[k].u in ws[n].rows && ws[n].rows[ws[n].workers[k].u].state == Started
    ensures l in ws[n].workers && ws[n].workers[l].Performing? && ws[n].workers[l].u == ws[n].workers[k].u ==> l == k
  {
    RunKeepsInv(cfg, ws, es, n);
  }

  /** The coupling behind it: a job still queued in some channel is pending. */
  lemma QueuedMeansPending(cfg: Config, ws: seq<World>, es: seq<Event>, n: nat, c: nat, u: RowId)
    requires Run(cfg, ws, es) && n < |ws| && WInv(cfg, ws[0])
    requires QueuedInMemory(ws[n].mem, c, u)
    ensures u in ws[n].rows && ws[n].rows[u].state == Pending
  {
    RunKeepsInv(cfg, ws, es, n);
  }

  // ---------------------------------------------------- the assertions of notify

  /** A selected row, however long ago it was read, meets the assertions of `notify` if
    * and only if no job with its uuid but of another database is in memory. */
  lemma NotifyAssertionsExact(cfg: Config, ws: seq<World>, es: seq<Event>, n: nat, u: RowId)
    requires Run(cfg, ws, es) && n < |ws| && WInv(cfg, ws[0]) && u in ws[n].unread
    ensures u in ws[n].specs
    ensures NotifyAllowed(cfg, ws[n].mem, u.uuid, u.db, ws[n].specs[u].chan, ws[n].specs[u].key)
      <==> forall v :: InMemory(ws[n].mem, v) && v.uuid == u.uuid ==> v == u
  {
    RunKeepsInv(cfg, ws, es, n);
    MemoryMeetsAssertions(cfg, ws[n], u);
  }

  lemma MemoryMeetsAssertions(cfg: Config, w: World, u: RowId)
    requires TableInv(cfg, w) && MemMatches(w) && u in w.specs
    ensures NotifyAllowed(cfg, w.mem, u.uuid, u.db, w.specs[u].chan, w.specs[u].key)
      <==> forall v :: InMemory(w.mem, v) && v.uuid == u.uuid ==> v == u
  {
    if u.uuid in w.mem.byUuid {
      var j := w.mem.byUuid[u.uuid];
      assert ObjectMatches(w, j, u.uuid) && InMemory(w.mem, RowId(j.db, u.uuid));
    }
  }

  /** So they always hold when no uuid is stored in two databases. */
  lemma NotifyAssertionsHold(cfg: Config, ws: seq<World>, es: seq<Event>, n: nat, u: RowId)
    requires Run(cfg, ws, es) && n < |ws| && WInv(cfg, ws[0]) && u in ws[n].unread
    requires forall v :: v in ws[n].specs && v.uuid == u.uuid ==> v == u
    ensures u in ws[n].specs
    ensures NotifyAllowed(cfg, ws[n].mem, u.uuid, u.db, ws[n].specs[u].chan, ws[n].specs[u].key)
  {
    RunKeepsInv(cfg, ws, es, n);
    NotifyAssertionsExact(cfg, ws, es, n, u);
    forall v | InMemory(ws[n].mem, v) && v.uuid == u.uuid ensures v == u {
      MemoryIsKnown(ws[n], v);
    }
  }

  // --------------------------------------------------------- no job is forgotten

  /** Over every run, a row of an open database about which nothing is on its way (no
    * notification, no selected row, no request about to be sent) has its job exactly
    * where its state says: pending ones queued, busy ones running down to the root,
    * failed ones failed, all others in no channel. */
  lemma NoJobForgotten(cfg: Config, ws: seq<World>, es: seq<Event>, n: nat, u: RowId)
    requires Run(cfg, ws, es) && n < |ws| && WInv(cfg, ws[0]) && Settled(ws[n], u)
    ensures InPlace(cfg, ws[n].mem, u, ws[n].rows[u], ws[n].latest)
  {
    RunKeepsInv(cfg, ws, es, n);
  }

  /** Channel `c` gives nothing at time `now` although a job is queued in it: it runs as
    * many jobs as its capacity, or it is sequential and has a failed job, or it pauses, or
    * it is sequential and a waiting job holds its ready ones back. */
  ghost predicate Stuck(cfg: Config, s: Sched, c: nat, now: int)
    requires Inv(cfg, s) && c < |cfg.parent|
  {
    assert ChanHeapsSound(s, c);
    || (cfg.capacity[c] != 0 && |s.chans[c].running| >= cfg.capacity[c])
    || (cfg.sequential[c] && s.chans[c].failed != {})
    || s.chans[c].pause > now
    || (cfg.sequential[c] && HeldBack(s.chans[c].ready, s.chans[c].waiting, JobKey, s.eta))
  }

  /** After `get_jobs_to_run(now)` was consumed, a pending row whose eta has come and
    * about which nothing is on its way waits in a channel of its path that is stuck:
    * no such job is overlooked. */
  lemma PendingJobsWaitForAReason(cfg: Config, ws: seq<World>, es: seq<Event>, n: nat, u: RowId, now: int) returns (c: nat)
    requires Run(cfg, ws, es) && n < |ws| && WInv(cfg, ws[0]) && WInv(cfg, ws[n])
    requires forall d: nat :: d < |cfg.parent| ==> Exhausted(cfg, ws[n].mem, d, now)
    requires Settled(ws[n], u) && ws[n].rows[u].state == Pending && ws[n].rows[u].eta <= now
    ensures c < |cfg.parent| && QueuedInMemory(ws[n].mem, c, u) && u in ws[n].specs && OnPath(cfg, ws[n].specs[u].chan, c)
    ensures Stuck(cfg, ws[n].mem, c, now)
  {
    NoJobForgotten(cfg, ws, es, n, u);
    c := PendingIsStuck(cfg, ws[n], u, now);
  }

  lemma PendingIsStuck(cfg: Config, w: World, u: RowId, now: int) returns (c: nat)
    requires WInv(cfg, w) && u in w.rows && Waits(cfg, w.mem, u, w.rows[u].eta, w.latest) && w.rows[u].eta <= now
    requires forall d: nat :: d < |cfg.parent| ==> Exhausted(cfg, w.mem, d, now)
    ensures c < |cfg.parent| && QueuedInMemory(w.mem, c, u) && u in w.specs && OnPath(cfg, w.specs[u].chan, c)
    ensures Stuck(cfg, w.mem, c, now)
  {
    var j := Object(w.mem, u);
    c :| PlacedAt(cfg, w.mem, u, QueuedIn(c));
    PathGoesDown(cfg, j.chan, c);
    PlaceSays(cfg, w.mem, u, QueuedIn(c));
    assert ObjectMatches(w, j, u.uuid) && IdOf(j) == u;
    assert ChanHeapsSound(w.mem, c) && Exhausted(cfg, w.mem, c, now);
    assert j in w.mem.chans[c].waiting ==> Eta(w.mem, j) != 0;
  }

  // ------------------------------------------------------------ what never starts

  /** Over every run, a sequential channel starts no job while a job of its own has failed:
    * while a settled row of the channel is failed, no job is launched from it. */
  lemma FailedRowBlocksChannel(cfg: Config, ws: seq<World>, es: seq<Event>, n: nat, u: RowId)
    requires Run(cfg, ws, es) && n < |es| && WInv(cfg, ws[0]) && es[n].Schedule? && es[n].step.Launch?
    requires Settled(ws[n], u) && ws[n].rows[u].state == JobState.Failed
    requires u in ws[n].specs && ws[n].specs[u].chan == es[n].step.c && es[n].step.c < |cfg.sequential|
    ensures !cfg.sequential[es[n].step.c]
  {
    NoJobForgotten(cfg, ws, es, n, u);
    RunKeepsInv(cfg, ws, es, n);
    assert Follows(cfg, ws[n], ws[n + 1], es[n]);
    LaunchNeedsOpenChannel(cfg, ws[n].mem, ws[n + 1].mem, es[n].step);
    FailedIsInChannel(cfg, ws[n], u);
  }

  lemma FailedIsInChannel(cfg: Config, w: World, u: RowId)
    requires WInv(cfg, w) && u in w.specs && PlacedAt(cfg, w.mem, u, InFailed)
    ensures w.specs[u].chan < |w.mem.chans| && w.mem.chans[w.specs[u].chan].failed != {}
  {
    var j := Object(w.mem, u);
    assert ObjectMatches(w, j, u.uuid) && IdOf(j) == u;
    assert HasFailed(w.mem, j.chan, j);
  }

  /** The clock never goes back. */
  ghost predicate ClockGoesOn(w: World, es: seq<Event>) {
    && (forall i :: 0 <= i < |es| && es[i].Tick? ==> es[i].now >= w.latest)
    && forall i, k :: 0 <= i < k < |es| && es[i].Tick? && es[k].Tick? ==> es[i].now <= es[k].now
  }

  /** How an event changes what is known of the clock. */
  predicate Clocked(w: World, w': World, e: Event) {
    if e.Tick? then w'.clock == e.now && w'.latest == (if e.now > w.latest then e.now else w.latest) else SameClock(w, w')
  }

  lemma FollowsClocked(cfg: Config, w: World, w': World, e: Event)
    requires WInv(cfg, w) && Follows(cfg, w, w', e)
    ensures Clocked(w, w', e)
  {
  }

  lemma RunIsClocked(cfg: Config, ws: seq<World>, es: seq<Event>, i: nat)
    requires Run(cfg, ws, es) && i < |es| && WInv(cfg, ws[0])
    ensures Clocked(ws[i], ws[i + 1], es[i])
  {
    RunKeepsInv(cfg, ws, es, i);
    assert Follows(cfg, ws[i], ws[i + 1], es[i]);
    FollowsClocked(cfg, ws[i], ws[i + 1], es[i]);
  }

  lemma {:induction false} ClockAlong(ws: seq<World>, es: seq<Event>, n: nat)
    requires |ws| == |es| + 1 && n < |ws| && ClockGoesOn(ws[0], es) && ws[0].clock == ws[0].latest
    requires forall i {:trigger es[i]} :: 0 <= i < |es| ==> Clocked(ws[i], ws[i + 1], es[i])
    ensures ws[n].clock == ws[n].latest
    ensures forall k :: n <= k < |es| && es[k].Tick? ==> ws[n].latest <= es[k].now
  {
    if n > 0 {
      ClockAlong(ws, es, n - 1);
      assert Clocked(ws[n - 1], ws[n - 1 + 1], es[n - 1]);
    }
  }

  /** While the clock goes on, its last reading is the latest one. */
  lemma ClockIsLatest(cfg: Config, ws: seq<World>, es: seq<Event>, n: nat)
    requires Run(cfg, ws, es) && n < |ws| && WInv(cfg, ws[0]) && ClockGoesOn(ws[0], es) && ws[0].clock == ws[0].latest
    ensures ws[n].clock == ws[n].latest
  {
    forall i | 0 <= i < |es| ensures Clocked(ws[i], ws[i + 1], es[i]) {
      RunIsClocked(cfg, ws, es, i);
    }
    ClockAlong(ws, es, n);
  }

  /** No job is started before its eta: over every run in which the clock never goes back,
    * when a job is launched from a channel at time `now`, its row is pending and has no
    * eta or one that has come. */
  lemma NotStartedBeforeEta(cfg: Config, ws: seq<World>, es: seq<Event>, n: nat, u: RowId)
    requires Run(cfg, ws, es) && n < |es| && WInv(cfg, ws[0]) && ClockGoesOn(ws[0], es) && ws[0].clock == ws[0].latest
    requires es[n].Schedule? && es[n].step.Launch? && u == IdOf(es[n].step.job)
    ensures u in ws[n].rows && ws[n].rows[u].state == Pending
    ensures ws[n].rows[u].eta == 0 || ws[n].rows[u].eta <= es[n].step.now
  {
    ClockIsLatest(cfg, ws, es, n);
    RunKeepsInv(cfg, ws, es, n);
    assert Follows(cfg, ws[n], ws[n + 1], es[n]);
    LaunchedIsDue(cfg, ws[n], ws[n + 1], es[n].step, u);
  }

  /** Whatever the clock does, the eta is not beyond the latest time ever read. */
  lemma LaunchedIsDue(cfg: Config, w: World, w': World, step: Step, u: RowId)
    requires WInv(cfg, w) && NextWorld(cfg, w, w', Schedule(step)) && step.Launch? && u == IdOf(step.job)
    ensures u in w.rows && w.rows[u].state == Pending && step.now == w.clock
    ensures w.rows[u].eta == 0 || w.rows[u].eta <= w.latest
  {
    LaunchedInMemory(cfg, w.mem, w'.mem, step.c, step.now, step.job);
    PlaceSays(cfg, w.mem, u, QueuedIn(step.c));
    LaunchedEta(cfg, w.mem, w'.mem, step);
  }

  /** A launched job had no eta any more, or it was due. */
  lemma LaunchedEta(cfg: Config, s: Sched, s': Sched, step: Step)
    requires Inv(cfg, s) && Next(cfg, s, s', step) && step.Launch?
    ensures Eta(s, step.job) == 0 || Eta(s, step.job) <= step.now
  {
    assert ChanHeapsSound(s, step.c);
  }

  // ------------------------------------------------------------- dependencies

  /** No job is enqueued, started, done or failed before all its parents are done. */
  lemma DependencySafety(cfg: Config, ws: seq<World>, es: seq<Event>, n: nat, u: RowId, p: RowId)
    requires Run(cfg, ws, es) && n < |ws| && WInv(cfg, ws[0])
    requires u in ws[n].rows && u in ws[n].specs && ws[n].rows[u].state != WaitDependencies
    requires p in ws[n].specs[u].parents
    ensures p in ws[n].rows && ws[n].rows[p].state == Done
  {
    RunKeepsInv(cfg, ws, es, n);
    assert ParentsDone(ws[n], u);
  }

  /** No lost wake-up: when all parents of a waiting job are done, one of them still
    * has a worker that owes the wake-up, unless a worker gave up. */
  lemma NoLostWakeUp(cfg: Config, ws: seq<World>, es: seq<Event>, n: nat, u: RowId)
    requires Run(cfg, ws, es) && n < |ws| && WInv(cfg, ws[0])
    requires u in ws[n].rows && u in ws[n].specs && ws[n].rows[u].state == WaitDependencies
    requires ParentsDone(ws[n], u)
    ensures exists p :: p in ws[n].specs[u].parents && Owed(ws[n], p)
  {
    RunKeepsInv(cfg, ws, es, n);
  }

  /** Nothing is left to do for the runner and the workers, and nothing failed. */
  ghost predicate Quiet(w: World) {
    && (forall u :: u in w.rows ==> w.rows[u].state == Done || w.rows[u].state == WaitDependencies)
    && (forall k :: k in w.workers ==> !w.workers[k].Owing?)
    && w.abandoned == {}
  }

  lemma {:induction false} QuietJobDone(cfg: Config, w: World, rank: map<RowId, nat>, u: RowId)
    requires WInv(cfg, w) && Quiet(w) && u in w.rows && w.specs.Keys <= rank.Keys
    requires forall v, p :: v in w.specs && p in w.specs[v].parents && p in rank ==> rank[p] < rank[v]
    ensures w.rows[u].state == Done
    decreases rank[u]
  {
    if w.rows[u].state == WaitDependencies {
      var p :| p in w.specs[u].parents && p in w.rows && (w.rows[p].state != Done || Owed(w, p));
      QuietJobDone(cfg, w, rank, p);
    }
  }

  /** Completion: on acyclic dependencies, once nothing is pending, enqueued,
    * started, failed, owed or abandoned, every job is done: none is left waiting. */
  lemma QuietMeansAllDone(cfg: Config, ws: seq<World>, es: seq<Event>, n: nat, rank: map<RowId, nat>)
    requires Run(cfg, ws, es) && n < |ws| && WInv(cfg, ws[0]) && Quiet(ws[n])
    requires ws[n].specs.Keys <= rank.Keys
    requires forall v, p :: v in ws[n].specs && p in ws[n].specs[v].parents && p in rank ==> rank[p] < rank[v]
    ensures forall u :: u in ws[n].rows ==> ws[n].rows[u].state == Done
  {
    RunKeepsInv(cfg, ws, es, n);
    forall u | u in ws[n].rows ensures ws[n].rows[u].state == Done {
      QuietJobDone(cfg, ws[n], rank, u);
    }
  }
}
