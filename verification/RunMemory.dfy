/** The memory of the runner over the steps of the run protocol: where each step
  * leaves the job of each row, and that every step keeps all invariants.
  */
module RunMemory {
  import opened ChannelJobs
  import opened Channels
  import opened SchedulerSteps
  import opened SchedulerRuns
  import opened RunProtocol

  // ------------------------------------------- the job of one row, before and after

  /** A job keeps its eta, or loses it once it has come by time `t`. */
  predicate EtaKept(s: Sched, s': Sched, j: Job, t: int) {
    Eta(s', j) == Eta(s, j) || (Eta(s', j) == 0 && Eta(s, j) <= t)
  }

  /** The job of row `v` is the same object in the same channels. */
  ghost predicate Unmoved(s: Sched, s': Sched, v: RowId, t: int) {
    && (InMemory(s', v) <==> InMemory(s, v))
    && (InMemory(s, v) ==>
          && Object(s', v) == Object(s, v) && SameMembership(s, s', Object(s, v))
          && EtaKept(s, s', Object(s, v), t))
  }

  /** An object that was in no channel is gone. */
  ghost predicate Forgotten(cfg: Config, s: Sched, s': Sched, v: RowId)
    requires ValidConfig(cfg)
  {
    PlacedAt(cfg, s, v, Nowhere) && !InMemory(s', v)
  }

  /** The launched job went one channel on. */
  ghost predicate Advanced(cfg: Config, s: Sched, s': Sched, step: Step, v: RowId, t: int)
    requires ValidConfig(cfg)
  {
    && step.Launch? && v == IdOf(step.job) && step.c < |cfg.parent|
    && PlacedAt(cfg, s, v, QueuedIn(step.c))
    && PlacedAt(cfg, s', v, if step.c == 0 then RunningToRoot else QueuedIn(cfg.parent[step.c]))
    && Object(s', v) == Object(s, v)
    && EtaKept(s, s', Object(s, v), t)
  }

  lemma UnmovedStays(cfg: Config, s: Sched, s': Sched, v: RowId, r: Row, t: int)
    requires ValidConfig(cfg) && Unmoved(s, s', v, t)
    ensures InPlace(cfg, s, v, r, t) ==> InPlace(cfg, s', v, r, t)
    ensures NowhereInMemory(cfg, s, v) ==> NowhereInMemory(cfg, s', v)
    ensures RunningInMemory(s', v) <==> RunningInMemory(s, v)
    ensures forall c :: QueuedInMemory(s', c, v) <==> QueuedInMemory(s, c, v)
  {
    if InMemory(s, v) {
      forall p | At(cfg, s, Object(s, v), p) ensures At(cfg, s', Object(s, v), p) {
        SameMembershipSamePlace(cfg, s, s', Object(s, v), p);
      }
    }
  }

  lemma UnmovedSays(s: Sched, s': Sched, v: RowId, t: int)
    requires Unmoved(s, s', v, t)
    ensures RunningInMemory(s', v) <==> RunningInMemory(s, v)
    ensures forall c :: QueuedInMemory(s', c, v) <==> QueuedInMemory(s, c, v)
  {
  }

  ghost predicate QueuedSomewhere(s: Sched, u: RowId) { exists c :: QueuedInMemory(s, c, u) }

  /** A place says whether the job runs in the root channel and where it is queued. */
  lemma PlaceSays(cfg: Config, s: Sched, u: RowId, p: Place)
    requires Inv(cfg, s) && PlacedAt(cfg, s, u, p)
    ensures RunningInMemory(s, u) <==> p == RunningToRoot
    ensures forall c :: QueuedInMemory(s, c, u) ==> p == QueuedIn(c)
    ensures p.QueuedIn? ==> QueuedInMemory(s, p.c, u)
  {
    RootPlace(cfg, s, Object(s, u), p);
    if p.QueuedIn? {
      PathGoesDown(cfg, Object(s, u).chan, p.c);
    }
  }

  lemma PlacedOnce(cfg: Config, s: Sched, u: RowId, p: Place, q: Place)
    requires Inv(cfg, s) && PlacedAt(cfg, s, u, p) && PlacedAt(cfg, s, u, q)
    ensures p == q
  {
    PlaceUnique(cfg, s, Object(s, u), p, q);
  }

  lemma HasPlace(cfg: Config, s: Sched, u: RowId) returns (p: Place)
    requires Inv(cfg, s) && InMemory(s, u)
    ensures PlacedAt(cfg, s, u, p)
  {
    assert Current(s, Object(s, u));
    p :| At(cfg, s, Object(s, u), p);
  }

  /** Running in the root channel means running in the whole path, queued nowhere. */
  lemma RootMeansWholePath(cfg: Config, s: Sched, u: RowId)
    requires Inv(cfg, s) && RunningInMemory(s, u)
    ensures PlacedAt(cfg, s, u, RunningToRoot)
    ensures forall c :: !QueuedInMemory(s, c, u)
  {
    var p := HasPlace(cfg, s, u);
    PlaceSays(cfg, s, u, p);
  }

  lemma ForgottenIsNowhere(cfg: Config, s: Sched, s': Sched, v: RowId, r: Row, t: int)
    requires Inv(cfg, s) && Forgotten(cfg, s, s', v)
    ensures !RunningInMemory(s, v) && forall c :: !QueuedInMemory(s', c, v)
    ensures InPlace(cfg, s, v, r, t) ==> InPlace(cfg, s', v, r, t)
  {
    PlaceSays(cfg, s, v, Nowhere);
    forall p | PlacedAt(cfg, s, v, p) ensures p == Nowhere {
      PlacedOnce(cfg, s, v, p, Nowhere);
    }
  }

  // ---------------------------------------------------------- scheduling steps

  lemma LaunchedInMemory(cfg: Config, s: Sched, s': Sched, c: nat, now: int, j: Job)
    requires Inv(cfg, s) && Next(cfg, s, s', Launch(c, now, j))
    ensures Inv(cfg, s') && s'.byUuid == s.byUuid && c < |cfg.parent|
    ensures j.uuid in s.byUuid && s.byUuid[j.uuid] == j && At(cfg, s, j, QueuedIn(c))
    ensures forall k :: k != j ==> SameMembership(s, s', k)
    ensures forall k :: k in s.eta ==> EtaKept(s, s', k, now)
    ensures At(cfg, s', j, if c == 0 then RunningToRoot else QueuedIn(cfg.parent[c]))
  {
    var s1 :| PopAt(cfg, s, c, now, s1, Some(j)) && s' == Launched(cfg, s1, c, j, now);
    LaunchWorks(cfg, s, c, now, s1, j);
  }

  /** Any other scheduling step moves no job. */
  lemma UnmovedInMemory(cfg: Config, s: Sched, s': Sched, step: Step, t: int)
    requires (Timed(step) ==> step.now <= t) && Inv(cfg, s) && Next(cfg, s, s', step) && !step.Notified? && !step.Removed? && !step.Launch?
    ensures Inv(cfg, s') && forall k :: SameMembership(s, s', k)
    ensures forall k :: k in s.eta ==> EtaKept(s, s', k, t)
    ensures s'.byUuid == if step.Forget? then s.byUuid - {step.u} else s.byUuid
  {
    match step
    case NothingReady(c, now) => PopNothingWorks(cfg, s, c, now, s');
    case _ => HousekeepingKeepsInv(cfg, s, s', step);
  }

  /** The clock reading of a step. */
  function TimeOf(step: Step): int { if Timed(step) then step.now else 0 }

  /** What a scheduling step does to the job of one row, no later than time `t`. */
  lemma ScheduledRow(cfg: Config, s: Sched, s': Sched, step: Step, v: RowId, t: int)
    requires (Timed(step) ==> step.now <= t) && Inv(cfg, s) && Next(cfg, s, s', step) && !step.Notified? && !step.Removed?
    ensures Unmoved(s, s', v, t) || Forgotten(cfg, s, s', v) || Advanced(cfg, s, s', step, v, t)
  {
    if step.Launch? {
      LaunchedInMemory(cfg, s, s', step.c, step.now, step.job);
    } else {
      UnmovedInMemory(cfg, s, s', step, t);
    }
  }

  /** The table of objects only shrinks. */
  lemma ScheduledTable(cfg: Config, s: Sched, s': Sched, step: Step)
    requires Inv(cfg, s) && Next(cfg, s, s', step) && !step.Notified? && !step.Removed?
    ensures Inv(cfg, s')
    ensures forall uuid :: uuid in s'.byUuid ==> uuid in s.byUuid && s'.byUuid[uuid] == s.byUuid[uuid]
  {
    if step.Launch? {
      LaunchedInMemory(cfg, s, s', step.c, step.now, step.job);
    } else {
      UnmovedInMemory(cfg, s, s', step, TimeOf(step));
    }
  }

  /** A scheduling step: nothing newly queued, nothing stops running, and only a
    * launch from the root channel completes a job's way. */
  lemma ScheduledInMemory(cfg: Config, s: Sched, s': Sched, step: Step, u: RowId)
    requires Inv(cfg, s) && Inv(cfg, s') && Next(cfg, s, s', step) && !step.Notified? && !step.Removed?
    ensures RunningInMemory(s, u) ==> RunningInMemory(s', u)
    ensures QueuedSomewhere(s', u) ==> QueuedSomewhere(s, u)
    ensures RunningInMemory(s', u) && !RunningInMemory(s, u) <==> step.Launch? && step.c == 0 && u == IdOf(step.job)
    ensures step.Launch? && u == IdOf(step.job) ==> QueuedSomewhere(s, u)
  {
    ScheduledRow(cfg, s, s', step, u, TimeOf(step));
    if step.Launch? && u == IdOf(step.job) {
      LaunchedInMemory(cfg, s, s', step.c, step.now, step.job);
      PlaceSays(cfg, s, u, QueuedIn(step.c));
      PlaceSays(cfg, s', u, if step.c == 0 then RunningToRoot else QueuedIn(cfg.parent[step.c]));
    } else if Unmoved(s, s', u, TimeOf(step)) {
      UnmovedStays(cfg, s, s', u, Row(Done, 0), TimeOf(step));
    } else {
      ForgottenIsNowhere(cfg, s, s', u, Row(Done, 0), 0);
    }
  }

  lemma ScheduleKeepsRunner(cfg: Config, w: World, w': World, step: Step)
    requires RunnerInv(cfg, w) && SameTable(w, w')
    requires Next(cfg, w.mem, w'.mem, step) && !step.Notified? && !step.Removed?
    requires w'.open == w.open && w'.up == w.up && w'.unread == w.unread && SendingSound(w') && SameClock(w, w')
    ensures RunnerInv(cfg, w')
  {
    ScheduledTable(cfg, w.mem, w'.mem, step);
    forall u
      ensures RunningInMemory(w.mem, u) ==> RunningInMemory(w'.mem, u)
      ensures QueuedSomewhere(w'.mem, u) ==> QueuedSomewhere(w.mem, u)
    {
      ScheduledInMemory(cfg, w.mem, w'.mem, step, u);
    }
    ScheduledKeeps(w, w');
  }

  lemma ScheduledKeeps(w: World, w': World)
    requires MemMatches(w) && BusyAccounted(w) && QueuedIsPending(w) && UnreadSound(w) && SameTable(w, w')
    requires w'.open == w.open && w'.unread == w.unread
    requires forall uuid :: uuid in w'.mem.byUuid ==> uuid in w.mem.byUuid && w'.mem.byUuid[uuid] == w.mem.byUuid[uuid]
    requires forall u :: RunningInMemory(w.mem, u) ==> RunningInMemory(w'.mem, u)
    requires forall u :: QueuedSomewhere(w'.mem, u) ==> QueuedSomewhere(w.mem, u)
    ensures MemMatches(w') && BusyAccounted(w') && QueuedIsPending(w') && UnreadSound(w')
  {
    assert QueuedIsPending(w') by {
      forall c, u | QueuedInMemory(w'.mem, c, u) ensures u in w.rows && w.rows[u].state == Pending {
        assert QueuedSomewhere(w'.mem, u);
      }
    }
    assert UnreadSound(w') by {
      forall u | u in w.unread ensures StillSays(w', w.unread[u].state, u) {
        assert StillSays(w, w.unread[u].state, u);
        assert Busy(w.unread[u].state) ==> !QueuedSomewhere(w.mem, u);
      }
    }
  }

  lemma SendingAfterSchedule(cfg: Config, w: World, w': World, step: Step)
    requires RunnerInv(cfg, w) && SameTable(w, w') && RunnerStep(cfg, w, w', Schedule(step))
    ensures SendingSound(w')
  {
    ScheduledTable(cfg, w.mem, w'.mem, step);
    if w'.sending.Some? {
      var u := w'.sending.value;
      ScheduledInMemory(cfg, w.mem, w'.mem, step, u);
      var c :| QueuedInMemory(w.mem, c, u);
    }
  }

  lemma SendingAfterCollect(cfg: Config, w: World, w': World, uuid: nat)
    requires RunnerInv(cfg, w) && SameTable(w, w') && RunnerStep(cfg, w, w', Collect(uuid))
    ensures SendingSound(w')
  {
    ScheduledTable(cfg, w.mem, w'.mem, Forget(uuid));
    if w'.sending.Some? {
      ScheduledInMemory(cfg, w.mem, w'.mem, Forget(uuid), w'.sending.value);
    }
  }

  // ------------------------------------------------------------- notifications

  /** The place `p` of the job before, if its object was kept. */
  ghost predicate WasAt(cfg: Config, s: Sched, s': Sched, u: RowId, p: Place)
    requires ValidConfig(cfg)
  {
    p == Nowhere || (PlacedAt(cfg, s, u, p) && InMemory(s', u) && Object(s', u) == Object(s, u))
  }

  /** The object after a notification has the properties of the row. */
  ghost predicate Refreshed(w: World, s': Sched, u: RowId)
    requires u in w.specs && u in w.unread
  {
    && InMemory(s', u) && Object(s', u).uuid == u.uuid
    && Object(s', u).chan == w.specs[u].chan && Object(s', u).key == w.specs[u].key
    && Eta(s', Object(s', u)) == w.unread[u].eta
  }

  /** The place of the notified job: `p` before (if its object is kept). */
  lemma NotifiedPlace(cfg: Config, w: World, w': World, u: RowId) returns (p: Place)
    requires RunnerInv(cfg, w) && RunnerStep(cfg, w, w', Apply(u))
    ensures Inv(cfg, w'.mem) && OtherUuidsKept(w.mem, w'.mem, u.uuid)
    ensures Refreshed(w, w'.mem, u)
    ensures PlacedAt(cfg, w'.mem, u, PlaceAfter(Object(w'.mem, u), p, w.unread[u].state))
    ensures WasAt(cfg, w.mem, w'.mem, u, p)
  {
    var sp, r := w.specs[u], w.unread[u];
    p := NotifyWorks(cfg, w.mem, u.uuid, u.db, sp.chan, sp.key, r.eta, r.state);
  }

  /** The jobs of other rows are not touched, not even one with the same uuid in
    * another database: there is none in memory. */
  lemma OthersUnmoved(cfg: Config, w: World, w': World, u: RowId, v: RowId)
    requires RunnerInv(cfg, w) && RunnerStep(cfg, w, w', Apply(u)) && u != v
    requires OtherUuidsKept(w.mem, w'.mem, u.uuid) && InMemory(w'.mem, u)
    ensures Unmoved(w.mem, w'.mem, v, w.latest)
  {
  }

  /** A job notified as enqueued or started, and not queued, runs in its path. */
  lemma NotifiedBusyRuns(cfg: Config, s: Sched, s': Sched, u: RowId, st: JobState, p: Place)
    requires Inv(cfg, s) && Inv(cfg, s') && InMemory(s', u) && Busy(st)
    requires forall c :: !QueuedInMemory(s, c, u)
    requires PlacedAt(cfg, s', u, PlaceAfter(Object(s', u), p, st)) && WasAt(cfg, s, s', u, p)
    ensures PlacedAt(cfg, s', u, RunningToRoot) && RunningInMemory(s', u)
  {
    if p != Nowhere {
      PlaceSays(cfg, s, u, p);
    }
    PlaceSays(cfg, s', u, RunningToRoot);
  }

  /** A job that is queued after its notification was notified as pending, or it was
    * queued before. */
  lemma NotifiedQueued(cfg: Config, s: Sched, s': Sched, u: RowId, st: JobState, p: Place, c: nat)
    requires Inv(cfg, s) && Inv(cfg, s') && InMemory(s', u)
    requires PlacedAt(cfg, s', u, PlaceAfter(Object(s', u), p, st)) && WasAt(cfg, s, s', u, p)
    requires QueuedInMemory(s', c, u)
    ensures st == Pending || QueuedInMemory(s, c, u)
  {
    PlaceSays(cfg, s', u, PlaceAfter(Object(s', u), p, st));
    if st != Pending {
      PlaceSays(cfg, s, u, p);
    }
  }

  /** The channels that run a notified job ran it before, or it was busy. */
  lemma NotifiedRuns(cfg: Config, s: Sched, s': Sched, u: RowId, st: JobState, p: Place, c: nat)
    requires Inv(cfg, s) && Inv(cfg, s') && InMemory(s', u) && c < |cfg.parent|
    requires PlacedAt(cfg, s', u, PlaceAfter(Object(s', u), p, st)) && WasAt(cfg, s, s', u, p)
    requires Running(s', c, Object(s', u))
    ensures OnPath(cfg, Object(s', u).chan, c)
    ensures Busy(st) || (InMemory(s, u) && Running(s, c, Object(s, u)))
  {
    var j := Object(s', u);
    assert RunsAt(cfg, j, PlaceAfter(j, p, st), c);
    if st == Pending {
      PathGoesDown(cfg, j.chan, c);
      PathGoesDown(cfg, c, j.chan);
    } else if st == WaitDependencies {
      assert RunsAt(cfg, j, p, c);
    }
  }

  /** How a notification changes the memory of the notified row. */
  lemma AppliedInMemory(cfg: Config, w: World, w': World, u: RowId)
    requires TableInv(cfg, w) && RunnerInv(cfg, w) && RunnerStep(cfg, w, w', Apply(u))
    ensures Inv(cfg, w'.mem) && OtherUuidsKept(w.mem, w'.mem, u.uuid) && Refreshed(w, w'.mem, u)
    ensures Busy(w.unread[u].state) ==> RunningInMemory(w'.mem, u)
    ensures forall c :: QueuedInMemory(w'.mem, c, u) ==> w.rows[u].state == Pending
    ensures forall c: nat :: c < |cfg.parent| && Running(w'.mem, c, Object(w'.mem, u)) ==>
              && OnPath(cfg, w.specs[u].chan, c)
              && (Busy(w.unread[u].state) || (InMemory(w.mem, u) && Running(w.mem, c, Object(w.mem, u))))
  {
    var st := w.unread[u].state;
    assert StillSays(w, st, u);
    var p := NotifiedPlace(cfg, w, w', u);
    if Busy(st) {
      NotifiedBusyRuns(cfg, w.mem, w'.mem, u, st, p);
    }
    forall c | QueuedInMemory(w'.mem, c, u) ensures w.rows[u].state == Pending {
      NotifiedQueued(cfg, w.mem, w'.mem, u, st, p, c);
    }
    forall c: nat | c < |cfg.parent| && Running(w'.mem, c, Object(w'.mem, u))
      ensures OnPath(cfg, w.specs[u].chan, c)
              && (Busy(st) || (InMemory(w.mem, u) && Running(w.mem, c, Object(w.mem, u))))
    {
      NotifiedRuns(cfg, w.mem, w'.mem, u, st, p, c);
    }
  }

  /** What a notification of row `u` leaves in memory of all rows. */
  ghost predicate BroughtUpToDate(w: World, w': World, u: RowId)
  {
    && u in w.unread && u in w.specs && u in w.rows && SameTable(w, w')
    && w'.open == w.open && w'.unread == w.unread - {u}
    && Refreshed(w, w'.mem, u) && OtherUuidsKept(w.mem, w'.mem, u.uuid)
    && (Busy(w.unread[u].state) ==> RunningInMemory(w'.mem, u))
    && (forall c :: QueuedInMemory(w'.mem, c, u) ==> w.rows[u].state == Pending)
    && (forall v :: v != u ==> Unmoved(w.mem, w'.mem, v, w.latest))
  }

  lemma AppliedMatches(w: World, w': World, u: RowId)
    requires MemMatches(w) && BroughtUpToDate(w, w', u) && u.db in w.open
    ensures MemMatches(w')
  {
    forall uuid | uuid in w'.mem.byUuid ensures ObjectMatches(w', w'.mem.byUuid[uuid], uuid) {
      if uuid != u.uuid {
        assert ObjectMatches(w, w.mem.byUuid[uuid], uuid);
      } else {
        assert IdOf(w'.mem.byUuid[uuid]) == u;
      }
    }
  }

  lemma AppliedAccounted(w: World, w': World, u: RowId)
    requires BusyAccounted(w) && QueuedIsPending(w) && UnreadSound(w) && BroughtUpToDate(w, w', u)
    ensures BusyAccounted(w') && QueuedIsPending(w')
  {
    assert StillSays(w, w.unread[u].state, u);
    forall v | v in w.rows && v.db in w.open && Busy(w.rows[v].state)
      ensures RunningInMemory(w'.mem, v) || (v in w'.unread && Busy(w'.unread[v].state))
    {
      if v != u {
        UnmovedSays(w.mem, w'.mem, v, w.latest);
      }
    }
    forall c, v | QueuedInMemory(w'.mem, c, v) ensures v in w.rows && w.rows[v].state == Pending {
      if v != u {
        UnmovedSays(w.mem, w'.mem, v, w.latest);
      }
    }
  }

  lemma AppliedUnread(w: World, w': World, u: RowId)
    requires UnreadSound(w) && BroughtUpToDate(w, w', u)
    ensures UnreadSound(w')
  {
    forall v | v in w'.unread ensures StillSays(w', w'.unread[v].state, v) {
      assert StillSays(w, w.unread[v].state, v);
      UnmovedSays(w.mem, w'.mem, v, w.latest);
    }
  }

  lemma ApplyKeepsRunner(cfg: Config, w: World, w': World, u: RowId)
    requires TableInv(cfg, w) && RunnerInv(cfg, w) && SameTable(w, w') && RunnerStep(cfg, w, w', Apply(u))
    ensures RunnerInv(cfg, w')
  {
    AppliedInMemory(cfg, w, w', u);
    forall v | v != u ensures Unmoved(w.mem, w'.mem, v, w.latest) {
      OthersUnmoved(cfg, w, w', u, v);
    }
    AppliedMatches(w, w', u);
    AppliedAccounted(w, w', u);
    AppliedUnread(w, w', u);
  }

  // --------------------------------------------------------------- table events

  /** A row that turns busy was sent; a pending row that changes was sent. */
  lemma OnlySendMakesBusy(cfg: Config, w: World, w': World, e: Event, u: RowId)
    requires SendsPending(w) && WorkerInv(w) && TableStep(cfg, w, w', e) && u in w.rows
    ensures u in w'.rows
    ensures Busy(w'.rows[u].state) && !Busy(w.rows[u].state) ==> e.Send? && w.sending == Some(u)
    ensures w.rows[u].state == Pending && w'.rows[u].state != Pending ==> e.Send? && w.sending == Some(u)
  {
  }

  ghost predicate RowCarriesOver(w: World, w': World, u: RowId)
    requires u in w.rows
  {
    && u in w'.rows && u in w'.specs && u in w.specs && w'.specs[u] == w.specs[u]
    && RowMoves(w.rows[u].state, w'.rows[u].state)
    && (Busy(w'.rows[u].state) ==> Busy(w.rows[u].state))
    && (w.rows[u].state == Pending ==> w'.rows[u].state == Pending)
  }

  /** The runner's invariant depends on the rows only through these facts. */
  lemma SameRunnerKept(w: World, w': World)
    requires MemMatches(w) && BusyAccounted(w) && QueuedIsPending(w) && UnreadSound(w) && SendingSound(w)
    requires SameRunner(w, w') && w.specs.Keys == w.rows.Keys
    requires forall u :: u in w.rows ==> RowCarriesOver(w, w', u)
    requires forall u :: u in w'.rows && u !in w.rows ==> !Busy(w'.rows[u].state)
    ensures MemMatches(w') && BusyAccounted(w') && QueuedIsPending(w') && UnreadSound(w') && SendingSound(w')
  {
    assert MemMatches(w') by {
      forall uuid | uuid in w.mem.byUuid ensures ObjectMatches(w', w.mem.byUuid[uuid], uuid) {
        assert RowCarriesOver(w, w', IdOf(w.mem.byUuid[uuid]));
      }
    }
    assert BusyAccounted(w');
    assert QueuedIsPending(w');
    forall u | u in w'.unread ensures u in w'.rows && StillSays(w', w'.unread[u].state, u) {
      assert StillSays(w, w.unread[u].state, u) && RowCarriesOver(w, w', u);
    }
  }

  lemma RowCarried(cfg: Config, w: World, w': World, e: Event, u: RowId)
    requires TableSide(cfg, w) && TableStep(cfg, w, w', e) && !e.Send? && u in w.rows
    ensures RowCarriesOver(w, w', u)
  {
    RowsMove(cfg, w, w', e, u);
    OnlySendMakesBusy(cfg, w, w', e, u);
  }

  lemma NewRowsAreOpen(cfg: Config, w: World, w': World, e: Event, u: RowId)
    requires TableStep(cfg, w, w', e) && w.up && u in w'.specs
    ensures u in w.specs || u.db in w.open
  {
  }

  /** Events that leave the runner alone keep its invariant. */
  lemma TableEventsKeepRunner(cfg: Config, w: World, w': World, e: Event)
    requires TableSide(cfg, w) && RunnerInv(cfg, w) && TableStep(cfg, w, w', e)
    requires SameRunner(w, w') && !e.Send?
    ensures RunnerInv(cfg, w')
  {
    forall u | u in w.rows ensures RowCarriesOver(w, w', u) {
      RowCarried(cfg, w, w', e, u);
    }
    forall u | u in w'.rows && u !in w.rows ensures !Busy(w'.rows[u].state) {
      RowsAppear(cfg, w, w', e, u);
    }
    if w.up {
      forall u | u in w'.specs ensures u.db in w.open {
        NewRowsAreOpen(cfg, w, w', e, u);
      }
    }
    SameRunnerKept(w, w');
  }

  lemma SendKeepsRunner(cfg: Config, w: World, w': World)
    requires TableSide(cfg, w) && RunnerInv(cfg, w) && TableStep(cfg, w, w', Send) && RunnerStep(cfg, w, w', Send)
    ensures RunnerInv(cfg, w')
  {
    RootMeansWholePath(cfg, w.mem, w.sending.value);
    assert MemMatches(w') by {
      forall uuid | uuid in w.mem.byUuid ensures ObjectMatches(w', w.mem.byUuid[uuid], uuid) {
        assert ObjectMatches(w, w.mem.byUuid[uuid], uuid);
      }
    }
    assert BusyAccounted(w');
    assert QueuedIsPending(w');
  }

  // ------------------------------------------------------- selecting and failing

  lemma ReadKeepsRunner(cfg: Config, w: World, w': World, us: set<RowId>)
    requires TableInv(cfg, w) && RunnerInv(cfg, w) && SameTable(w, w') && RunnerStep(cfg, w, w', ReadRows(us))
    ensures RunnerInv(cfg, w')
  {
    SelectedSays(w, w');
  }

  /** A row just selected says what the table says. */
  lemma SelectedSays(w: World, w': World)
    requires MemMatches(w) && BusyAccounted(w) && QueuedIsPending(w) && w.rows.Keys == w.specs.Keys
    requires SameTable(w, w') && w'.mem == w.mem && w.unread == map[] && w.open <= w'.open
    requires forall u :: u in w'.unread ==> u in w.rows && w'.unread[u] == w.rows[u] && u.db in w'.open
    requires forall u :: u in w.rows && u.db in w'.open - w.open && Busy(w.rows[u].state) ==> u in w'.unread
    ensures MemMatches(w') && BusyAccounted(w') && QueuedIsPending(w') && UnreadSound(w')
  {
    assert MemMatches(w') by {
      forall uuid | uuid in w.mem.byUuid ensures ObjectMatches(w', w.mem.byUuid[uuid], uuid) {
        assert ObjectMatches(w, w.mem.byUuid[uuid], uuid);
      }
    }
    assert UnreadSound(w');
  }

  lemma OpenKeepsRunner(cfg: Config, w: World, w': World, db: nat)
    requires TableInv(cfg, w) && RunnerInv(cfg, w) && SameTable(w, w') && RunnerStep(cfg, w, w', Open(db))
    ensures RunnerInv(cfg, w')
  {
    SelectedSays(w, w');
  }

  lemma RestKeepsRunner(cfg: Config, w: World, w': World, e: Event)
    requires TableInv(cfg, w) && RunnerInv(cfg, w) && SameTable(w, w') && RunnerStep(cfg, w, w', e)
    requires e.Crash? || e.Ready? || e.Tick?
    ensures RunnerInv(cfg, w')
  {
  }

  // ------------------------------------------------------------------ all events

  predicate ConcernsRunner(e: Event) {
    e.ReadRows? || e.Apply? || e.Schedule? || e.Collect? || e.Tick? || e.Send? || e.Crash? || e.Open? || e.Ready?
  }

  lemma OtherEventsLeaveRunner(cfg: Config, w: World, w': World, e: Event)
    requires Inv(cfg, w.mem) && RunnerStep(cfg, w, w', e) && !ConcernsRunner(e)
    ensures SameRunner(w, w') && w'.notified == WithNotified(w, e)
  {
  }

  lemma RunnerEventsLeaveTable(cfg: Config, w: World, w': World, e: Event)
    requires TableStep(cfg, w, w', e) && ConcernsRunner(e) && !e.Send?
    ensures SameTable(w, w')
  {
  }

  lemma SelectingKeepsRunner(cfg: Config, w: World, w': World, e: Event)
    requires TableInv(cfg, w) && RunnerInv(cfg, w) && SameTable(w, w') && RunnerStep(cfg, w, w', e)
    requires e.ReadRows? || e.Open?
    ensures RunnerInv(cfg, w')
  {
    if e.ReadRows? {
      ReadKeepsRunner(cfg, w, w', e.us);
    } else {
      OpenKeepsRunner(cfg, w, w', e.db);
    }
  }

  lemma TurnKeepsRunner(cfg: Config, w: World, w': World, e: Event)
    requires TableInv(cfg, w) && RunnerInv(cfg, w) && SameTable(w, w') && RunnerStep(cfg, w, w', e)
    requires e.ReadRows? || e.Apply? || e.Open? || e.Crash? || e.Ready? || e.Tick?
    ensures RunnerInv(cfg, w')
  {
    if e.Apply? {
      ApplyKeepsRunner(cfg, w, w', e.u);
    } else if e.Crash? || e.Ready? || e.Tick? {
      RestKeepsRunner(cfg, w, w', e);
    } else {
      SelectingKeepsRunner(cfg, w, w', e);
    }
  }

  lemma SchedulingKeepsRunner(cfg: Config, w: World, w': World, e: Event)
    requires TableInv(cfg, w) && RunnerInv(cfg, w) && SameTable(w, w') && RunnerStep(cfg, w, w', e)
    requires e.Schedule? || e.Collect?
    ensures RunnerInv(cfg, w')
  {
    match e
    case Schedule(step) =>
      SendingAfterSchedule(cfg, w, w', step);
      ScheduleKeepsRunner(cfg, w, w', step);
    case Collect(uuid) =>
      SendingAfterCollect(cfg, w, w', uuid);
      ScheduleKeepsRunner(cfg, w, w', Forget(uuid));
  }

  lemma RunnerKept(cfg: Config, w: World, w': World, e: Event)
    requires TableSide(cfg, w) && RunnerInv(cfg, w) && NextWorld(cfg, w, w', e)
    ensures RunnerInv(cfg, w')
  {
    if !ConcernsRunner(e) {
      OtherEventsLeaveRunner(cfg, w, w', e);
      TableEventsKeepRunner(cfg, w, w', e);
    } else if e.Send? {
      SendKeepsRunner(cfg, w, w');
    } else {
      RunnerEventsLeaveTable(cfg, w, w', e);
      if e.Schedule? || e.Collect? {
        SchedulingKeepsRunner(cfg, w, w', e);
      } else {
        TurnKeepsRunner(cfg, w, w', e);
      }
    }
  }
}
