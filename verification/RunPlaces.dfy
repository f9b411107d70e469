/** No job is forgotten: whatever the steps of the run protocol, a row about which
  * nothing is on its way has its job in memory exactly where its state says.
  */
module RunPlaces {
  import opened ChannelJobs
  import opened Channels
  import opened SchedulerSteps
  import opened SchedulerRuns
  import opened RunProtocol
  import opened RunMemory

  // ------------------------------------------------------------- notifications

  /** A notified job is where the notified state says. */
  lemma NotifiedInPlace(cfg: Config, s: Sched, s': Sched, u: RowId, r: Row, p: Place, t: int)
    requires Inv(cfg, s) && Inv(cfg, s') && InMemory(s', u)
    requires PlacedAt(cfg, s', u, PlaceAfter(Object(s', u), p, r.state)) && WasAt(cfg, s, s', u, p)
    requires Eta(s', Object(s', u)) == r.eta
    requires Busy(r.state) ==> forall c :: !QueuedInMemory(s, c, u)
    requires r.state == WaitDependencies ==> NowhereInMemory(cfg, s, u)
    ensures InPlace(cfg, s', u, r, t)
  {
    if Busy(r.state) {
      NotifiedBusyRuns(cfg, s, s', u, r.state, p);
    } else if r.state == WaitDependencies && p != Nowhere {
      PlacedOnce(cfg, s, u, p, Nowhere);
    }
  }

  lemma AppliedInPlace(cfg: Config, w: World, w': World, u: RowId)
    requires RunnerInv(cfg, w) && PlacesInv(cfg, w) && RunnerStep(cfg, w, w', Apply(u)) && u !in w.notified
    ensures u in w.rows && InPlace(cfg, w'.mem, u, w.rows[u], w.latest)
  {
    var p := NotifiedPlace(cfg, w, w', u);
    assert StillSays(w, w.unread[u].state, u);
    NotifiedInPlace(cfg, w.mem, w'.mem, u, w.rows[u], p, w.latest);
  }

  /** A job that waits for its parents is in no channel after any notification. */
  lemma AppliedWaitingNowhere(cfg: Config, w: World, w': World, u: RowId)
    requires RunnerInv(cfg, w) && PlacesInv(cfg, w) && RunnerStep(cfg, w, w', Apply(u))
    requires u in w.rows && w.rows[u].state == WaitDependencies
    ensures NowhereInMemory(cfg, w'.mem, u)
  {
    var p := NotifiedPlace(cfg, w, w', u);
    assert StillSays(w, w.unread[u].state, u);
    if p != Nowhere {
      PlacedOnce(cfg, w.mem, u, p, Nowhere);
    }
  }

  lemma ApplyKeepsPlaces(cfg: Config, w: World, w': World, u: RowId)
    requires RunnerInv(cfg, w) && PlacesInv(cfg, w) && SameTable(w, w') && RunnerStep(cfg, w, w', Apply(u))
    ensures PlacesInv(cfg, w')
  {
    var _ := NotifiedPlace(cfg, w, w', u);
    forall v | Settled(w', v) ensures InPlace(cfg, w'.mem, v, w'.rows[v], w'.latest) {
      if v == u {
        AppliedInPlace(cfg, w, w', u);
      } else {
        assert Settled(w, v);
        OthersUnmoved(cfg, w, w', u, v);
        UnmovedStays(cfg, w.mem, w'.mem, v, w.rows[v], w.latest);
      }
    }
    forall v | v in w'.rows && w'.rows[v].state == WaitDependencies ensures NowhereInMemory(cfg, w'.mem, v) {
      if v == u {
        AppliedWaitingNowhere(cfg, w, w', u);
      } else {
        OthersUnmoved(cfg, w, w', u, v);
        UnmovedStays(cfg, w.mem, w'.mem, v, w.rows[v], w.latest);
      }
    }
  }

  // ---------------------------------------------------------- scheduling steps

  /** A launch below the root leaves a pending job queued. */
  lemma AdvancedStays(cfg: Config, s: Sched, s': Sched, step: Step, u: RowId, r: Row, t: int)
    requires Inv(cfg, s) && Inv(cfg, s') && Advanced(cfg, s, s', step, u, t) && InPlace(cfg, s, u, r, t)
    ensures step.c != 0 ==> InPlace(cfg, s', u, r, t)
  {
    forall p | PlacedAt(cfg, s, u, p) ensures p == QueuedIn(step.c) {
      PlacedOnce(cfg, s, u, p, QueuedIn(step.c));
    }
    assert r.state == Pending;
  }

  lemma AdvancedWasSomewhere(cfg: Config, s: Sched, s': Sched, step: Step, u: RowId, t: int)
    requires Inv(cfg, s) && Advanced(cfg, s, s', step, u, t)
    ensures !NowhereInMemory(cfg, s, u)
  {
    if NowhereInMemory(cfg, s, u) {
      PlacedOnce(cfg, s, u, Nowhere, QueuedIn(step.c));
    }
  }

  lemma ScheduledStays(cfg: Config, s: Sched, s': Sched, step: Step, u: RowId, r: Row, t: int)
    requires Inv(cfg, s) && Inv(cfg, s') && Next(cfg, s, s', step) && !step.Notified? && !step.Removed?
    requires Timed(step) ==> step.now <= t
    ensures InPlace(cfg, s, u, r, t) && !(step.Launch? && step.c == 0 && u == IdOf(step.job)) ==> InPlace(cfg, s', u, r, t)
    ensures NowhereInMemory(cfg, s, u) ==> NowhereInMemory(cfg, s', u)
  {
    ScheduledRow(cfg, s, s', step, u, t);
    if Unmoved(s, s', u, t) {
      UnmovedStays(cfg, s, s', u, r, t);
    } else if Forgotten(cfg, s, s', u) {
      ForgottenIsNowhere(cfg, s, s', u, r, t);
    } else {
      AdvancedWasSomewhere(cfg, s, s', step, u, t);
      if InPlace(cfg, s, u, r, t) {
        AdvancedStays(cfg, s, s', step, u, r, t);
      }
    }
  }

  lemma SchedulingKeepsPlaces(cfg: Config, w: World, w': World, step: Step)
    requires RunnerInv(cfg, w) && PlacesInv(cfg, w) && SameTable(w, w')
    requires Next(cfg, w.mem, w'.mem, step) && !step.Notified? && !step.Removed?
    requires w'.open == w.open && w'.unread == w.unread && w'.notified == w.notified && SameClock(w, w')
    requires Timed(step) ==> step.now <= w.latest
    requires step.Launch? && step.c == 0 ==> w'.sending == Some(IdOf(step.job))
    requires w.sending == None || w'.sending == w.sending
    ensures PlacesInv(cfg, w')
  {
    ScheduledTable(cfg, w.mem, w'.mem, step);
    forall u | Settled(w', u) ensures InPlace(cfg, w'.mem, u, w'.rows[u], w'.latest) {
      assert Settled(w, u);
      ScheduledStays(cfg, w.mem, w'.mem, step, u, w.rows[u], w.latest);
    }
    forall u | u in w'.rows && w'.rows[u].state == WaitDependencies ensures NowhereInMemory(cfg, w'.mem, u) {
      ScheduledStays(cfg, w.mem, w'.mem, step, u, w.rows[u], w.latest);
    }
  }

  // --------------------------------------------------------------- table events

  /** A row that an event does not write stays as it is. */
  lemma UnwrittenStays(cfg: Config, w: World, w': World, e: Event, u: RowId)
    requires TableStep(cfg, w, w', e) && u in w'.rows && u !in Written(w, e)
    ensures u in w.rows && w'.rows[u] == w.rows[u]
  {
  }

  lemma MemoryIsKnown(w: World, u: RowId)
    requires MemMatches(w)
    ensures InMemory(w.mem, u) ==> u in w.specs && u.db in w.open
  {
    assert InMemory(w.mem, u) ==> ObjectMatches(w, w.mem.byUuid[u.uuid], u.uuid);
  }

  /** A new row has no job in memory yet. */
  lemma NewRowsNowhere(cfg: Config, w: World, u: RowId)
    requires TableInv(cfg, w) && MemMatches(w) && ValidConfig(cfg) && u !in w.rows
    ensures NowhereInMemory(cfg, w.mem, u)
  {
    MemoryIsKnown(w, u);
  }

  /** Table events, `Send` included: what is written is notified. */
  lemma TableEventsKeepPlaces(cfg: Config, w: World, w': World, e: Event)
    requires TableSide(cfg, w) && RunnerInv(cfg, w) && PlacesInv(cfg, w) && TableStep(cfg, w, w', e)
    requires w'.mem == w.mem && w'.open == w.open && w'.unread == w.unread && w'.notified == WithNotified(w, e)
    requires SameClock(w, w')
    requires w'.sending == w.sending || (e.Send? && w'.sending == None)
    ensures PlacesInv(cfg, w')
  {
    forall u | Settled(w', u) ensures InPlace(cfg, w'.mem, u, w'.rows[u], w'.latest) {
      assert u !in Written(w, e);
      UnwrittenStays(cfg, w, w', e, u);
      assert Settled(w, u);
    }
    forall u | u in w'.unread && u !in w'.notified ensures u in w'.rows && w'.rows[u] == w'.unread[u] {
      RowsMove(cfg, w, w', e, u);
      UnwrittenStays(cfg, w, w', e, u);
    }
    forall u | u in w'.rows && w'.rows[u].state == WaitDependencies ensures NowhereInMemory(cfg, w'.mem, u) {
      if u in w.rows {
        RowsMove(cfg, w, w', e, u);
      } else {
        NewRowsNowhere(cfg, w, u);
      }
    }
  }

  // ------------------------------------------------------- selecting and failing

  lemma ReadKeepsPlaces(cfg: Config, w: World, w': World, us: set<RowId>)
    requires RunnerInv(cfg, w) && PlacesInv(cfg, w) && SameTable(w, w') && RunnerStep(cfg, w, w', ReadRows(us))
    ensures PlacesInv(cfg, w')
  {
    forall u | Settled(w', u) ensures InPlace(cfg, w'.mem, u, w'.rows[u], w'.latest) {
      assert Settled(w, u);
    }
  }

  /** A database that was not open has no jobs in memory. */
  lemma OpenKeepsPlaces(cfg: Config, w: World, w': World, db: nat)
    requires TableInv(cfg, w) && RunnerInv(cfg, w) && PlacesInv(cfg, w) && SameTable(w, w')
    requires RunnerStep(cfg, w, w', Open(db))
    ensures PlacesInv(cfg, w')
  {
    forall u | Settled(w', u) ensures InPlace(cfg, w'.mem, u, w'.rows[u], w'.latest) {
      if u.db == db {
        MemoryIsKnown(w, u);
      } else {
        assert Settled(w, u);
      }
    }
  }

  lemma RestKeepsPlaces(cfg: Config, w: World, w': World, e: Event)
    requires RunnerInv(cfg, w) && PlacesInv(cfg, w) && SameTable(w, w') && RunnerStep(cfg, w, w', e)
    requires e.Crash? || e.Ready? || e.Tick?
    ensures PlacesInv(cfg, w')
  {
    forall u | Settled(w', u) ensures InPlace(cfg, w'.mem, u, w'.rows[u], w'.latest) {
      assert Settled(w, u);
    }
  }

  // ------------------------------------------------------------------ all events

  lemma SelectingKeepsPlaces(cfg: Config, w: World, w': World, e: Event)
    requires TableInv(cfg, w) && RunnerInv(cfg, w) && PlacesInv(cfg, w) && SameTable(w, w') && RunnerStep(cfg, w, w', e)
    requires e.ReadRows? || e.Open? || e.Crash? || e.Ready? || e.Tick?
    ensures PlacesInv(cfg, w')
  {
    if e.ReadRows? {
      ReadKeepsPlaces(cfg, w, w', e.us);
    } else if e.Open? {
      OpenKeepsPlaces(cfg, w, w', e.db);
    } else {
      RestKeepsPlaces(cfg, w, w', e);
    }
  }

  lemma MovingKeepsPlaces(cfg: Config, w: World, w': World, e: Event)
    requires RunnerInv(cfg, w) && PlacesInv(cfg, w) && SameTable(w, w') && RunnerStep(cfg, w, w', e)
    requires e.Apply? || e.Schedule? || e.Collect?
    ensures PlacesInv(cfg, w')
  {
    if e.Apply? {
      ApplyKeepsPlaces(cfg, w, w', e.u);
    } else if e.Schedule? {
      SchedulingKeepsPlaces(cfg, w, w', e.step);
    } else {
      SchedulingKeepsPlaces(cfg, w, w', Forget(e.uuid));
    }
  }

  lemma SendLeaves(cfg: Config, w: World, w': World)
    requires Inv(cfg, w.mem) && RunnerStep(cfg, w, w', Send)
    ensures w'.mem == w.mem && w'.open == w.open && w'.unread == w.unread && w'.sending == None
    ensures w'.notified == WithNotified(w, Send) && SameClock(w, w')
  {
  }

  lemma PlacesKept(cfg: Config, w: World, w': World, e: Event)
    requires TableSide(cfg, w) && RunnerInv(cfg, w) && PlacesInv(cfg, w) && NextWorld(cfg, w, w', e)
    ensures PlacesInv(cfg, w')
  {
    if !ConcernsRunner(e) {
      OtherEventsLeaveRunner(cfg, w, w', e);
      TableEventsKeepPlaces(cfg, w, w', e);
    } else if e.Send? {
      SendLeaves(cfg, w, w');
      TableEventsKeepPlaces(cfg, w, w', e);
    } else {
      RunnerEventsLeaveTable(cfg, w, w', e);
      if e.Apply? || e.Schedule? || e.Collect? {
        MovingKeepsPlaces(cfg, w, w', e);
      } else {
        SelectingKeepsPlaces(cfg, w, w', e);
      }
    }
  }

  // ------------------------------------------------------------------------ etas

  /** A pending row keeps its eta as long as it is pending. */
  lemma PendingKeepsEta(cfg: Config, w: World, w': World, e: Event, u: RowId)
    requires WorkerInv(w) && TableStep(cfg, w, w', e) && u in w.rows && w.rows[u].state == Pending
    ensures u in w'.rows && w'.rows[u].eta == w.rows[u].eta
  {
    EtasStay(cfg, w, w', e, u);
  }

  lemma TableEventsKeepEtas(cfg: Config, w: World, w': World, e: Event)
    requires TableSide(cfg, w) && QueuedIsPending(w) && UnreadSound(w) && EtaInv(w) && TableStep(cfg, w, w', e)
    requires w'.mem == w.mem && w'.unread == w.unread && SameClock(w, w')
    ensures EtaInv(w')
  {
    forall c, u | QueuedInMemory(w'.mem, c, u)
      ensures u in w'.rows && HasEta(w'.mem, Object(w'.mem, u), w'.rows[u].eta, w'.latest)
    {
      PendingKeepsEta(cfg, w, w', e, u);
    }
    forall u | u in w'.unread && w'.unread[u].state == Pending ensures u in w'.rows && w'.rows[u].eta == w'.unread[u].eta {
      assert StillSays(w, w.unread[u].state, u);
      PendingKeepsEta(cfg, w, w', e, u);
    }
  }

  lemma NotifiedKeepsEta(cfg: Config, w: World, w': World, u: RowId, c: nat)
    requires RunnerInv(cfg, w) && EtaInv(w) && SameTable(w, w') && RunnerStep(cfg, w, w', Apply(u))
    requires QueuedInMemory(w'.mem, c, u)
    ensures u in w.rows && HasEta(w'.mem, Object(w'.mem, u), w.rows[u].eta, w.latest)
  {
    var p := NotifiedPlace(cfg, w, w', u);
    assert StillSays(w, w.unread[u].state, u);
    NotifiedQueued(cfg, w.mem, w'.mem, u, w.unread[u].state, p, c);
    if w.unread[u].state != Pending {
      QueuedStaysObject(cfg, w, w', u, p, c);
    }
  }

  /** A job that was queued and still is, although not notified as pending, is the same
    * object with the same eta. */
  lemma QueuedStaysObject(cfg: Config, w: World, w': World, u: RowId, p: Place, c: nat)
    requires Inv(cfg, w.mem) && Inv(cfg, w'.mem) && u in w.unread && w.unread[u].state != Pending && InMemory(w'.mem, u)
    requires OtherUuidsKept(w.mem, w'.mem, u.uuid)
    requires PlacedAt(cfg, w'.mem, u, PlaceAfter(Object(w'.mem, u), p, w.unread[u].state)) && WasAt(cfg, w.mem, w'.mem, u, p)
    requires QueuedInMemory(w'.mem, c, u)
    ensures InMemory(w.mem, u) && Object(w'.mem, u) == Object(w.mem, u)
    ensures Eta(w'.mem, Object(w.mem, u)) == Eta(w.mem, Object(w.mem, u))
  {
    PlaceSays(cfg, w'.mem, u, PlaceAfter(Object(w'.mem, u), p, w.unread[u].state));
  }

  lemma ApplyKeepsEtas(cfg: Config, w: World, w': World, u: RowId)
    requires RunnerInv(cfg, w) && EtaInv(w) && SameTable(w, w') && RunnerStep(cfg, w, w', Apply(u))
    ensures EtaInv(w')
  {
    var _ := NotifiedPlace(cfg, w, w', u);
    forall c, v | QueuedInMemory(w'.mem, c, v)
      ensures v in w'.rows && HasEta(w'.mem, Object(w'.mem, v), w'.rows[v].eta, w'.latest)
    {
      if v == u {
        NotifiedKeepsEta(cfg, w, w', u, c);
      } else {
        OthersUnmoved(cfg, w, w', u, v);
        UnmovedSays(w.mem, w'.mem, v, w.latest);
      }
    }
  }

  lemma ScheduledKeepsEta(cfg: Config, s: Sched, s': Sched, step: Step, u: RowId, eta: int, t: int)
    requires Inv(cfg, s) && Inv(cfg, s') && Next(cfg, s, s', step) && !step.Notified? && !step.Removed?
    requires Timed(step) ==> step.now <= t
    requires QueuedSomewhere(s, u) && InMemory(s, u) && HasEta(s, Object(s, u), eta, t) && InMemory(s', u)
    ensures HasEta(s', Object(s', u), eta, t)
  {
    ScheduledRow(cfg, s, s', step, u, t);
  }

  lemma SchedulingKeepsEtas(cfg: Config, w: World, w': World, step: Step)
    requires RunnerInv(cfg, w) && EtaInv(w) && SameTable(w, w') && SameClock(w, w') && w'.unread == w.unread
    requires Next(cfg, w.mem, w'.mem, step) && !step.Notified? && !step.Removed? && (Timed(step) ==> step.now <= w.latest)
    ensures EtaInv(w')
  {
    ScheduledTable(cfg, w.mem, w'.mem, step);
    forall c, u | QueuedInMemory(w'.mem, c, u)
      ensures u in w'.rows && HasEta(w'.mem, Object(w'.mem, u), w'.rows[u].eta, w'.latest)
    {
      ScheduledInMemory(cfg, w.mem, w'.mem, step, u);
      assert QueuedSomewhere(w'.mem, u);
      var d :| QueuedInMemory(w.mem, d, u);
      ScheduledKeepsEta(cfg, w.mem, w'.mem, step, u, w.rows[u].eta, w.latest);
    }
  }

  lemma SelectingKeepsEtas(cfg: Config, w: World, w': World, e: Event)
    requires RunnerInv(cfg, w) && EtaInv(w) && SameTable(w, w') && RunnerStep(cfg, w, w', e)
    requires e.ReadRows? || e.Open? || e.Crash? || e.Ready? || e.Tick?
    ensures EtaInv(w')
  {
    match e
    case ReadRows(_) =>
    case Open(_) =>
    case Crash =>
    case Ready =>
    case Tick(_) =>
  }

  lemma MovingKeepsEtas(cfg: Config, w: World, w': World, e: Event)
    requires RunnerInv(cfg, w) && EtaInv(w) && SameTable(w, w') && RunnerStep(cfg, w, w', e)
    requires e.Apply? || e.Schedule? || e.Collect?
    ensures EtaInv(w')
  {
    if e.Apply? {
      ApplyKeepsEtas(cfg, w, w', e.u);
    } else if e.Schedule? {
      SchedulingKeepsEtas(cfg, w, w', e.step);
    } else {
      SchedulingKeepsEtas(cfg, w, w', Forget(e.uuid));
    }
  }

  lemma EtasKept(cfg: Config, w: World, w': World, e: Event)
    requires TableSide(cfg, w) && RunnerInv(cfg, w) && EtaInv(w) && NextWorld(cfg, w, w', e)
    ensures EtaInv(w')
  {
    if !ConcernsRunner(e) {
      OtherEventsLeaveRunner(cfg, w, w', e);
      TableEventsKeepEtas(cfg, w, w', e);
    } else if e.Send? {
      SendLeaves(cfg, w, w');
      TableEventsKeepEtas(cfg, w, w', e);
    } else {
      RunnerEventsLeaveTable(cfg, w, w', e);
      if e.Apply? || e.Schedule? || e.Collect? {
        MovingKeepsEtas(cfg, w, w', e);
      } else {
        SelectingKeepsEtas(cfg, w, w', e);
      }
    }
  }

  /** Every step keeps all invariants. */
  lemma NextWorldKeepsInv(cfg: Config, w: World, w': World, e: Event)
    requires WInv(cfg, w) && NextWorld(cfg, w, w', e)
    ensures WInv(cfg, w')
  {
    TableKept(cfg, w, w', e);
    WorkersKept(cfg, w, w', e);
    DependenciesKept(cfg, w, w', e);
    RunnerKept(cfg, w, w', e);
    PlacesKept(cfg, w, w', e);
    EtasKept(cfg, w, w', e);
  }
}
