/** Every operation of the channel manager as a step on its memory, and what all
  * runs of such steps keep.
  */
module SchedulerSteps {
  import opened ChannelJobs
  import opened Channels

  // ------------------------------------------------------ ChannelManager.notify

  /** A new job object for `uuid` becomes the current one. */
  function NewObject(s: Sched, u: nat, db: nat, chan: nat, key: Key, eta: int): Sched {
    var j := Job(u, db, chan, key, s.nextSerial);
    s.(eta := s.eta[j := eta], byUuid := s.byUuid[u := j], nextSerial := s.nextSerial + 1)
  }

  /** `remove_job`: the object leaves its channels and the table. */
  function RemoveJob(cfg: Config, s: Sched, u: nat): Sched
    requires ValidConfig(cfg) && |s.chans| == |cfg.parent| && TableSound(cfg, s)
  {
    if u in s.byUuid then
      RemoveFrom(cfg, s, s.byUuid[u].chan, s.byUuid[u]).(byUuid := s.byUuid - {u})
    else s
  }

  /** The object that a notification works on: the current one, or a new one when
    * there is none or a property that influences scheduling has changed. */
  function Refresh(cfg: Config, s: Sched, u: nat, db: nat, chan: nat, key: Key, eta: int): Sched
    requires ValidConfig(cfg) && |s.chans| == |cfg.parent| && TableSound(cfg, s)
  {
    if u in s.byUuid then
      var j := s.byUuid[u];
      if key.seqno != j.key.seqno || key.priority != j.key.priority || eta != Eta(s, j) || chan != j.chan then
        NewObject(RemoveJob(cfg, s, u), u, db, chan, key, eta)
      else s
    else NewObject(s, u, db, chan, key, eta)
  }

  /** The state transition of a notification, applied in the job's own channel. */
  function Transition(cfg: Config, s: Sched, j: Job, st: JobState): Sched
    requires ValidConfig(cfg) && |s.chans| == |cfg.parent| && j.chan < |cfg.parent|
  {
    match st
    case Done => RemoveFrom(cfg, s, j.chan, j)
    case Cancelled => RemoveFrom(cfg, s, j.chan, j)
    case Pending => SetPending(cfg, s, j)
    case Enqueued => SetRunning(cfg, s, j.chan, j)
    case Started => SetRunning(cfg, s, j.chan, j)
    case Failed => SetFailed(cfg, s, j)
    case WaitDependencies => s
  }

  /** `notify`. Its two assertions (database and creation date of a job never
    * change) are what it demands of its caller. */
  ghost predicate NotifyAllowed(cfg: Config, s: Sched, u: nat, db: nat, chan: nat, key: Key) {
    && chan < |cfg.parent|
    && (u in s.byUuid ==> s.byUuid[u].db == db && s.byUuid[u].key.created == key.created)
  }

  function Notify(cfg: Config, s: Sched, u: nat, db: nat, chan: nat, key: Key, eta: int, st: JobState): Sched
    requires Inv(cfg, s) && NotifyAllowed(cfg, s, u, db, chan, key)
  {
    RefreshKeepsSizes(cfg, s, u, db, chan, key, eta);
    var s1 := Refresh(cfg, s, u, db, chan, key, eta);
    Transition(cfg, s1, s1.byUuid[u], st)
  }

  lemma RefreshKeepsSizes(cfg: Config, s: Sched, u: nat, db: nat, chan: nat, key: Key, eta: int)
    requires ValidConfig(cfg) && |s.chans| == |cfg.parent| && TableSound(cfg, s) && chan < |cfg.parent|
    ensures var s1 := Refresh(cfg, s, u, db, chan, key, eta);
      |s1.chans| == |s.chans| && u in s1.byUuid && s1.byUuid[u].chan < |cfg.parent|
  {
  }

  /** Jobs of other uuids do not notice. */
  ghost predicate OtherUuidsKept(s: Sched, s': Sched, u: nat) {
    && |s'.chans| == |s.chans|
    && (forall v :: v != u ==> (v in s'.byUuid <==> v in s.byUuid) && (v in s.byUuid ==> s'.byUuid[v] == s.byUuid[v]))
    && (forall j :: j in s.eta ==> j in s'.eta && s'.eta[j] == s.eta[j])
    && (forall c :: 0 <= c < |s.chans| ==> s'.chans[c].pause == s.chans[c].pause)
    && forall c, k: Job :: k.uuid != u ==>
         && (Queued(s', c, k) <==> Queued(s, c, k))
         && (Running(s', c, k) <==> Running(s, c, k))
         && (HasFailed(s', c, k) <==> HasFailed(s, c, k))
  }

  lemma RemoveJobWorks(cfg: Config, s: Sched, u: nat)
    requires Inv(cfg, s)
    ensures var s' := RemoveJob(cfg, s, u);
      Inv(cfg, s') && OtherUuidsKept(s, s', u) && u !in s'.byUuid
  {
    if u in s.byUuid {
      var j := s.byUuid[u];
      RemoveWorks(cfg, s, j);
      var s1 := RemoveFrom(cfg, s, j.chan, j);
      var s' := RemoveJob(cfg, s, u);
      forall k
        ensures if Current(s', k) then exists q :: At(cfg, s', k, q) else At(cfg, s', k, Nowhere)
      {
        assert s'.chans == s1.chans && SameMembership(s1, s', k);
        if k != j && Current(s1, k) {
          var q :| At(cfg, s1, k, q);
          SameMembershipSamePlace(cfg, s1, s', k, q);
        } else {
          assert At(cfg, s1, k, Nowhere);
          SameMembershipSamePlace(cfg, s1, s', k, Nowhere);
        }
      }
      assert HeapsSound(s') by {
        forall d | 0 <= d < |s'.chans| ensures ChanHeapsSound(s', d) {
          assert ChanHeapsSound(s1, d);
        }
      }
    }
  }

  lemma NewObjectWorks(cfg: Config, s: Sched, u: nat, db: nat, chan: nat, key: Key, eta: int)
    requires Inv(cfg, s) && u !in s.byUuid && chan < |cfg.parent|
    ensures var s' := NewObject(s, u, db, chan, key, eta);
      && Inv(cfg, s') && OtherUuidsKept(s, s', u)
      && u in s'.byUuid && At(cfg, s', s'.byUuid[u], Nowhere)
  {
    var s' := NewObject(s, u, db, chan, key, eta);
    var j := s'.byUuid[u];
    assert j !in s.eta;
    assert At(cfg, s, j, Nowhere);
    forall k
      ensures if Current(s', k) then exists q :: At(cfg, s', k, q) else At(cfg, s', k, Nowhere)
    {
      assert s'.chans == s.chans && SameMembership(s, s', k);
      if Current(s, k) {
        var q :| At(cfg, s, k, q);
        SameMembershipSamePlace(cfg, s, s', k, q);
      } else {
        assert At(cfg, s, k, Nowhere);
        SameMembershipSamePlace(cfg, s, s', k, Nowhere);
      }
    }
    assert HeapsSound(s') by {
      forall d | 0 <= d < |s'.chans| ensures ChanHeapsSound(s', d) {
        assert ChanHeapsSound(s, d);
      }
    }
  }

  /** The place of the job after a notification in state `st`, given the place it
    * had when its object was kept, or `Nowhere` when it was replaced. */
  function PlaceAfter(j: Job, p: Place, st: JobState): Place {
    match st
    case Done => Nowhere
    case Cancelled => Nowhere
    case Pending => QueuedIn(j.chan)
    case Enqueued => if p.QueuedIn? && p.c != j.chan then p else RunningToRoot
    case Started => if p.QueuedIn? && p.c != j.chan then p else RunningToRoot
    case Failed => InFailed
    case WaitDependencies => p
  }

  lemma TransitionWorks(cfg: Config, s: Sched, j: Job, st: JobState, p: Place)
    requires Inv(cfg, s) && Current(s, j) && At(cfg, s, j, p)
    ensures var s' := Transition(cfg, s, j, st);
      Inv(cfg, s') && OnlyMoves(s, s', j) && At(cfg, s', j, PlaceAfter(j, p, st))
  {
    match st
    case Done => RemoveWorks(cfg, s, j);
    case Cancelled => RemoveWorks(cfg, s, j);
    case Pending => SetPendingWorks(cfg, s, j);
    case Enqueued => SetRunningWorks(cfg, s, j, p);
    case Started => SetRunningWorks(cfg, s, j, p);
    case Failed => SetFailedWorks(cfg, s, j);
    case WaitDependencies =>
  }

  /** `notify` keeps the invariant, touches only the notified uuid, leaves one
    * current object with the notified properties, and puts it exactly where the
    * notified state says. The object is kept exactly when none of the properties that
    * influence scheduling has changed; otherwise it is a new one. */
  lemma NotifyWorks(cfg: Config, s: Sched, u: nat, db: nat, chan: nat, key: Key, eta: int, st: JobState)
      returns (p: Place)
    requires Inv(cfg, s) && NotifyAllowed(cfg, s, u, db, chan, key)
    ensures var s' := Notify(cfg, s, u, db, chan, key, eta, st);
      && Inv(cfg, s') && OtherUuidsKept(s, s', u)
      && u in s'.byUuid && s'.byUuid[u].chan == chan && s'.byUuid[u].db == db && s'.byUuid[u].key == key
      && Eta(s', s'.byUuid[u]) == eta
      && At(cfg, s', s'.byUuid[u], PlaceAfter(s'.byUuid[u], p, st))
      && (if u in s.byUuid && s'.byUuid[u] == s.byUuid[u] then At(cfg, s, s.byUuid[u], p) else p == Nowhere)
      && (s'.byUuid[u].serial == s.nextSerial || (u in s.byUuid && s'.byUuid[u] == s.byUuid[u]))
      && (u in s.byUuid ==>
            (s'.byUuid[u] == s.byUuid[u] <==>
               key.seqno == s.byUuid[u].key.seqno && key.priority == s.byUuid[u].key.priority
               && eta == Eta(s, s.byUuid[u]) && chan == s.byUuid[u].chan))
  {
    RefreshKeepsSizes(cfg, s, u, db, chan, key, eta);
    var s1 := Refresh(cfg, s, u, db, chan, key, eta);
    var j := s1.byUuid[u];
    if u in s.byUuid && s1.byUuid[u] == s.byUuid[u] && s1 == s {
      var q :| At(cfg, s, j, q);
      p := q;
    } else if u in s.byUuid {
      RemoveJobWorks(cfg, s, u);
      NewObjectWorks(cfg, RemoveJob(cfg, s, u), u, db, chan, key, eta);
      p := Nowhere;
      assert s.byUuid[u].serial < s.nextSerial;
    } else {
      NewObjectWorks(cfg, s, u, db, chan, key, eta);
      p := Nowhere;
    }
    TransitionWorks(cfg, s1, j, st, p);
  }

  // --------------------------------------------------- Channel.get_jobs_to_run

  predicate HasCapacity(cfg: Config, s: Sched, c: nat)
    requires ValidConfig(cfg) && |s.chans| == |cfg.parent| && c < |cfg.parent|
  {
    if cfg.sequential[c] && s.chans[c].failed != {} then false
    else cfg.capacity[c] == 0 || |s.chans[c].running| < cfg.capacity[c]
  }

  /** `self._queue.pop(now)` in channel `c`: the queue changes as `PopSpec` says,
    * the eta of every due job is cleared, and entries that were removed earlier
    * may physically leave the heaps. */
  ghost predicate PopAt(cfg: Config, s: Sched, c: nat, now: int, s': Sched, r: Option<Job>)
    requires Inv(cfg, s) && c < |cfg.parent|
  {
    assert ChanHeapsSound(s, c);
    && |s'.chans| == |s.chans|
    && var ch, ch' := s.chans[c], s'.chans[c];
    && var due := DueJobs(ch.waiting, s.eta, now);
    && PopSpec(cfg.sequential[c], now, JobKey, s.eta, ch.ready, ch.waiting, ch'.ready, ch'.waiting, r)
    && ch'.ready <= ch'.readyHeap <= ch.readyHeap + due - (if r.Some? then {r.value} else {})
    && ch'.waiting <= ch'.waitHeap <= ch.waitHeap - due
    && ch'.running == ch.running && ch'.failed == ch.failed && ch'.pause == ch.pause
    && s'.chans == s.chans[c := ch']
    && s'.eta == (map j | j in s.eta :: if j in due then 0 else s.eta[j])
    && s'.byUuid == s.byUuid && s'.nextSerial == s.nextSerial
  }

  /** What follows a successful pop: the job is running in `c`, the consumer of
    * the generator (the parent channel) queues it, and a throttled channel pauses. */
  function Launched(cfg: Config, s: Sched, c: nat, j: Job, now: int): Sched
    requires ValidConfig(cfg) && |s.chans| == |cfg.parent| && c < |cfg.parent|
  {
    var ch := s.chans[c];
    var s1 := s.(chans := s.chans[c := ch.(running := ch.running + {j},
                                           pause := if cfg.throttle[c] != 0 then now + cfg.throttle[c] else ch.pause)]);
    if c == 0 then s1 else Enqueue(s1, cfg.parent[c], j)
  }

  ghost predicate SameMembership(s: Sched, s': Sched, k: Job) {
    && |s'.chans| == |s.chans|
    && forall c ::
         && (Queued(s', c, k) <==> Queued(s, c, k))
         && (Running(s', c, k) <==> Running(s, c, k))
         && (HasFailed(s', c, k) <==> HasFailed(s, c, k))
  }

  lemma PopMembership(cfg: Config, s: Sched, c: nat, now: int, s': Sched, r: Option<Job>, k: Job)
    requires Inv(cfg, s) && c < |cfg.parent| && PopAt(cfg, s, c, now, s', r)
    ensures r != Some(k) ==> SameMembership(s, s', k)
    ensures r == Some(k) ==> Queued(s, c, k) && !Queued(s', c, k) && k in s'.eta && s'.eta[k] == 0
    ensures r == Some(k) ==> forall d ::
         && (d != c ==> (Queued(s', d, k) <==> Queued(s, d, k)))
         && (Running(s', d, k) <==> Running(s, d, k))
         && (HasFailed(s', d, k) <==> HasFailed(s, d, k))
  {
    assert ChanHeapsSound(s, c);
  }

  lemma PopHeaps(cfg: Config, s: Sched, c: nat, now: int, s': Sched, r: Option<Job>)
    requires Inv(cfg, s) && c < |cfg.parent| && PopAt(cfg, s, c, now, s', r)
    ensures HeapsSound(s') && TableSound(cfg, s')
  {
    assert ChanHeapsSound(s, c);
    forall d | 0 <= d < |s'.chans| ensures ChanHeapsSound(s', d) {
      assert ChanHeapsSound(s, d);
    }
  }

  lemma PopPauses(cfg: Config, s: Sched, c: nat, now: int, s': Sched, r: Option<Job>)
    requires Inv(cfg, s) && c < |cfg.parent| && PopAt(cfg, s, c, now, s', r)
    ensures PausesSound(cfg, s')
  {
    forall d | 0 <= d < |cfg.parent| && cfg.throttle[d] == 0 ensures s'.chans[d].pause == 0 {
      assert s.chans[d].pause == 0;
    }
  }

  lemma SameMembershipSamePlace(cfg: Config, s: Sched, s': Sched, k: Job, p: Place)
    requires ValidConfig(cfg) && SameMembership(s, s', k) && At(cfg, s, k, p)
    ensures At(cfg, s', k, p)
  {
  }

  lemma PopNothingWorks(cfg: Config, s: Sched, c: nat, now: int, s': Sched)
    requires Inv(cfg, s) && c < |cfg.parent| && PopAt(cfg, s, c, now, s', None)
    ensures Inv(cfg, s')
    ensures forall k :: SameMembership(s, s', k)
  {
    PopHeaps(cfg, s, c, now, s', None);
    PopPauses(cfg, s, c, now, s', None);
    forall k
      ensures SameMembership(s, s', k)
      ensures if Current(s', k) then exists q :: At(cfg, s', k, q) else At(cfg, s', k, Nowhere)
    {
      PopMembership(cfg, s, c, now, s', None, k);
      if Current(s, k) {
        var q :| At(cfg, s, k, q);
        SameMembershipSamePlace(cfg, s, s', k, q);
      } else {
        SameMembershipSamePlace(cfg, s, s', k, Nowhere);
      }
    }
  }

  /** Passing from the queue of `c` to the queue of its parent is one place on. */
  lemma PlaceAdvances(cfg: Config, j: Job, c: nat, d: nat)
    requires ValidConfig(cfg) && j.chan < |cfg.parent| && OnPath(cfg, j.chan, c) && d < |cfg.parent|
    requires c < |cfg.parent|
    ensures RunsAt(cfg, j, if c == 0 then RunningToRoot else QueuedIn(cfg.parent[c]), d)
            <==> RunsAt(cfg, j, QueuedIn(c), d) || d == c
  {
    if OnPath(cfg, j.chan, d) {
      PathIsLinear(cfg, j.chan, c, d);
      if OnPath(cfg, c, d) {
        PathGoesDown(cfg, c, d);
        if OnPath(cfg, d, c) {
          PathGoesDown(cfg, d, c);
        }
        if c > 0 && OnPath(cfg, d, cfg.parent[c]) {
          PathGoesDown(cfg, d, cfg.parent[c]);
          if d != c {
            PathGoesDown(cfg, cfg.parent[c], d);
          }
        }
      } else {
        PathGoesDown(cfg, d, c);
      }
    }
  }

  /** Where a job that has just been popped is after its launch. */
  lemma LaunchedMembership(cfg: Config, s: Sched, c: nat, now: int, j: Job, d: nat)
    requires ValidConfig(cfg) && |s.chans| == |cfg.parent| && c < |cfg.parent| && d < |cfg.parent|
    requires j in s.eta && s.eta[j] == 0
    ensures var s' := Launched(cfg, s, c, j, now);
      && (Queued(s', d, j) <==> Queued(s, d, j) || (c > 0 && d == cfg.parent[c]))
      && (Running(s', d, j) <==> Running(s, d, j) || d == c)
      && (HasFailed(s', d, j) <==> HasFailed(s, d, j))
  {
  }

  /** A launched job moves exactly one channel on; nobody else moves. */
  lemma LaunchWorks(cfg: Config, s: Sched, c: nat, now: int, s1: Sched, j: Job)
    requires Inv(cfg, s) && c < |cfg.parent| && PopAt(cfg, s, c, now, s1, Some(j))
    ensures var s' := Launched(cfg, s1, c, j, now);
      && Inv(cfg, s')
      && Current(s', j) && At(cfg, s, j, QueuedIn(c))
      && At(cfg, s', j, if c == 0 then RunningToRoot else QueuedIn(cfg.parent[c]))
      && forall k :: k != j ==> SameMembership(s, s', k)
  {
    var s' := Launched(cfg, s1, c, j, now);
    PopHeaps(cfg, s, c, now, s1, Some(j));
    PopMembership(cfg, s, c, now, s1, Some(j), j);
    PopPauses(cfg, s, c, now, s1, Some(j));
    assert Queued(s, c, j);
    assert Current(s, j);
    var p :| At(cfg, s, j, p);
    assert p == QueuedIn(c);
    var p' := if c == 0 then RunningToRoot else QueuedIn(cfg.parent[c]);
    PathGoesDown(cfg, j.chan, c);
    forall d: nat | d < |cfg.parent|
      ensures RunsAt(cfg, j, p', d) <==> RunsAt(cfg, j, p, d) || d == c
    {
      PlaceAdvances(cfg, j, c, d);
    }
    forall d: nat | d < |cfg.parent|
      ensures Queued(s', d, j) <==> p' == QueuedIn(d)
      ensures Running(s', d, j) <==> RunsAt(cfg, j, p', d)
      ensures HasFailed(s', d, j) <==> p' == InFailed && d == j.chan
    {
      LaunchedMembership(cfg, s1, c, now, j, d);
      assert Queued(s, d, j) <==> d == c;
    }
    assert At(cfg, s', j, p');
    LaunchedHeaps(cfg, s1, c, j, now);
    forall k | k != j
      ensures SameMembership(s, s', k)
    {
      PopMembership(cfg, s, c, now, s1, Some(j), k);
    }
    forall k
      ensures if Current(s', k) then exists q :: At(cfg, s', k, q) else At(cfg, s', k, Nowhere)
    {
      if k == j {
      } else if Current(s, k) {
        var q :| At(cfg, s, k, q);
        SameMembershipSamePlace(cfg, s, s', k, q);
      } else {
        SameMembershipSamePlace(cfg, s, s', k, Nowhere);
      }
    }
  }

  lemma LaunchedHeaps(cfg: Config, s: Sched, c: nat, j: Job, now: int)
    requires ValidConfig(cfg) && |s.chans| == |cfg.parent| && c < |cfg.parent|
    requires HeapsSound(s) && TableSound(cfg, s) && j in s.eta && s.eta[j] == 0
    ensures HeapsSound(Launched(cfg, s, c, j, now)) && TableSound(cfg, Launched(cfg, s, c, j, now))
  {
    var s' := Launched(cfg, s, c, j, now);
    forall d | 0 <= d < |s'.chans| ensures ChanHeapsSound(s', d) {
      assert ChanHeapsSound(s, d);
    }
  }

  // -------------------------------------------------------------------- steps

  datatype Step =
    | Notified(u: nat, db: nat, chan: nat, key: Key, eta: int, st: JobState)
    | Removed(u: nat)
    | Launch(c: nat, now: int, job: Job)
    | NothingReady(c: nat, now: int)
    | Unpause(c: nat, now: int)
    | Purge(c: nat)
    | Forget(u: nat)

  /** One operation of the manager, or one iteration inside `get_jobs_to_run`.
    * `Purge` drops removed entries from the heaps of a channel (peeking does);
    * `Forget` is the weak table losing an object that nothing refers to. */
  ghost predicate Next(cfg: Config, s: Sched, s': Sched, step: Step)
    requires Inv(cfg, s)
  {
    match step
    case Notified(u, db, chan, key, eta, st) =>
      NotifyAllowed(cfg, s, u, db, chan, key) && s' == Notify(cfg, s, u, db, chan, key, eta, st)
    case Removed(u) => s' == RemoveJob(cfg, s, u)
    case Launch(c, now, job) =>
      && c < |cfg.parent| && HasCapacity(cfg, s, c)
      && (cfg.throttle[c] == 0 || s.chans[c].pause == 0)
      && exists s1 :: PopAt(cfg, s, c, now, s1, Some(job)) && s' == Launched(cfg, s1, c, job, now)
    case NothingReady(c, now) =>
      c < |cfg.parent| && PopAt(cfg, s, c, now, s', None)
    case Unpause(c, now) =>
      && c < |cfg.parent| && cfg.throttle[c] != 0 && s.chans[c].pause != 0 && s.chans[c].pause <= now
      && s' == s.(chans := s.chans[c := s.chans[c].(pause := 0)])
    case Purge(c) =>
      && c < |cfg.parent| && |s'.chans| == |s.chans|
      && s.chans[c].ready <= s'.chans[c].readyHeap <= s.chans[c].readyHeap
      && s.chans[c].waiting <= s'.chans[c].waitHeap <= s.chans[c].waitHeap
      && s' == s.(chans := s.chans[c := s.chans[c].(readyHeap := s'.chans[c].readyHeap, waitHeap := s'.chans[c].waitHeap)])
    case Forget(u) =>
      && u in s.byUuid && At(cfg, s, s.byUuid[u], Nowhere)
      && (forall c :: 0 <= c < |s.chans| ==> s.byUuid[u] !in s.chans[c].readyHeap && s.byUuid[u] !in s.chans[c].waitHeap)
      && s' == s.(byUuid := s.byUuid - {u})
  }

  /** A change of pauses, heap leftovers or unused table entries moves no job. */
  lemma HousekeepingKeepsInv(cfg: Config, s: Sched, s': Sched, step: Step)
    requires Inv(cfg, s) && Next(cfg, s, s', step)
    requires step.Unpause? || step.Purge? || step.Forget?
    ensures Inv(cfg, s') && forall k :: SameMembership(s, s', k)
  {
    forall k
      ensures SameMembership(s, s', k)
      ensures if Current(s', k) then exists q :: At(cfg, s', k, q) else At(cfg, s', k, Nowhere)
    {
      assert SameMembership(s, s', k);
      if Current(s, k) {
        var q :| At(cfg, s, k, q);
        SameMembershipSamePlace(cfg, s, s', k, q);
      } else {
        SameMembershipSamePlace(cfg, s, s', k, Nowhere);
      }
      if step.Forget? && k == s.byUuid[step.u] {
        SameMembershipSamePlace(cfg, s, s', k, Nowhere);
      }
    }
    forall d | 0 <= d < |s'.chans| ensures ChanHeapsSound(s', d) {
      assert ChanHeapsSound(s, d);
    }
  }

  /** Every step keeps the invariant: each job object has exactly one place. */
  lemma NextKeepsInv(cfg: Config, s: Sched, s': Sched, step: Step)
    requires Inv(cfg, s) && Next(cfg, s, s', step)
    ensures Inv(cfg, s')
  {
    match step
    case Notified(u, db, chan, key, eta, st) => var _ := NotifyWorks(cfg, s, u, db, chan, key, eta, st);
    case Removed(u) => RemoveJobWorks(cfg, s, u);
    case Launch(c, now, job) =>
      var s1 :| PopAt(cfg, s, c, now, s1, Some(job)) && s' == Launched(cfg, s1, c, job, now);
      LaunchWorks(cfg, s, c, now, s1, job);
    case NothingReady(c, now) => PopNothingWorks(cfg, s, c, now, s');
    case Unpause(_, _) => HousekeepingKeepsInv(cfg, s, s', step);
    case Purge(_) => HousekeepingKeepsInv(cfg, s, s', step);
    case Forget(_) => HousekeepingKeepsInv(cfg, s, s', step);
  }

  /** No step changes the sort key of an entry that stays in a heap, not even of
    * an entry that was removed lazily: etas are cleared outside the heaps. */
  lemma HeapKeysNeverChange(cfg: Config, s: Sched, s': Sched, step: Step, c: nat, j: Job)
    requires Inv(cfg, s) && Next(cfg, s, s', step)
    requires c < |cfg.parent| && |s'.chans| == |s.chans|
    requires (j in s.chans[c].readyHeap && j in s'.chans[c].readyHeap)
          || (j in s.chans[c].waitHeap && j in s'.chans[c].waitHeap)
    ensures Eta(s', j) == Eta(s, j)
  {
    NextKeepsInv(cfg, s, s', step);
    assert ChanHeapsSound(s, c) && ChanHeapsSound(s', c);
    match step
    case Notified(u, db, chan, key, eta, st) => var _ := NotifyWorks(cfg, s, u, db, chan, key, eta, st);
    case Removed(u) => RemoveJobWorks(cfg, s, u);
    case _ =>
  }

}
