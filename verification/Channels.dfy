/** The scheduler's memory: a tree of channels, the jobs queued, running and
  * failed in each of them, and the operations of `Channel` and
  * `ChannelManager` as functions on that memory.
  */
module Channels {
  import opened ChannelJobs

  // ---------------------------------------------------------------- the tree

  /** Channels are numbered in creation order. Channel 0 is the root and every
    * other channel is created after its parent. A capacity of 0 means
    * "unlimited", a throttle of 0 means "none". */
  datatype Config = Config(parent: seq<nat>, capacity: seq<int>, sequential: seq<bool>, throttle: seq<nat>)

  ghost predicate ValidConfig(cfg: Config) {
    && |cfg.parent| > 0
    && |cfg.capacity| == |cfg.sequential| == |cfg.throttle| == |cfg.parent|
    && forall c :: 0 < c < |cfg.parent| ==> cfg.parent[c] < c
  }

  /** Channel `d` lies on the way from channel `c` down to the root. */
  predicate OnPath(cfg: Config, c: nat, d: nat)
    requires ValidConfig(cfg) && c < |cfg.parent|
  {
    c == d || (c > 0 && OnPath(cfg, cfg.parent[c], d))
  }

  lemma {:induction false} PathGoesDown(cfg: Config, c: nat, d: nat)
    requires ValidConfig(cfg) && c < |cfg.parent| && OnPath(cfg, c, d)
    ensures d <= c
    ensures d > 0 ==> OnPath(cfg, c, cfg.parent[d])
  {
    if c != d {
      PathGoesDown(cfg, cfg.parent[c], d);
    }
  }

  lemma {:induction false} PathReachesRoot(cfg: Config, c: nat)
    requires ValidConfig(cfg) && c < |cfg.parent|
    ensures OnPath(cfg, c, 0)
  {
    if c > 0 {
      PathReachesRoot(cfg, cfg.parent[c]);
    }
  }

  /** Two channels on one path: one is downstream of the other. */
  lemma {:induction false} PathIsLinear(cfg: Config, c: nat, d: nat, e: nat)
    requires ValidConfig(cfg) && c < |cfg.parent| && OnPath(cfg, c, d) && OnPath(cfg, c, e)
    ensures d < |cfg.parent| && e < |cfg.parent|
    ensures OnPath(cfg, d, e) || OnPath(cfg, e, d)
  {
    PathGoesDown(cfg, c, d);
    PathGoesDown(cfg, c, e);
    if c != d && c != e {
      PathIsLinear(cfg, cfg.parent[c], d, e);
    }
  }

  /** A path enters a channel from one child only. */
  lemma PathChildUnique(cfg: Config, c: nat, d: nat, e: nat)
    requires ValidConfig(cfg) && c < |cfg.parent| && OnPath(cfg, c, d) && OnPath(cfg, c, e)
    requires 0 < d < |cfg.parent| && 0 < e < |cfg.parent| && cfg.parent[d] == cfg.parent[e]
    ensures d == e
  {
    PathIsLinear(cfg, c, d, e);
    if d != e {
      if OnPath(cfg, d, e) {
        PathGoesDown(cfg, cfg.parent[d], e);
      } else {
        PathGoesDown(cfg, cfg.parent[e], d);
      }
    }
  }

  /** The child of `c` through which the path of `e` goes. */
  lemma {:induction false} ChildTowards(cfg: Config, c: nat, e: nat) returns (x: nat)
    requires ValidConfig(cfg) && e < |cfg.parent| && OnPath(cfg, e, c) && e != c
    ensures c < x < |cfg.parent| && cfg.parent[x] == c && OnPath(cfg, e, x)
  {
    if cfg.parent[e] == c {
      x := e;
    } else {
      x := ChildTowards(cfg, c, cfg.parent[e]);
    }
  }

  lemma {:induction false} PathTransitive(cfg: Config, c: nat, d: nat, e: nat)
    requires ValidConfig(cfg) && c < |cfg.parent| && d < |cfg.parent| && OnPath(cfg, c, d) && OnPath(cfg, d, e)
    ensures OnPath(cfg, c, e)
  {
    if c != d {
      PathTransitive(cfg, cfg.parent[c], d, e);
    }
  }

  // -------------------------------------------------------------- the memory

  /** A job object. `serial` is its identity: a rescheduled job is a new object
    * with a new serial. Only the eta of an object ever changes. */
  datatype Job = Job(uuid: nat, db: nat, chan: nat, key: Key, serial: nat)

  function JobKey(j: Job): Key { j.key }

  /** One channel. `ready` and `waiting` are the live members of the two
    * priority queues; `readyHeap` and `waitHeap` are all entries of their heaps,
    * including those that were removed but are still physically present. */
  datatype Chan = Chan(
    ready: set<Job>, waiting: set<Job>,
    readyHeap: set<Job>, waitHeap: set<Job>,
    running: set<Job>, failed: set<Job>, pause: int)

  /** The whole memory. `eta` is the eta attribute of every job object,
    * `byUuid` the manager's table of current objects. */
  datatype Sched = Sched(chans: seq<Chan>, eta: map<Job, int>, byUuid: map<nat, Job>, nextSerial: nat)

  const EMPTY_CHAN := Chan({}, {}, {}, {}, {}, {}, 0)

  function EmptySched(cfg: Config): Sched {
    Sched(seq(|cfg.parent|, _ => EMPTY_CHAN), map[], map[], 0)
  }

  function Eta(s: Sched, j: Job): int {
    if j in s.eta then s.eta[j] else 0
  }

  predicate Queued(s: Sched, c: nat, j: Job) {
    c < |s.chans| && (j in s.chans[c].ready || j in s.chans[c].waiting)
  }

  predicate Running(s: Sched, c: nat, j: Job) {
    c < |s.chans| && j in s.chans[c].running
  }

  predicate HasFailed(s: Sched, c: nat, j: Job) {
    c < |s.chans| && j in s.chans[c].failed
  }

  // -------------------------------------------------------------- invariants

  /** Where a job is: in no channel, failed in its own channel, queued in one
    * channel of its path and running in all channels before it, or running in
    * its whole path down to the root. */
  datatype Place = Nowhere | InFailed | QueuedIn(c: nat) | RunningToRoot

  /** The channels that run a job found at place `p`. */
  predicate RunsAt(cfg: Config, j: Job, p: Place, c: nat)
    requires ValidConfig(cfg) && c < |cfg.parent|
  {
    match p
    case Nowhere => false
    case InFailed => false
    case QueuedIn(q) => j.chan < |cfg.parent| && OnPath(cfg, j.chan, c) && c != q && OnPath(cfg, c, q)
    case RunningToRoot => j.chan < |cfg.parent| && OnPath(cfg, j.chan, c)
  }

  /** Job `j` is exactly at place `p`: it is in the queue, the running set and the
    * failed set of a channel if and only if the place says so. */
  ghost predicate At(cfg: Config, s: Sched, j: Job, p: Place)
    requires ValidConfig(cfg)
  {
    && (p.QueuedIn? ==> j.chan < |cfg.parent| && OnPath(cfg, j.chan, p.c))
    && forall c: nat :: c < |cfg.parent| ==>
         && (Queued(s, c, j) <==> p == QueuedIn(c))
         && (Running(s, c, j) <==> RunsAt(cfg, j, p, c))
         && (HasFailed(s, c, j) <==> p == InFailed && c == j.chan)
  }

  ghost predicate Current(s: Sched, j: Job) {
    j.uuid in s.byUuid && s.byUuid[j.uuid] == j
  }

  /** Every job has a place, and only the current object of a uuid is anywhere. */
  ghost predicate Placed(cfg: Config, s: Sched)
    requires ValidConfig(cfg)
  {
    forall j :: if Current(s, j) then exists p :: At(cfg, s, j, p) else At(cfg, s, j, Nowhere)
  }

  /** Table entries point to objects of that uuid, in an existing channel. */
  ghost predicate TableSound(cfg: Config, s: Sched) {
    forall u :: u in s.byUuid ==>
      && s.byUuid[u].uuid == u && s.byUuid[u].chan < |cfg.parent|
      && s.byUuid[u] in s.eta
  }

  /** The heaps: live members are entries; the eta heap only holds entries that
    * have an eta, and only in their own channel; the ready heap only entries
    * without one. Serials already used are below `nextSerial`. */
  ghost predicate HeapsSound(s: Sched) {
    && (forall c :: 0 <= c < |s.chans| ==> ChanHeapsSound(s, c))
    && (forall j :: j in s.eta ==> j.serial < s.nextSerial)
  }

  ghost predicate ChanHeapsSound(s: Sched, c: nat)
    requires c < |s.chans|
  {
    && s.chans[c].ready <= s.chans[c].readyHeap
    && s.chans[c].waiting <= s.chans[c].waitHeap
    && (forall j :: j in s.chans[c].readyHeap ==> j in s.eta && s.eta[j] == 0)
    && (forall j :: j in s.chans[c].waitHeap ==> j in s.eta && s.eta[j] != 0 && j.chan == c)
  }

  /** Only throttled channels are ever paused. */
  ghost predicate PausesSound(cfg: Config, s: Sched)
    requires ValidConfig(cfg) && |s.chans| == |cfg.parent|
  {
    forall c :: 0 <= c < |cfg.parent| && cfg.throttle[c] == 0 ==> s.chans[c].pause == 0
  }

  ghost predicate Inv(cfg: Config, s: Sched) {
    && ValidConfig(cfg)
    && |s.chans| == |cfg.parent|
    && PausesSound(cfg, s)
    && Placed(cfg, s)
    && TableSound(cfg, s)
    && HeapsSound(s)
  }

  lemma EmptyInv(cfg: Config)
    requires ValidConfig(cfg)
    ensures Inv(cfg, EmptySched(cfg))
  {
    forall j ensures At(cfg, EmptySched(cfg), j, Nowhere) {
    }
  }

  /** A job has one place only. */
  lemma PlaceUnique(cfg: Config, s: Sched, j: Job, p: Place, q: Place)
    requires ValidConfig(cfg) && j.chan < |cfg.parent| && At(cfg, s, j, p) && At(cfg, s, j, q)
    ensures p == q
  {
    PathReachesRoot(cfg, j.chan);
    assert Queued(s, 0, j) || !Queued(s, 0, j);
    assert HasFailed(s, j.chan, j) || !HasFailed(s, j.chan, j);
    assert Running(s, 0, j) || !Running(s, 0, j);
    if p.QueuedIn? {
      PathGoesDown(cfg, j.chan, p.c);
      assert Queued(s, p.c, j);
    }
    if q.QueuedIn? {
      PathGoesDown(cfg, j.chan, q.c);
      assert Queued(s, q.c, j);
    }
  }

  /** Only a job that runs in its whole path runs in the root channel. */
  lemma RootPlace(cfg: Config, s: Sched, j: Job, p: Place)
    requires ValidConfig(cfg) && j.chan < |cfg.parent| && At(cfg, s, j, p)
    ensures Running(s, 0, j) <==> p == RunningToRoot
    ensures p == RunningToRoot ==> forall c: nat :: c < |cfg.parent| ==> !Queued(s, c, j)
  {
    PathReachesRoot(cfg, j.chan);
    assert Running(s, 0, j) <==> RunsAt(cfg, j, p, 0);
  }

  // ------------------------------------------- Channel.remove and Channel.set_*

  function Drop(ch: Chan, j: Job): Chan {
    ch.(ready := ch.ready - {j}, waiting := ch.waiting - {j}, running := ch.running - {j}, failed := ch.failed - {j})
  }

  /** `Channel.remove`: the job leaves channel `c` and everything downstream. */
  function RemoveFrom(cfg: Config, s: Sched, c: nat, j: Job): Sched
    requires ValidConfig(cfg) && |s.chans| == |cfg.parent| && c < |cfg.parent|
  {
    s.(chans := seq(|s.chans|, d requires 0 <= d < |s.chans| =>
                    if OnPath(cfg, c, d) then Drop(s.chans[d], j) else s.chans[d]))
  }

  /** `ChannelQueue.add`: jobs with an eta wait, others are ready. */
  function Enqueue(s: Sched, c: nat, j: Job): Sched
    requires c < |s.chans|
  {
    var ch := s.chans[c];
    if Eta(s, j) != 0 then
      s.(chans := s.chans[c := ch.(waiting := ch.waiting + {j}, waitHeap := ch.waitHeap + {j})])
    else
      s.(chans := s.chans[c := ch.(ready := ch.ready + {j}, readyHeap := ch.readyHeap + {j})])
  }

  /** The part of a channel's own `set_*` methods that passes on to the parent. */
  function RemoveDownstream(cfg: Config, s: Sched, c: nat, j: Job): Sched
    requires ValidConfig(cfg) && |s.chans| == |cfg.parent| && c < |cfg.parent|
  {
    if c == 0 then s else RemoveFrom(cfg, s, cfg.parent[c], j)
  }

  /** `Channel.set_pending` on the job's own channel. */
  function SetPending(cfg: Config, s: Sched, j: Job): Sched
    requires ValidConfig(cfg) && |s.chans| == |cfg.parent| && j.chan < |cfg.parent|
  {
    var c := j.chan;
    if Queued(s, c, j) then s
    else
      var s1 := Enqueue(s, c, j);
      var s2 := s1.(chans := s1.chans[c := s1.chans[c].(running := s1.chans[c].running - {j},
                                                        failed := s1.chans[c].failed - {j})]);
      RemoveDownstream(cfg, s2, c, j)
  }

  /** `Channel.set_running`, which stops at the first channel that already runs
    * the job. */
  function SetRunning(cfg: Config, s: Sched, c: nat, j: Job): Sched
    requires ValidConfig(cfg) && |s.chans| == |cfg.parent| && c < |cfg.parent|
    decreases c
  {
    if Running(s, c, j) then s
    else
      var ch := s.chans[c];
      var s1 := s.(chans := s.chans[c := ch.(ready := ch.ready - {j}, waiting := ch.waiting - {j},
                                             running := ch.running + {j}, failed := ch.failed - {j})]);
      if c == 0 then s1 else SetRunning(cfg, s1, cfg.parent[c], j)
  }

  /** `Channel.set_failed` on the job's own channel. */
  function SetFailed(cfg: Config, s: Sched, j: Job): Sched
    requires ValidConfig(cfg) && |s.chans| == |cfg.parent| && j.chan < |cfg.parent|
  {
    var c := j.chan;
    if HasFailed(s, c, j) then s
    else
      var ch := s.chans[c];
      var s1 := s.(chans := s.chans[c := ch.(ready := ch.ready - {j}, waiting := ch.waiting - {j},
                                             running := ch.running - {j}, failed := ch.failed + {j})]);
      RemoveDownstream(cfg, s1, c, j)
  }

  /** Other jobs, the job table and the etas stay as they were. */
  ghost predicate OnlyMoves(s: Sched, s': Sched, j: Job) {
    && |s'.chans| == |s.chans|
    && s'.eta == s.eta && s'.byUuid == s.byUuid && s'.nextSerial == s.nextSerial
    && (forall c :: 0 <= c < |s.chans| ==> s'.chans[c].pause == s.chans[c].pause)
    && forall c, k :: k != j ==>
         && (Queued(s', c, k) <==> Queued(s, c, k))
         && (Running(s', c, k) <==> Running(s, c, k))
         && (HasFailed(s', c, k) <==> HasFailed(s, c, k))
  }

  lemma OtherPlacesKept(cfg: Config, s: Sched, s': Sched, j: Job, k: Job, p: Place)
    requires ValidConfig(cfg) && OnlyMoves(s, s', j) && k != j && At(cfg, s, k, p)
    ensures At(cfg, s', k, p)
  {
  }

  /** A move of one current job to a definite place keeps the invariant. */
  lemma MoveKeepsInv(cfg: Config, s: Sched, s': Sched, j: Job, p: Place)
    requires Inv(cfg, s) && OnlyMoves(s, s', j) && HeapsSound(s')
    requires Current(s, j) || p == Nowhere
    requires At(cfg, s', j, p)
    ensures Inv(cfg, s')
  {
    forall k | k != j
      ensures if Current(s', k) then exists q :: At(cfg, s', k, q) else At(cfg, s', k, Nowhere)
    {
      if Current(s, k) {
        var q :| At(cfg, s, k, q);
        OtherPlacesKept(cfg, s, s', j, k, q);
      } else {
        OtherPlacesKept(cfg, s, s', j, k, Nowhere);
      }
    }
    assert Placed(cfg, s') by {
      forall k
        ensures if Current(s', k) then exists q :: At(cfg, s', k, q) else At(cfg, s', k, Nowhere)
      {
        assert Current(s', k) <==> Current(s, k);
      }
    }
  }

  /** A job is only in channels of its path. */
  lemma PlacedOnPath(cfg: Config, s: Sched, j: Job, p: Place, d: nat)
    requires ValidConfig(cfg) && j.chan < |cfg.parent| && At(cfg, s, j, p) && d < |cfg.parent|
    ensures Queued(s, d, j) || Running(s, d, j) || HasFailed(s, d, j) ==> OnPath(cfg, j.chan, d)
  {
    assert Running(s, d, j) <==> RunsAt(cfg, j, p, d);
  }

  lemma RemoveFromMoves(cfg: Config, s: Sched, c: nat, j: Job)
    requires ValidConfig(cfg) && |s.chans| == |cfg.parent| && c < |cfg.parent| && HeapsSound(s)
    ensures var s' := RemoveFrom(cfg, s, c, j);
      && OnlyMoves(s, s', j) && HeapsSound(s')
      && forall d: nat :: d < |s.chans| ==>
           && (Queued(s', d, j) <==> Queued(s, d, j) && !OnPath(cfg, c, d))
           && (Running(s', d, j) <==> Running(s, d, j) && !OnPath(cfg, c, d))
           && (HasFailed(s', d, j) <==> HasFailed(s, d, j) && !OnPath(cfg, c, d))
  {
    var s' := RemoveFrom(cfg, s, c, j);
    forall d | 0 <= d < |s'.chans| ensures ChanHeapsSound(s', d) {
      assert ChanHeapsSound(s, d);
    }
  }

  /** `Channel.remove` on its own channel takes a job out of the whole tree. */
  lemma RemoveWorks(cfg: Config, s: Sched, j: Job)
    requires Inv(cfg, s) && Current(s, j)
    ensures Inv(cfg, RemoveFrom(cfg, s, j.chan, j))
    ensures OnlyMoves(s, RemoveFrom(cfg, s, j.chan, j), j)
    ensures At(cfg, RemoveFrom(cfg, s, j.chan, j), j, Nowhere)
  {
    var s' := RemoveFrom(cfg, s, j.chan, j);
    RemoveFromMoves(cfg, s, j.chan, j);
    var p :| At(cfg, s, j, p);
    forall d: nat | d < |cfg.parent| ensures !Queued(s', d, j) && !Running(s', d, j) && !HasFailed(s', d, j) {
      PlacedOnPath(cfg, s, j, p, d);
    }
    assert At(cfg, s', j, Nowhere);
    MoveKeepsInv(cfg, s, s', j, Nowhere);
  }

  /** One channel's record replaced; the others stay. */
  lemma EnqueueMoves(cfg: Config, s: Sched, c: nat, j: Job)
    requires ValidConfig(cfg) && |s.chans| == |cfg.parent| && c < |cfg.parent| && HeapsSound(s)
    requires j in s.eta && (s.eta[j] != 0 ==> c == j.chan)
    ensures var s' := Enqueue(s, c, j);
      && OnlyMoves(s, s', j) && HeapsSound(s')
      && forall d: nat :: d < |s.chans| ==>
           && (Queued(s', d, j) <==> Queued(s, d, j) || d == c)
           && (Running(s', d, j) <==> Running(s, d, j))
           && (HasFailed(s', d, j) <==> HasFailed(s, d, j))
  {
    var s' := Enqueue(s, c, j);
    forall d | 0 <= d < |s'.chans| ensures ChanHeapsSound(s', d) {
      assert ChanHeapsSound(s, d);
    }
  }

  /** `Channel.set_pending` puts a job into the queue of its own channel only. */
  lemma SetPendingWorks(cfg: Config, s: Sched, j: Job)
    requires Inv(cfg, s) && Current(s, j)
    ensures Inv(cfg, SetPending(cfg, s, j)) && OnlyMoves(s, SetPending(cfg, s, j), j)
    ensures At(cfg, SetPending(cfg, s, j), j, QueuedIn(j.chan))
  {
    var c := j.chan;
    var p :| At(cfg, s, j, p);
    if Queued(s, c, j) {
      assert p == QueuedIn(c);
    } else {
      var s1 := Enqueue(s, c, j);
      EnqueueMoves(cfg, s, c, j);
      var s2 := s1.(chans := s1.chans[c := s1.chans[c].(running := s1.chans[c].running - {j},
                                                        failed := s1.chans[c].failed - {j})]);
      assert HeapsSound(s2) by {
        forall d | 0 <= d < |s2.chans| ensures ChanHeapsSound(s2, d) {
          assert ChanHeapsSound(s1, d);
        }
      }
      assert OnlyMoves(s1, s2, j);
      if c > 0 {
        RemoveFromMoves(cfg, s2, cfg.parent[c], j);
        if OnPath(cfg, cfg.parent[c], c) {
          PathGoesDown(cfg, cfg.parent[c], c);
        }
      }
      var s' := SetPending(cfg, s, j);
      forall d: nat | d < |cfg.parent|
        ensures (Queued(s', d, j) <==> d == c) && !Running(s', d, j) && !HasFailed(s', d, j)
      {
        assert s' == if c == 0 then s2 else RemoveFrom(cfg, s2, cfg.parent[c], j);
        assert RunsAt(cfg, j, p, d) ==> OnPath(cfg, c, d);
      }
      assert At(cfg, s', j, QueuedIn(c)) by {
        forall d: nat | d < |cfg.parent| ensures !RunsAt(cfg, j, QueuedIn(c), d) {
          if RunsAt(cfg, j, QueuedIn(c), d) {
            PathGoesDown(cfg, c, d);
            PathGoesDown(cfg, d, c);
          }
        }
      }
      MoveKeepsInv(cfg, s, s', j, QueuedIn(c));
    }
  }

  /** `Channel.set_failed` marks a job failed in its own channel only. */
  lemma SetFailedWorks(cfg: Config, s: Sched, j: Job)
    requires Inv(cfg, s) && Current(s, j)
    ensures Inv(cfg, SetFailed(cfg, s, j)) && OnlyMoves(s, SetFailed(cfg, s, j), j)
    ensures At(cfg, SetFailed(cfg, s, j), j, InFailed)
  {
    var c := j.chan;
    var p :| At(cfg, s, j, p);
    if HasFailed(s, c, j) {
      assert p == InFailed;
    } else {
      var ch := s.chans[c];
      var s1 := s.(chans := s.chans[c := ch.(ready := ch.ready - {j}, waiting := ch.waiting - {j},
                                             running := ch.running - {j}, failed := ch.failed + {j})]);
      assert HeapsSound(s1) by {
        forall d | 0 <= d < |s1.chans| ensures ChanHeapsSound(s1, d) {
          assert ChanHeapsSound(s, d);
        }
      }
      assert OnlyMoves(s, s1, j);
      if c > 0 {
        RemoveFromMoves(cfg, s1, cfg.parent[c], j);
        if OnPath(cfg, cfg.parent[c], c) {
          PathGoesDown(cfg, cfg.parent[c], c);
        }
      }
      var s' := SetFailed(cfg, s, j);
      assert s' == if c == 0 then s1 else RemoveFrom(cfg, s1, cfg.parent[c], j);
      forall d: nat | d < |cfg.parent|
        ensures !Queued(s', d, j) && !Running(s', d, j) && (HasFailed(s', d, j) <==> d == c)
      {
        PlacedOnPath(cfg, s, j, p, d);
      }
      assert At(cfg, s', j, InFailed);
      MoveKeepsInv(cfg, s, s', j, InFailed);
    }
  }

  /** From a channel on its path where it is not running anywhere downstream,
    * `set_running` marks the job running in the rest of its path. */
  lemma {:induction false} SetRunningFrom(cfg: Config, s: Sched, c: nat, j: Job)
    requires ValidConfig(cfg) && |s.chans| == |cfg.parent| && c < |cfg.parent| && HeapsSound(s)
    requires forall d: nat :: d < |cfg.parent| && OnPath(cfg, c, d) ==> !Running(s, d, j)
    ensures var s' := SetRunning(cfg, s, c, j);
      && OnlyMoves(s, s', j) && HeapsSound(s')
      && forall d: nat :: d < |s.chans| ==>
           && (Queued(s', d, j) <==> Queued(s, d, j) && !OnPath(cfg, c, d))
           && (Running(s', d, j) <==> Running(s, d, j) || OnPath(cfg, c, d))
           && (HasFailed(s', d, j) <==> HasFailed(s, d, j) && !OnPath(cfg, c, d))
    decreases c
  {
    var ch := s.chans[c];
    var s1 := s.(chans := s.chans[c := ch.(ready := ch.ready - {j}, waiting := ch.waiting - {j},
                                           running := ch.running + {j}, failed := ch.failed - {j})]);
    assert HeapsSound(s1) by {
      forall d | 0 <= d < |s1.chans| ensures ChanHeapsSound(s1, d) {
        assert ChanHeapsSound(s, d);
      }
    }
    assert OnlyMoves(s, s1, j);
    if c > 0 {
      forall d: nat | d < |cfg.parent| && OnPath(cfg, cfg.parent[c], d) ensures !Running(s1, d, j) {
        assert OnPath(cfg, c, d);
        PathGoesDown(cfg, cfg.parent[c], d);
      }
      SetRunningFrom(cfg, s1, cfg.parent[c], j);
    }
  }

  /** `Channel.set_running`: a job queued further down its path stays there, any
    * other job runs in its whole path afterwards. */
  lemma SetRunningWorks(cfg: Config, s: Sched, j: Job, p: Place)
    requires Inv(cfg, s) && Current(s, j) && At(cfg, s, j, p)
    ensures Inv(cfg, SetRunning(cfg, s, j.chan, j)) && OnlyMoves(s, SetRunning(cfg, s, j.chan, j), j)
    ensures At(cfg, SetRunning(cfg, s, j.chan, j), j,
               if p.QueuedIn? && p.c != j.chan then p else RunningToRoot)
  {
    var c := j.chan;
    if Running(s, c, j) {
    } else {
      forall d: nat | d < |cfg.parent| && OnPath(cfg, c, d) ensures !RunsAt(cfg, j, p, d) {
        if OnPath(cfg, d, c) {
          PathGoesDown(cfg, c, d);
          PathGoesDown(cfg, d, c);
        }
      }
      SetRunningFrom(cfg, s, c, j);
      MoveKeepsInv(cfg, s, SetRunning(cfg, s, c, j), j, RunningToRoot);
    }
  }
}
