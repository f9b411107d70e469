/** The channel manager as the program has it: fields updated in place by
  * recursive methods and loops, proved against the functions and relations of
  * the other modules.
  */
module Manager {
  import opened ChannelJobs
  import opened Channels
  import opened SchedulerSteps
  import opened SchedulerRuns
  import opened JobSelection

  // --------------------------------------------------- choosing in a finite set

  method FindBest(S: set<Job>) returns (b: Job)
    requires S != {}
    ensures IsBest(S, JobKey, b)
  {
    b :| b in S;
    var rest := S - {b};
    while rest != {}
      invariant b in S && rest <= S
      invariant forall k :: k in S && k !in rest ==> !KeyLess(k.key, b.key)
      decreases |rest|
    {
      var x :| x in rest;
      if KeyLess(x.key, b.key) {
        b := x;
      }
      rest := rest - {x};
    }
  }

  method FindEarliest(S: set<Job>, eta: map<Job, int>) returns (e: Job)
    requires S != {} && S <= eta.Keys
    ensures IsEarliest(S, JobKey, eta, e)
  {
    e :| e in S;
    var rest := S - {e};
    while rest != {}
      invariant e in S && rest <= S
      invariant forall k :: k in S && k !in rest ==> !Before(eta[k], k.key, eta[e], e.key)
      decreases |rest|
    {
      var x :| x in rest;
      if Before(eta[x], x.key, eta[e], e.key) {
        e := x;
      }
      rest := rest - {x};
    }
  }

  function SetOf(js: seq<Job>): set<Job> {
    set j | j in js
  }

  lemma RemoveFromUnfolds(cfg: Config, s: Sched, c: nat, j: Job)
    requires ValidConfig(cfg) && |s.chans| == |cfg.parent| && c < |cfg.parent|
    ensures RemoveFrom(cfg, s, c, j) == RemoveDownstream(cfg, s.(chans := s.chans[c := Drop(s.chans[c], j)]), c, j)
  {
    var s1 := s.(chans := s.chans[c := Drop(s.chans[c], j)]);
    if c > 0 && OnPath(cfg, cfg.parent[c], c) {
      PathGoesDown(cfg, cfg.parent[c], c);
    }
    assert RemoveFrom(cfg, s, c, j).chans == RemoveDownstream(cfg, s1, c, j).chans;
  }

  function YieldedInto(ch: Chan, js: seq<Job>): Chan {
    ch.(ready := ch.ready + SetOf(js), readyHeap := ch.readyHeap + SetOf(js))
  }

  /** Channel `c` has yielded the jobs `js` at time `now` and nothing else has
    * happened than the launches of these jobs. */
  ghost predicate Drained(cfg: Config, s: Sched, t: Sched, c: nat, now: int, js: seq<Job>)
    requires Inv(cfg, s) && c < |cfg.parent|
  {
    && |t.chans| == |s.chans|
    && ReachesAt(cfg, now, s, t)
    && OnlyClears(s, t)
    && CapacityKept(cfg, s, t)
    && OnlyFlows(cfg, s, t, c, js)
    && OrderKept(t, c, now, js)
  }

  /** Outside the queue of `c`: the jobs became running in `c` and were queued in
    * its parent, and no other channel changed. */
  ghost predicate OnlyFlows(cfg: Config, s: Sched, t: Sched, c: nat, js: seq<Job>)
    requires ValidConfig(cfg) && c < |cfg.parent| == |s.chans| == |t.chans|
  {
    && (forall d: nat :: d < |cfg.parent| && d != c && !(c > 0 && d == cfg.parent[c]) ==> t.chans[d] == s.chans[d])
    && (c > 0 ==> t.chans[cfg.parent[c]] == YieldedInto(s.chans[cfg.parent[c]], js))
    && t.chans[c].running == s.chans[c].running + SetOf(js)
    && OnceEach(s.chans[c].running, js)
  }

  /** No job was yielded twice, and none that was running already. */
  ghost predicate OnceEach(running: set<Job>, js: seq<Job>) {
    (forall j :: j in js ==> j !in running) && forall i, k :: 0 <= i < k < |js| ==> js[i] != js[k]
  }

  /** The jobs came out in order and what is still ready belongs after them. */
  ghost predicate OrderKept(t: Sched, c: nat, now: int, js: seq<Job>)
    requires c < |t.chans|
  {
    && InOrder(js)
    && (js != [] ==> NothingDue(t, c, now))
    && forall y, j :: y in js && j in t.chans[c].ready ==> !KeyLess(j.key, y.key)
  }

  /** Non-decreasing by priority, creation date and sequence. */
  ghost predicate InOrder(js: seq<Job>) {
    forall i, k :: 0 <= i < k < |js| ==> !KeyLess(js[k].key, js[i].key)
  }

  /** Etas are only ever cleared, and no object appears or vanishes. */
  ghost predicate OnlyClears(s: Sched, t: Sched) {
    && t.byUuid == s.byUuid && t.nextSerial == s.nextSerial
    && t.eta.Keys == s.eta.Keys
    && forall j :: j in t.eta ==> t.eta[j] == s.eta[j] || t.eta[j] == 0
  }

  /** No running count rises above the larger of its old value and the capacity. */
  ghost predicate CapacityKept(cfg: Config, s: Sched, t: Sched) {
    |t.chans| == |s.chans| == |cfg.capacity|
    && forall d: nat :: d < |s.chans| && cfg.capacity[d] != 0 ==>
         |t.chans[d].running| <= |s.chans[d].running| || |t.chans[d].running| <= cfg.capacity[d]
  }

  lemma NothingDrained(cfg: Config, s: Sched, c: nat, now: int)
    requires Inv(cfg, s) && c < |cfg.parent|
    ensures Drained(cfg, s, s, c, now, [])
  {
    ReachesNow(cfg, now, s);
    assert SetOf([]) == {};
    assert s.chans[c].running + SetOf([]) == s.chans[c].running;
  }

  /** A pop that gives nothing leaves the queue with nothing to give. */
  lemma NothingReadyExhausts(cfg: Config, s: Sched, t: Sched, c: nat, now: int)
    requires Inv(cfg, s) && Inv(cfg, t) && c < |cfg.parent| && s.chans[c].pause == 0
    requires PopAt(cfg, s, c, now, t, None)
    ensures Exhausted(cfg, t, c, now)
  {
    assert ChanHeapsSound(s, c) && ChanHeapsSound(t, c);
    var waiting := t.chans[c].waiting;
    if cfg.sequential[c] && HeldBack(t.chans[c].ready, waiting, JobKey, s.eta) {
      HeldBackFrame(t.chans[c].ready, waiting, s.eta, t.eta);
    }
  }

  lemma NothingReadyOrder(cfg: Config, s: Sched, t: Sched, c: nat, now: int, js: seq<Job>)
    requires Inv(cfg, s) && c < |cfg.parent| && OrderKept(s, c, now, js)
    requires PopAt(cfg, s, c, now, t, None)
    ensures OrderKept(t, c, now, js)
  {
    assert ChanHeapsSound(s, c);
    if js != [] {
      assert DueJobs(s.chans[c].waiting, s.eta, now) == {};
    }
  }

  lemma NothingReadyFlows(cfg: Config, s0: Sched, s: Sched, t: Sched, c: nat, now: int, js: seq<Job>)
    requires Inv(cfg, s0) && Inv(cfg, s) && c < |cfg.parent|
    requires OnlyClears(s0, s) && CapacityKept(cfg, s0, s) && OnlyFlows(cfg, s0, s, c, js)
    requires PopAt(cfg, s, c, now, t, None)
    ensures |t.chans| == |s.chans|
    ensures OnlyClears(s0, t) && CapacityKept(cfg, s0, t) && OnlyFlows(cfg, s0, t, c, js)
  {
  }

  lemma NothingReadyEffect(cfg: Config, s0: Sched, s: Sched, t: Sched, c: nat, now: int, js: seq<Job>)
    requires Inv(cfg, s0) && Inv(cfg, s) && c < |cfg.parent|
    requires Drained(cfg, s0, s, c, now, js)
    requires PopAt(cfg, s, c, now, t, None)
    ensures Inv(cfg, t) && Drained(cfg, s0, t, c, now, js)
  {
    PopNothingWorks(cfg, s, c, now, t);
    assert Next(cfg, s, t, NothingReady(c, now));
    ReachesOneMore(cfg, now, s0, s, t, NothingReady(c, now));
    NothingReadyOrder(cfg, s, t, c, now, js);
    NothingReadyFlows(cfg, s0, s, t, c, now, js);
  }

  lemma LaunchClears(cfg: Config, s: Sched, s1: Sched, c: nat, now: int, j: Job)
    requires Inv(cfg, s) && c < |cfg.parent| && PopAt(cfg, s, c, now, s1, Some(j))
    ensures OnlyClears(s, Launched(cfg, s1, c, j, now))
  {
  }

  lemma LaunchFlows(cfg: Config, s: Sched, s1: Sched, c: nat, now: int, j: Job)
    requires Inv(cfg, s) && c < |cfg.parent| && PopAt(cfg, s, c, now, s1, Some(j))
    ensures OnlyFlows(cfg, s, Launched(cfg, s1, c, j, now), c, [j])
  {
    PopMembership(cfg, s, c, now, s1, Some(j), j);
    QueuedIsNotRunning(cfg, s, c, j);
    assert SetOf([j]) == {j};
  }

  lemma QueuedIsNotRunning(cfg: Config, s: Sched, c: nat, j: Job)
    requires Inv(cfg, s) && c < |cfg.parent| && Queued(s, c, j)
    ensures !Running(s, c, j)
  {
    assert Current(s, j);
    var p :| At(cfg, s, j, p);
    assert p == QueuedIn(c);
  }

  lemma FlowsCompose(cfg: Config, s0: Sched, s: Sched, t: Sched, c: nat, js: seq<Job>, j: Job)
    requires ValidConfig(cfg) && c < |cfg.parent| == |s0.chans| == |s.chans| == |t.chans|
    requires OnlyFlows(cfg, s0, s, c, js) && OnlyFlows(cfg, s, t, c, [j])
    ensures OnlyFlows(cfg, s0, t, c, js + [j])
  {
    assert SetOf(js + [j]) == SetOf(js) + SetOf([j]);
    assert j in [j];
    forall i, k | 0 <= i < k < |js + [j]| ensures (js + [j])[i] != (js + [j])[k] {
      assert k == |js| ==> js[i] in SetOf(js);
    }
  }

  lemma LaunchCapacity(cfg: Config, s0: Sched, s: Sched, t: Sched, c: nat, j: Job)
    requires ValidConfig(cfg) && c < |cfg.parent| == |s0.chans| == |s.chans| == |t.chans|
    requires CapacityKept(cfg, s0, s) && HasCapacity(cfg, s, c) && OnlyFlows(cfg, s, t, c, [j])
    ensures CapacityKept(cfg, s0, t)
  {
    assert SetOf([j]) == {j};
    assert |t.chans[c].running| <= |s.chans[c].running| + 1;
  }

  lemma LaunchedQueue(cfg: Config, s: Sched, s1: Sched, c: nat, now: int, j: Job)
    requires Inv(cfg, s) && c < |cfg.parent| && PopAt(cfg, s, c, now, s1, Some(j))
    ensures s.chans[c].waiting <= s.eta.Keys
    ensures var t, due := Launched(cfg, s1, c, j, now), DueJobs(s.chans[c].waiting, s.eta, now);
      && IsBest(s.chans[c].ready + due, JobKey, j) && NothingDue(t, c, now)
      && t.chans[c].ready == s.chans[c].ready + due - {j} && t.chans[c].waiting == s.chans[c].waiting - due
      && j !in s.chans[c].waiting - due
      && !(cfg.sequential[c] && HeldBack(s.chans[c].ready + due, s.chans[c].waiting - due, JobKey, s.eta))
  {
    assert ChanHeapsSound(s, c);
  }

  lemma NothingDueNoDueJobs(s: Sched, c: nat, now: int)
    requires c < |s.chans| && s.chans[c].waiting <= s.eta.Keys && NothingDue(s, c, now)
    ensures DueJobs(s.chans[c].waiting, s.eta, now) == {}
  {
  }

  lemma QueueShrinks(ready: set<Job>, waiting: set<Job>, due: set<Job>, j: Job)
    requires due <= waiting && j in ready + due && j !in waiting - due
    ensures |(ready + due - {j}) + (waiting - due)| < |ready + waiting|
  {
    assert (ready + due - {j}) + (waiting - due) == (ready + waiting) - {j};
  }

  /** A queue from which a job was launched while none was due had that job ready. */
  lemma LaunchedWasReady(cfg: Config, s: Sched, s1: Sched, c: nat, now: int, j: Job)
    requires Inv(cfg, s) && c < |cfg.parent| && PopAt(cfg, s, c, now, s1, Some(j)) && NothingDue(s, c, now)
    ensures j in s.chans[c].ready && Launched(cfg, s1, c, j, now).chans[c].ready <= s.chans[c].ready
    ensures !NothingToPop(cfg, s, c)
  {
    assert ChanHeapsSound(s, c);
    LaunchedQueue(cfg, s, s1, c, now, j);
    NothingDueNoDueJobs(s, c, now);
    assert s.chans[c].ready + {} == s.chans[c].ready && s.chans[c].waiting - {} == s.chans[c].waiting;
  }

  /** What is left in the queue after a launch. */
  lemma LaunchQueue(cfg: Config, s: Sched, s1: Sched, c: nat, now: int, j: Job)
    requires Inv(cfg, s) && c < |cfg.parent| && PopAt(cfg, s, c, now, s1, Some(j))
    ensures var t := Launched(cfg, s1, c, j, now);
      && NothingDue(t, c, now)
      && (forall k :: k in t.chans[c].ready ==> !KeyLess(k.key, j.key))
      && |t.chans[c].ready + t.chans[c].waiting| < |s.chans[c].ready + s.chans[c].waiting|
      && (NothingDue(s, c, now) ==> j in s.chans[c].ready && t.chans[c].ready <= s.chans[c].ready)
      && !(NothingDue(s, c, now) && NothingToPop(cfg, s, c))
  {
    LaunchedQueue(cfg, s, s1, c, now, j);
    QueueShrinks(s.chans[c].ready, s.chans[c].waiting, DueJobs(s.chans[c].waiting, s.eta, now), j);
    if NothingDue(s, c, now) {
      LaunchedWasReady(cfg, s, s1, c, now, j);
    }
  }

  lemma OrderExtends(s: Sched, t: Sched, c: nat, now: int, js: seq<Job>, j: Job)
    requires c < |s.chans| == |t.chans| && OrderKept(s, c, now, js)
    requires NothingDue(t, c, now) && forall k :: k in t.chans[c].ready ==> !KeyLess(k.key, j.key)
    requires NothingDue(s, c, now) ==> j in s.chans[c].ready && t.chans[c].ready <= s.chans[c].ready
    ensures OrderKept(t, c, now, js + [j])
  {
    forall i, k | 0 <= i < k < |js + [j]| ensures !KeyLess((js + [j])[k].key, (js + [j])[i].key) {
      if k == |js| {
        assert js[i] in js;
      }
    }
  }

  /** The queue of `c` is not full and has something to give. */
  ghost predicate CanYield(cfg: Config, s: Sched, c: nat, now: int)
    requires Inv(cfg, s) && c < |cfg.parent|
  {
    HasCapacity(cfg, s, c) && !(NothingDue(s, c, now) && NothingToPop(cfg, s, c))
  }

  /** A throttled channel pauses after a launch. */
  lemma LaunchPauses(cfg: Config, s: Sched, s1: Sched, c: nat, now: int, j: Job)
    requires Inv(cfg, s) && c < |cfg.parent| && PopAt(cfg, s, c, now, s1, Some(j))
    requires Inv(cfg, Launched(cfg, s1, c, j, now))
    ensures var t := Launched(cfg, s1, c, j, now);
      if cfg.throttle[c] != 0 then Exhausted(cfg, t, c, now) else t.chans[c].pause == s.chans[c].pause
  {
  }

  lemma LaunchEffect(cfg: Config, s0: Sched, s: Sched, s1: Sched, c: nat, now: int, j: Job, js: seq<Job>)
    requires Inv(cfg, s0) && Inv(cfg, s) && c < |cfg.parent| && now >= 0
    requires Drained(cfg, s0, s, c, now, js) && HasCapacity(cfg, s, c)
    requires cfg.throttle[c] == 0 || s.chans[c].pause == 0
    requires PopAt(cfg, s, c, now, s1, Some(j))
    ensures var t := Launched(cfg, s1, c, j, now);
      && Inv(cfg, t) && Drained(cfg, s0, t, c, now, js + [j])
      && |t.chans[c].ready + t.chans[c].waiting| < |s.chans[c].ready + s.chans[c].waiting|
      && CanYield(cfg, s, c, now)
  {
    var t := Launched(cfg, s1, c, j, now);
    LaunchWorks(cfg, s, c, now, s1, j);
    assert Next(cfg, s, t, Launch(c, now, j));
    ReachesOneMore(cfg, now, s0, s, t, Launch(c, now, j));
    LaunchClears(cfg, s, s1, c, now, j);
    LaunchFlows(cfg, s, s1, c, now, j);
    FlowsCompose(cfg, s0, s, t, c, js, j);
    LaunchCapacity(cfg, s0, s, t, c, j);
    LaunchQueue(cfg, s, s1, c, now, j);
    OrderExtends(s, t, c, now, js, j);
  }

  // ---------------------------------------------------- the tree of channels

  /** `get_jobs_to_run(now)` of channel `c` was consumed to its end and yielded
    * `js`, no job twice: only channels of its subtree changed, apart from its consumer queueing
    * the jobs; they came in order; and every channel of the subtree is used up. */
  ghost predicate Harvested(cfg: Config, s: Sched, t: Sched, c: nat, now: int, js: seq<Job>)
    requires Inv(cfg, s) && Inv(cfg, t) && c < |cfg.parent|
  {
    && ReachesAt(cfg, now, s, t)
    && OnlyClears(s, t)
    && CapacityKept(cfg, s, t)
    && InOrder(js)
    && (forall d: nat :: d < |cfg.parent| && !OnPath(cfg, d, c) && !(c > 0 && d == cfg.parent[c]) ==> t.chans[d] == s.chans[d])
    && (c > 0 ==> t.chans[cfg.parent[c]] == YieldedInto(s.chans[cfg.parent[c]], js))
    && t.chans[c].running == s.chans[c].running + SetOf(js)
    && OnceEach(s.chans[c].running, js)
    && (forall d: nat :: d < |cfg.parent| && OnPath(cfg, d, c) ==> Exhausted(cfg, t, d, now))
    && BlockedStay(cfg, s, t, c, js)
  }

  /** Blocked channels start nothing, and `c` yields nothing if it is one. */
  ghost predicate BlockedStay(cfg: Config, s: Sched, t: Sched, c: nat, js: seq<Job>)
    requires ValidConfig(cfg) && c < |cfg.parent| == |s.chans| == |t.chans|
  {
    && (forall d: nat :: d < |cfg.parent| && Blocked(cfg, s, d) ==> t.chans[d].running == s.chans[d].running)
    && (Blocked(cfg, s, c) ==> js == [])
  }

  lemma ReachedBlockedStay(cfg: Config, s: Sched, t: Sched, c: nat, now: int, js: seq<Job>)
    requires Inv(cfg, s) && Inv(cfg, t) && c < |cfg.parent| && ReachesAt(cfg, now, s, t)
    requires t.chans[c].running == s.chans[c].running + SetOf(js) && OnceEach(s.chans[c].running, js)
    ensures BlockedStay(cfg, s, t, c, js)
  {
    forall d: nat | d < |cfg.parent| && Blocked(cfg, s, d) ensures t.chans[d].running == s.chans[d].running {
      BlockedStartsNothing(cfg, now, s, t, d);
    }
    assert js != [] ==> js[0] in SetOf(js);
  }

  /** The children of `c` numbered below `d` have been consumed. */
  ghost predicate ChildrenDone(cfg: Config, s: Sched, t: Sched, c: nat, d: nat, now: int)
    requires Inv(cfg, s) && Inv(cfg, t) && c < |cfg.parent|
  {
    && ReachesAt(cfg, now, s, t)
    && OnlyClears(s, t)
    && CapacityKept(cfg, s, t)
    && (forall e: nat :: e < |cfg.parent| && !OnPath(cfg, e, c) ==> t.chans[e] == s.chans[e])
    && (forall x: nat, e: nat :: d <= x < |cfg.parent| && cfg.parent[x] == c && c < x && e < |cfg.parent| && OnPath(cfg, e, x)
            ==> t.chans[e] == s.chans[e])
    && (forall x: nat, e: nat :: c < x < d && x < |cfg.parent| && cfg.parent[x] == c && e < |cfg.parent| && OnPath(cfg, e, x)
            ==> Exhausted(cfg, t, e, now))
    && t.chans[c] == s.chans[c].(ready := t.chans[c].ready, readyHeap := t.chans[c].readyHeap)
    && (ChildrenSilent(cfg, s, c, d, now) ==> t.chans[c] == s.chans[c])
  }

  ghost predicate ChildrenSilent(cfg: Config, s: Sched, c: nat, d: nat, now: int)
    requires Inv(cfg, s)
  {
    forall x: nat :: c < x < d && x < |cfg.parent| && cfg.parent[x] == c ==> Silent(cfg, s, x, now)
  }

  lemma NotAChild(cfg: Config, s: Sched, t: Sched, c: nat, d: nat, now: int)
    requires Inv(cfg, s) && Inv(cfg, t) && c < d < |cfg.parent| && cfg.parent[d] != c
    requires ChildrenDone(cfg, s, t, c, d, now)
    ensures ChildrenDone(cfg, s, t, c, d + 1, now)
  {
    assert ChildrenSilent(cfg, s, c, d + 1, now) ==> ChildrenSilent(cfg, s, c, d, now);
  }

  /** A channel whose record is the same keeps the etas of its waiting jobs. */
  lemma SameRecordSameChannel(cfg: Config, s: Sched, t: Sched, e: nat)
    requires Inv(cfg, s) && Inv(cfg, t) && e < |cfg.parent| && OnlyClears(s, t) && t.chans[e] == s.chans[e]
    ensures SameChannel(s, t, e)
  {
    assert ChanHeapsSound(s, e) && ChanHeapsSound(t, e);
  }

  lemma NoChildDone(cfg: Config, s: Sched, c: nat, now: int)
    requires Inv(cfg, s) && c < |cfg.parent|
    ensures ChildrenDone(cfg, s, s, c, c + 1, now)
  {
    ReachesNow(cfg, now, s);
  }

  /** Subtrees of different children of `c` do not meet, and do not hold `c`. */
  lemma SubtreesApart(cfg: Config, c: nat, x: nat, y: nat, e: nat)
    requires ValidConfig(cfg) && c < x < |cfg.parent| && c < y < |cfg.parent| && e < |cfg.parent|
    requires cfg.parent[x] == c && cfg.parent[y] == c && OnPath(cfg, e, x)
    ensures e > c && OnPath(cfg, e, c)
    ensures OnPath(cfg, e, y) ==> x == y
  {
    PathGoesDown(cfg, e, x);
    if OnPath(cfg, e, y) {
      PathChildUnique(cfg, e, x, y);
    }
  }

  lemma OneMoreChildRecords(cfg: Config, s0: Sched, s: Sched, t: Sched, c: nat, d: nat, now: int, js: seq<Job>)
    requires Inv(cfg, s0) && Inv(cfg, s) && Inv(cfg, t) && c < d < |cfg.parent| && cfg.parent[d] == c
    requires ChildrenDone(cfg, s0, s, c, d, now) && Harvested(cfg, s, t, d, now, js)
    ensures forall e: nat :: e < |cfg.parent| && !OnPath(cfg, e, c) ==> t.chans[e] == s0.chans[e]
    ensures forall x: nat, e: nat :: d < x < |cfg.parent| && cfg.parent[x] == c && e < |cfg.parent| && OnPath(cfg, e, x)
              ==> t.chans[e] == s0.chans[e]
    ensures forall x: nat, e: nat :: c < x < d && cfg.parent[x] == c && e < |cfg.parent| && OnPath(cfg, e, x)
              ==> t.chans[e] == s.chans[e]
  {
    forall e: nat | e < |cfg.parent| && !OnPath(cfg, e, c) ensures t.chans[e] == s0.chans[e] {
      if OnPath(cfg, e, d) {
        SubtreesApart(cfg, c, d, d, e);
      }
    }
    forall x: nat, e: nat | c < x < |cfg.parent| && x != d && cfg.parent[x] == c && e < |cfg.parent| && OnPath(cfg, e, x)
      ensures t.chans[e] == s.chans[e]
    {
      SubtreesApart(cfg, c, x, d, e);
    }
  }

  lemma OneMoreChildExhausted(cfg: Config, s0: Sched, s: Sched, t: Sched, c: nat, d: nat, now: int, js: seq<Job>)
    requires Inv(cfg, s0) && Inv(cfg, s) && Inv(cfg, t) && c < d < |cfg.parent| && cfg.parent[d] == c
    requires ChildrenDone(cfg, s0, s, c, d, now) && Harvested(cfg, s, t, d, now, js)
    ensures forall x: nat, e: nat :: c < x < d + 1 && cfg.parent[x] == c && e < |cfg.parent| && OnPath(cfg, e, x)
              ==> Exhausted(cfg, t, e, now)
  {
    OneMoreChildRecords(cfg, s0, s, t, c, d, now, js);
    forall x: nat, e: nat | c < x < d + 1 && cfg.parent[x] == c && e < |cfg.parent| && OnPath(cfg, e, x)
      ensures Exhausted(cfg, t, e, now)
    {
      if x < d {
        StillExhausted(cfg, s, t, e, now);
      }
    }
  }

  lemma StillExhausted(cfg: Config, s: Sched, t: Sched, e: nat, now: int)
    requires Inv(cfg, s) && Inv(cfg, t) && e < |cfg.parent| && OnlyClears(s, t) && t.chans[e] == s.chans[e]
    requires Exhausted(cfg, s, e, now)
    ensures Exhausted(cfg, t, e, now)
  {
    SameRecordSameChannel(cfg, s, t, e);
    ExhaustedFrame(cfg, s, t, e, now);
  }

  lemma SilentChildStaysSilent(cfg: Config, s0: Sched, s: Sched, c: nat, d: nat, now: int)
    requires Inv(cfg, s0) && Inv(cfg, s) && c < d < |cfg.parent| && cfg.parent[d] == c
    requires ChildrenDone(cfg, s0, s, c, d, now) && Silent(cfg, s0, d, now)
    ensures Silent(cfg, s, d, now)
  {
    forall e: nat | e < |cfg.parent| && OnPath(cfg, e, d) ensures SameChannel(s0, s, e) {
      SameRecordSameChannel(cfg, s0, s, e);
    }
    SilentFrame(cfg, s0, s, d, now);
  }

  lemma OneMoreChildDone(cfg: Config, s0: Sched, s: Sched, t: Sched, c: nat, d: nat, now: int, js: seq<Job>)
    requires Inv(cfg, s0) && Inv(cfg, s) && Inv(cfg, t) && c < d < |cfg.parent| && cfg.parent[d] == c
    requires ChildrenDone(cfg, s0, s, c, d, now) && Harvested(cfg, s, t, d, now, js)
    requires Silent(cfg, s, d, now) ==> js == []
    ensures ChildrenDone(cfg, s0, t, c, d + 1, now)
  {
    ReachesTransitive(cfg, now, s0, s, t);
    OneMoreChildRecords(cfg, s0, s, t, c, d, now, js);
    OneMoreChildExhausted(cfg, s0, s, t, c, d, now, js);
    if ChildrenSilent(cfg, s0, c, d + 1, now) {
      assert ChildrenSilent(cfg, s0, c, d, now);
      SilentChildStaysSilent(cfg, s0, s, c, d, now);
      assert SetOf([]) == {};
      assert t.chans[c] == s.chans[c];
    }
  }

  /** All children consumed, then possibly the pause cleared, then the channel's
    * own queue drained: the whole subtree is harvested. */
  lemma HarvestComposes(cfg: Config, s0: Sched, s1: Sched, s2: Sched, t: Sched, c: nat, now: int, js: seq<Job>)
    requires Inv(cfg, s0) && Inv(cfg, s1) && Inv(cfg, s2) && Inv(cfg, t) && c < |cfg.parent|
    requires ChildrenDone(cfg, s0, s1, c, |cfg.parent|, now)
    requires s2 == s1.(chans := s1.chans[c := s1.chans[c].(pause := s2.chans[c].pause)])
    requires ReachesAt(cfg, now, s1, s2) && Drained(cfg, s2, t, c, now, js)
    requires Exhausted(cfg, t, c, now)
    ensures Harvested(cfg, s0, t, c, now, js)
  {
    ReachesTransitive(cfg, now, s0, s1, s2);
    ReachesTransitive(cfg, now, s0, s2, t);
    assert OnlyClears(s0, t);
    if c > 0 && OnPath(cfg, cfg.parent[c], c) {
      PathGoesDown(cfg, cfg.parent[c], c);
    }
    forall e: nat | e < |cfg.parent| && OnPath(cfg, e, c) ensures Exhausted(cfg, t, e, now) {
      if e != c {
        var x := ChildTowards(cfg, c, e);
        SubtreesApart(cfg, c, x, x, e);
        SameRecordSameChannel(cfg, s1, t, e);
        ExhaustedFrame(cfg, s1, t, e, now);
      }
    }
    ReachedBlockedStay(cfg, s0, t, c, now, js);
  }

  /** A silent channel has nothing to yield once its children were consumed. */
  lemma SilentCannotYield(cfg: Config, s0: Sched, s1: Sched, c: nat, now: int)
    requires Inv(cfg, s0) && Inv(cfg, s1) && c < |cfg.parent|
    requires ChildrenDone(cfg, s0, s1, c, |cfg.parent|, now) && Silent(cfg, s0, c, now)
    ensures || (s1.chans[c].pause != 0 && now < s1.chans[c].pause)
            || !HasCapacity(cfg, s1, c)
            || (s1.chans[c].pause == 0 && !CanYield(cfg, s1, c, now))
  {
    if HasCapacity(cfg, s1, c) && s1.chans[c].pause == 0 {
      assert ChildrenSilent(cfg, s0, c, |cfg.parent|, now);
      SameRecordSameChannel(cfg, s0, s1, c);
      assert ChanHeapsSound(s0, c) && ChanHeapsSound(s1, c);
      HeldBackFrame(s0.chans[c].ready, s0.chans[c].waiting, s0.eta, s1.eta);
    }
  }

  /** The jobs `gone` of channel `c` have lost their etas and become ready. */
  ghost predicate Ripened(s0: Sched, s: Sched, c: nat, gone: set<Job>)
    requires c < |s0.chans|
  {
    var ch := s0.chans[c];
    && gone <= ch.waiting
    && s.chans == s0.chans[c := ch.(ready := ch.ready + gone, waiting := ch.waiting - gone,
                                    readyHeap := ch.readyHeap + gone, waitHeap := ch.waitHeap - gone)]
    && s.eta == (map j | j in s0.eta :: if j in gone then 0 else s0.eta[j])
    && s.byUuid == s0.byUuid && s.nextSerial == s0.nextSerial
  }

  lemma NothingRipened(s: Sched, c: nat)
    requires c < |s.chans|
    ensures Ripened(s, s, c, {})
  {
    var ch := s.chans[c];
    assert ch.(ready := ch.ready + {}, waiting := ch.waiting - {},
               readyHeap := ch.readyHeap + {}, waitHeap := ch.waitHeap - {}) == ch;
  }

  lemma RipensOne(s0: Sched, s: Sched, c: nat, gone: set<Job>, e: Job)
    requires c < |s0.chans| && Ripened(s0, s, c, gone) && e in s0.chans[c].waiting && e in s0.eta
    ensures var ch := s.chans[c];
      Ripened(s0, s.(eta := s.eta[e := 0],
                     chans := s.chans[c := ch.(ready := ch.ready + {e}, waiting := ch.waiting - {e},
                                               readyHeap := ch.readyHeap + {e}, waitHeap := ch.waitHeap - {e})]),
              c, gone + {e})
  {
    var ch0 := s0.chans[c];
    assert ch0.ready + gone + {e} == ch0.ready + (gone + {e});
    assert ch0.waiting - gone - {e} == ch0.waiting - (gone + {e});
    assert ch0.readyHeap + gone + {e} == ch0.readyHeap + (gone + {e});
    assert ch0.waitHeap - gone - {e} == ch0.waitHeap - (gone + {e});
  }

  /** The waiting job with the earliest eta decides whether any is due. */
  lemma EarliestDecides(s0: Sched, s: Sched, c: nat, now: int, gone: set<Job>, e: Job)
    requires c < |s0.chans| && ChanHeapsSound(s0, c) && Ripened(s0, s, c, gone)
    requires s.chans[c].waiting <= s.eta.Keys && IsEarliest(s.chans[c].waiting, JobKey, s.eta, e)
    requires s0.chans[c].waiting <= s0.eta.Keys && gone <= DueJobs(s0.chans[c].waiting, s0.eta, now)
    ensures e in s0.chans[c].waiting && e !in gone && s.eta[e] == s0.eta[e]
    ensures s.eta[e] > now ==> gone == DueJobs(s0.chans[c].waiting, s0.eta, now)
  {
    forall k | k in s0.chans[c].waiting && k !in gone ensures s0.eta[e] <= s0.eta[k] {
      assert !Before(s.eta[k], JobKey(k), s.eta[e], JobKey(e));
    }
  }

  lemma SameEarliest(waiting: set<Job>, eta: map<Job, int>, eta': map<Job, int>, e: Job)
    requires waiting <= eta.Keys && waiting <= eta'.Keys && forall j :: j in waiting ==> eta'[j] == eta[j]
    requires IsEarliest(waiting, JobKey, eta', e)
    ensures IsEarliest(waiting, JobKey, eta, e)
  {
  }

  /** The channel has the object in a queue, as running or failed, or in a heap. */
  predicate RefersTo(ch: Chan, j: Job) {
    || j in ch.ready || j in ch.waiting || j in ch.running || j in ch.failed
    || j in ch.readyHeap || j in ch.waitHeap
  }

  /** The current object of the uuid is in no channel, not even removed in a heap. */
  ghost predicate Collectable(cfg: Config, s: Sched, u: nat)
    requires ValidConfig(cfg)
  {
    && u in s.byUuid && At(cfg, s, s.byUuid[u], Nowhere)
    && forall c :: 0 <= c < |s.chans| ==> s.byUuid[u] !in s.chans[c].readyHeap && s.byUuid[u] !in s.chans[c].waitHeap
  }

  lemma NowhereIsUnreferenced(cfg: Config, s: Sched, u: nat)
    requires Inv(cfg, s) && Collectable(cfg, s, u)
    ensures forall c :: 0 <= c < |s.chans| ==> !RefersTo(s.chans[c], s.byUuid[u])
  {
    forall c: nat | c < |s.chans| ensures !RefersTo(s.chans[c], s.byUuid[u]) {
      assert !Queued(s, c, s.byUuid[u]) && !Running(s, c, s.byUuid[u]) && !HasFailed(s, c, s.byUuid[u]);
    }
  }

  class ChannelManager {
    const cfg: Config
    var chans: seq<Chan>
    var eta: map<Job, int>
    var byUuid: map<nat, Job>
    var nextSerial: nat

    function State(): Sched
      reads this
    {
      Sched(chans, eta, byUuid, nextSerial)
    }

    ghost predicate Valid()
      reads this
    {
      Inv(cfg, State())
    }

    constructor (cfg: Config)
      requires ValidConfig(cfg)
      ensures Valid() && this.cfg == cfg && State() == EmptySched(cfg)
    {
      this.cfg := cfg;
      chans := seq(|cfg.parent|, _ => EMPTY_CHAN);
      eta := map[];
      byUuid := map[];
      nextSerial := 0;
      new;
      EmptyInv(cfg);
      assert State() == EmptySched(cfg);
    }

    // ------------------------------------------ Channel.remove, Channel.set_*

    method Remove(c: nat, j: Job)
      requires ValidConfig(cfg) && |chans| == |cfg.parent| && c < |chans|
      modifies `chans
      decreases c
      ensures State() == RemoveFrom(cfg, old(State()), c, j)
    {
      RemoveFromUnfolds(cfg, State(), c, j);
      chans := chans[c := Drop(chans[c], j)];
      if c > 0 {
        Remove(cfg.parent[c], j);
      }
    }

    method AddToQueue(c: nat, j: Job)
      requires |chans| == |cfg.parent| && c < |chans|
      modifies `chans
      ensures State() == Enqueue(old(State()), c, j)
    {
      var ch := chans[c];
      if j in eta && eta[j] != 0 {
        chans := chans[c := ch.(waiting := ch.waiting + {j}, waitHeap := ch.waitHeap + {j})];
      } else {
        chans := chans[c := ch.(ready := ch.ready + {j}, readyHeap := ch.readyHeap + {j})];
      }
    }

    method MarkPending(j: Job)
      requires ValidConfig(cfg) && |chans| == |cfg.parent| && j.chan < |chans|
      modifies `chans
      ensures State() == SetPending(cfg, old(State()), j)
    {
      var c := j.chan;
      if j !in chans[c].ready && j !in chans[c].waiting {
        AddToQueue(c, j);
        chans := chans[c := chans[c].(running := chans[c].running - {j}, failed := chans[c].failed - {j})];
        if c > 0 {
          Remove(cfg.parent[c], j);
        }
      }
    }

    method MarkRunning(c: nat, j: Job)
      requires ValidConfig(cfg) && |chans| == |cfg.parent| && c < |chans|
      modifies `chans
      decreases c
      ensures State() == SetRunning(cfg, old(State()), c, j)
    {
      if j !in chans[c].running {
        var ch := chans[c];
        chans := chans[c := ch.(ready := ch.ready - {j}, waiting := ch.waiting - {j},
                                running := ch.running + {j}, failed := ch.failed - {j})];
        if c > 0 {
          MarkRunning(cfg.parent[c], j);
        }
      }
    }

    method MarkFailed(j: Job)
      requires ValidConfig(cfg) && |chans| == |cfg.parent| && j.chan < |chans|
      modifies `chans
      ensures State() == SetFailed(cfg, old(State()), j)
    {
      var c := j.chan;
      if j !in chans[c].failed {
        var ch := chans[c];
        chans := chans[c := ch.(ready := ch.ready - {j}, waiting := ch.waiting - {j},
                                running := ch.running - {j}, failed := ch.failed + {j})];
        if c > 0 {
          Remove(cfg.parent[c], j);
        }
      }
    }

    // ---------------------------------- ChannelManager.notify and removals

    method NotifyJob(u: nat, db: nat, chan: nat, key: Key, newEta: int, st: JobState)
      requires Valid() && NotifyAllowed(cfg, State(), u, db, chan, key)
      modifies this
      ensures State() == Notify(cfg, old(State()), u, db, chan, key, newEta, st)
      ensures Valid()
    {
      var _ := NotifyWorks(cfg, State(), u, db, chan, key, newEta, st);
      var j := RefreshJob(u, db, chan, key, newEta);
      ApplyState(j, st);
    }

    method RefreshJob(u: nat, db: nat, chan: nat, key: Key, newEta: int) returns (j: Job)
      requires Valid() && NotifyAllowed(cfg, State(), u, db, chan, key)
      modifies this
      ensures State() == Refresh(cfg, old(State()), u, db, chan, key, newEta)
      ensures u in byUuid && j == byUuid[u] && j.chan < |cfg.parent|
    {
      RefreshKeepsSizes(cfg, State(), u, db, chan, key, newEta);
      var known := u in byUuid;
      if known {
        j := byUuid[u];
        if key.seqno != j.key.seqno || key.priority != j.key.priority || newEta != eta[j] || chan != j.chan {
          RemoveUuid(u);
          known := false;
        }
      }
      if !known {
        j := Job(u, db, chan, key, nextSerial);
        eta := eta[j := newEta];
        byUuid := byUuid[u := j];
        nextSerial := nextSerial + 1;
      }
      j := byUuid[u];
    }

    method ApplyState(j: Job, st: JobState)
      requires ValidConfig(cfg) && |chans| == |cfg.parent| && j.chan < |cfg.parent|
      modifies this
      ensures State() == Transition(cfg, old(State()), j, st)
    {
      match st
      case Done => Remove(j.chan, j);
      case Cancelled => Remove(j.chan, j);
      case Pending => MarkPending(j);
      case Enqueued => MarkRunning(j.chan, j);
      case Started => MarkRunning(j.chan, j);
      case Failed => MarkFailed(j);
      case WaitDependencies =>
    }

    method RemoveUuid(u: nat)
      requires Valid()
      modifies `chans, `byUuid
      ensures State() == RemoveJob(cfg, old(State()), u)
      ensures Valid()
    {
      RemoveJobWorks(cfg, State(), u);
      if u in byUuid {
        var j := byUuid[u];
        Remove(j.chan, j);
        byUuid := byUuid - {u};
      }
    }

    /** The weak table of objects: one that no channel refers to is dropped. */
    method Collect(u: nat)
      requires Valid()
      modifies `byUuid
      ensures Valid()
      ensures old(Collectable(cfg, State(), u)) ==> Next(cfg, old(State()), State(), Forget(u))
      ensures !old(Collectable(cfg, State(), u)) ==> State() == old(State())
    {
      if u in byUuid && forall c :: 0 <= c < |chans| ==> !RefersTo(chans[c], byUuid[u]) {
        ghost var s := State();
        byUuid := byUuid - {u};
        NextKeepsInv(cfg, s, State(), Forget(u));
      } else if Collectable(cfg, State(), u) {
        NowhereIsUnreferenced(cfg, State(), u);
      }
    }

    /** `remove_db`: afterwards no object of the database is known or anywhere in
      * the channels; the jobs of other databases are where they were. */
    method RemoveDb(db: nat)
      requires Valid()
      modifies `chans, `byUuid
      ensures Valid()
      ensures forall u :: u in byUuid <==> u in old(byUuid) && old(byUuid)[u].db != db
      ensures forall u :: u in byUuid ==> byUuid[u] == old(byUuid)[u]
      ensures forall k: Job :: k.db == db ==> At(cfg, State(), k, Nowhere)
      ensures forall k: Job, c :: k.uuid in byUuid ==>
                && (Queued(State(), c, k) <==> old(Queued(State(), c, k)))
                && (Running(State(), c, k) <==> old(Running(State(), c, k)))
                && (HasFailed(State(), c, k) <==> old(HasFailed(State(), c, k)))
    {
      var todo := byUuid.Keys;
      ghost var s0 := State();
      while todo != {}
        invariant Valid() && |chans| == |s0.chans|
        invariant todo <= s0.byUuid.Keys
        invariant forall u :: u in byUuid <==> u in s0.byUuid && (u in todo || s0.byUuid[u].db != db)
        invariant forall u :: u in byUuid ==> byUuid[u] == s0.byUuid[u]
        invariant forall k: Job, c :: k.uuid in byUuid ==>
                    && (Queued(State(), c, k) <==> Queued(s0, c, k))
                    && (Running(State(), c, k) <==> Running(s0, c, k))
                    && (HasFailed(State(), c, k) <==> HasFailed(s0, c, k))
        decreases |todo|
      {
        var u :| u in todo;
        todo := todo - {u};
        if byUuid[u].db == db {
          RemoveJobWorks(cfg, State(), u);
          RemoveUuid(u);
        }
      }
      forall k: Job | k.db == db ensures At(cfg, State(), k, Nowhere) {
        assert !Current(State(), k);
      }
    }

    // ------------------------------------------------- Channel.get_jobs_to_run

    /** `self._queue.pop(now)` of channel `c`. */
    method PopQueue(c: nat, now: int) returns (r: Option<Job>)
      requires Valid() && c < |cfg.parent|
      modifies `chans, `eta
      ensures PopAt(cfg, old(State()), c, now, State(), r)
    {
      ghost var s0 := State();
      assert ChanHeapsSound(s0, c);
      Ripen(c, now);
      var ready, waiting := chans[c].ready, chans[c].waiting;
      if ready == {} {
        return None;
      }
      var best := FindBest(ready);
      if cfg.sequential[c] && waiting != {} {
        var first := FindEarliest(waiting, eta);
        SameEarliest(waiting, s0.eta, eta, first);
        HeldBackByAny(ready, waiting, JobKey, s0.eta, first, best);
        if KeyLess(first.key, best.key) {
          return None;
        }
      }
      chans := chans[c := chans[c].(ready := ready - {best}, readyHeap := chans[c].readyHeap - {best})];
      return Some(best);
    }

    /** The first loop of `pop`: one due job after the other loses its eta and becomes
      * ready. */
    method Ripen(c: nat, now: int)
      requires Valid() && c < |cfg.parent|
      modifies `chans, `eta
      ensures c < |old(chans)| && old(chans)[c].waiting <= old(eta).Keys
      ensures Ripened(old(State()), State(), c, DueJobs(old(chans)[c].waiting, old(eta), now))
    {
      ghost var s0 := State();
      assert ChanHeapsSound(s0, c);
      ghost var gone := {};
      NothingRipened(s0, c);
      var more := true;
      while more
        invariant gone <= DueJobs(s0.chans[c].waiting, s0.eta, now) && Ripened(s0, State(), c, gone)
        invariant !more ==> gone == DueJobs(s0.chans[c].waiting, s0.eta, now)
        decreases s0.chans[c].waiting - gone, more
      {
        more := false;
        if chans[c].waiting != {} {
          var e := FindEarliest(chans[c].waiting, eta);
          EarliestDecides(s0, State(), c, now, gone, e);
          if eta[e] <= now {
            RipensOne(s0, State(), c, gone, e);
            var ch := chans[c];
            eta := eta[e := 0];
            chans := chans[c := ch.(ready := ch.ready + {e}, waiting := ch.waiting - {e},
                                    readyHeap := ch.readyHeap + {e}, waitHeap := ch.waitHeap - {e})];
            gone := gone + {e};
            more := true;
          }
        }
      }
    }

    /** One iteration of the loop that yields jobs of channel `c`. */
    method TryLaunch(c: nat, now: int) returns (r: Option<Job>)
      requires Valid() && c < |cfg.parent|
      modifies `chans, `eta
      ensures r.None? ==> PopAt(cfg, old(State()), c, now, State(), None)
      ensures r.Some? ==> exists s1 :: PopAt(cfg, old(State()), c, now, s1, r)
                                       && State() == Launched(cfg, s1, c, r.value, now)
    {
      r := PopQueue(c, now);
      if r.Some? {
        var j := r.value;
        ghost var s1 := State();
        PopMembership(cfg, old(State()), c, now, s1, r, j);
        chans := chans[c := chans[c].(running := chans[c].running + {j},
                                      pause := if cfg.throttle[c] != 0 then now + cfg.throttle[c] else chans[c].pause)];
        if c > 0 {
          AddToQueue(cfg.parent[c], j);
        }
        assert State() == Launched(cfg, s1, c, j, now);
      }
    }

    /** The loop of `get_jobs_to_run` that yields jobs while there is capacity. */
    method Drain(c: nat, now: int) returns (yielded: seq<Job>)
      requires Valid() && c < |cfg.parent| && (cfg.throttle[c] == 0 || chans[c].pause == 0) && now >= 0
      modifies `chans, `eta
      ensures Valid() && Drained(cfg, old(State()), State(), c, now, yielded)
      ensures Exhausted(cfg, State(), c, now)
      ensures !CanYield(cfg, old(State()), c, now) ==> yielded == []
    {
      yielded := [];
      ghost var s0 := State();
      NothingDrained(cfg, s0, c, now);
      while HasCapacity(cfg, State(), c)
        invariant Valid() && Drained(cfg, s0, State(), c, now, yielded)
        invariant yielded != [] ==> cfg.throttle[c] == 0
        invariant yielded == [] ==> State() == s0
        invariant !CanYield(cfg, s0, c, now) ==> yielded == []
        invariant chans[c].pause == s0.chans[c].pause
        decreases |chans[c].ready + chans[c].waiting|
      {
        ghost var s := State();
        var r := TryLaunch(c, now);
        if r.None? {
          NothingReadyEffect(cfg, s0, s, State(), c, now, yielded);
          NothingReadyExhausts(cfg, s, State(), c, now);
          return;
        }
        ghost var s1 :| PopAt(cfg, s, c, now, s1, r) && State() == Launched(cfg, s1, c, r.value, now);
        LaunchEffect(cfg, s0, s, s1, c, now, r.value, yielded);
        LaunchPauses(cfg, s, s1, c, now, r.value);
        yielded := yielded + [r.value];
        if cfg.throttle[c] != 0 {
          return;
        }
      }
    }

    /** The first loop of `get_jobs_to_run`: consume the generators of the children
      * in their order; every job they yield is queued in `c`. */
    method ConsumeChildren(c: nat, now: int)
      requires Valid() && c < |cfg.parent| && now >= 0
      modifies `chans, `eta
      decreases |cfg.parent| - c, 1
      ensures Valid() && ChildrenDone(cfg, old(State()), State(), c, |cfg.parent|, now)
    {
      ghost var s0 := State();
      NoChildDone(cfg, s0, c, now);
      for d := c + 1 to |cfg.parent|
        invariant Valid() && ChildrenDone(cfg, s0, State(), c, d, now)
      {
        if cfg.parent[d] == c {
          ConsumeChild(c, d, now, s0);
        } else {
          NotAChild(cfg, s0, State(), c, d, now);
        }
      }
    }

    /** One child; `s0` is the state before the loop. */
    method ConsumeChild(c: nat, d: nat, now: int, ghost s0: Sched)
      requires Valid() && c < d < |cfg.parent| && cfg.parent[d] == c && now >= 0
      requires Inv(cfg, s0) && ChildrenDone(cfg, s0, State(), c, d, now)
      modifies `chans, `eta
      decreases |cfg.parent| - c, 0
      ensures Valid() && ChildrenDone(cfg, s0, State(), c, d + 1, now)
    {
      ghost var s := State();
      var js := GetJobsToRun(d, now);
      OneMoreChildDone(cfg, s0, s, State(), c, d, now, js);
    }

    /** `Channel.get_jobs_to_run`, consumed to its end. */
    method GetJobsToRun(c: nat, now: int) returns (yielded: seq<Job>)
      requires Valid() && c < |cfg.parent| && now >= 0
      modifies `chans, `eta
      decreases |cfg.parent| - c, 2
      ensures Valid() && Harvested(cfg, old(State()), State(), c, now, yielded)
      ensures Silent(cfg, old(State()), c, now) ==> yielded == []
      ensures forall d: nat :: d < |cfg.parent| && cfg.sequential[d] && old(chans)[d].failed != {} ==>
        d < |chans| && chans[d].running == old(chans)[d].running
      ensures cfg.sequential[c] && old(chans)[c].failed != {} ==> yielded == []
    {
      ghost var s0 := State();
      ConsumeChildren(c, now);
      yielded := YieldUnlessPaused(c, now, s0);
    }

    /** What follows the consumption of the children; `s0` is the state before it. */
    method YieldUnlessPaused(c: nat, now: int, ghost s0: Sched) returns (yielded: seq<Job>)
      requires Valid() && c < |cfg.parent| && now >= 0
      requires Inv(cfg, s0) && ChildrenDone(cfg, s0, State(), c, |cfg.parent|, now)
      modifies `chans, `eta
      ensures Valid() && Harvested(cfg, s0, State(), c, now, yielded)
      ensures Silent(cfg, s0, c, now) ==> yielded == []
    {
      ghost var s1 := State();
      if Silent(cfg, s0, c, now) {
        SilentCannotYield(cfg, s0, s1, c, now);
      }
      ReachesNow(cfg, now, s1);
      if cfg.throttle[c] != 0 && chans[c].pause != 0 {
        if now < chans[c].pause {
          NothingDrained(cfg, s1, c, now);
          HarvestComposes(cfg, s0, s1, s1, s1, c, now, []);
          return [];
        } else {
          chans := chans[c := chans[c].(pause := 0)];
          NextKeepsInv(cfg, s1, State(), Unpause(c, now));
          ReachesOneMore(cfg, now, s1, s1, State(), Unpause(c, now));
        }
      }
      ghost var s2 := State();
      yielded := Drain(c, now);
      HarvestComposes(cfg, s0, s1, s2, State(), c, now, yielded);
    }

    /** `ChannelQueue.get_wakeup_time`: the earliest eta of the waiting jobs. */
    method EarliestEta(c: nat) returns (w: int)
      requires Valid() && c < |cfg.parent| && chans[c].waiting != {}
      ensures w == FirstEta(State(), c)
    {
      assert ChanHeapsSound(State(), c);
      var e := FindEarliest(chans[c].waiting, eta);
      w := eta[e];
      forall j | j in chans[c].waiting ensures w <= eta[j] {
        assert !Before(eta[j], JobKey(j), eta[e], JobKey(e));
      }
    }

    /** `Channel.get_wakeup_time`. */
    method GetWakeupTime(c: nat, acc: int) returns (w: int)
      requires Valid() && c < |cfg.parent|
      decreases |cfg.parent| - c
      ensures w == WakeupTime(cfg, State(), c, acc)
    {
      w := acc;
      if !HasCapacity(cfg, State(), c) {
        return;
      }
      if chans[c].pause != 0 {
        return Sooner(w, chans[c].pause);
      }
      if chans[c].waiting != {} {
        var e := EarliestEta(c);
        w := Sooner(w, e);
      }
      for d := c + 1 to |cfg.parent|
        invariant WakeupTime(cfg, State(), c, acc) == WakeupOfChildren(cfg, State(), c, d, w)
      {
        if cfg.parent[d] == c {
          w := GetWakeupTime(d, w);
        }
      }
    }

    /** One turn of the runner (`run_jobs`, then the wake-up time it sleeps
      * until), followed by a second `run_jobs` at time `later` with nothing
      * notified in between: if the clock has not reached the wake-up time, the
      * second call finds nothing, so sleeping through it loses nothing; and the
      * wake-up time is never in the past, so the runner does not spin. */
    method SleepLosesNothing(now: int, later: int) returns (first: seq<Job>, wakeup: int, second: seq<Job>)
      requires Valid() && now >= 0 && later >= 0
      modifies `chans, `eta
      ensures Valid()
      ensures wakeup == 0 || wakeup > now
      ensures wakeup == 0 || later < wakeup ==> second == []
    {
      first := GetJobsToRun(0, now);
      wakeup := GetWakeupTime(0, 0);
      ghost var s := State();
      WakeupSound(cfg, s, 0, 0, now);
      second := GetJobsToRun(0, later);
      assert wakeup == 0 || later < wakeup ==> Silent(cfg, s, 0, later);
    }
  }
}
