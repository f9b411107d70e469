/** What is left in the channels after `get_jobs_to_run`, and when the runner has
  * to wake up again (`get_wakeup_time`).
  */
module JobSelection {
  import opened ChannelJobs
  import opened Channels
  import opened SchedulerSteps

  ghost predicate NothingDue(s: Sched, c: nat, now: int)
    requires c < |s.chans|
  {
    forall j :: j in s.chans[c].waiting ==> Eta(s, j) > now
  }

  /** The queue gives nothing although its waiting jobs are not due. */
  ghost predicate NothingToPop(cfg: Config, s: Sched, c: nat)
    requires Inv(cfg, s) && c < |cfg.parent|
  {
    assert ChanHeapsSound(s, c);
    || s.chans[c].ready == {}
    || (cfg.sequential[c] && HeldBack(s.chans[c].ready, s.chans[c].waiting, JobKey, s.eta))
  }

  /** Channel `c` is used up at time `now`: it is full (or blocked by a failed
    * job), or it pauses beyond `now`, or its queue gives nothing more. */
  ghost predicate Exhausted(cfg: Config, s: Sched, c: nat, now: int)
    requires Inv(cfg, s) && c < |cfg.parent|
  {
    || !HasCapacity(cfg, s, c)
    || s.chans[c].pause > now
    || (s.chans[c].pause == 0 && NothingDue(s, c, now) && NothingToPop(cfg, s, c))
  }

  /** The tree above (and with) `c` has nothing to yield at time `t`. */
  ghost predicate Silent(cfg: Config, s: Sched, c: nat, t: int)
    requires Inv(cfg, s) && c < |cfg.parent|
    decreases |cfg.parent| - c
  {
    || !HasCapacity(cfg, s, c)
    || (s.chans[c].pause != 0 && t < s.chans[c].pause)
    || (&& s.chans[c].pause == 0 && NothingDue(s, c, t) && NothingToPop(cfg, s, c)
        && forall d :: c < d < |cfg.parent| && cfg.parent[d] == c ==> Silent(cfg, s, d, t))
  }

  /** Exhausted without any throttle in play: at capacity or nothing to run. */
  lemma WorkConserved(cfg: Config, s: Sched, c: nat, now: int)
    requires Inv(cfg, s) && c < |cfg.parent| && Exhausted(cfg, s, c, now)
    requires cfg.throttle[c] == 0 && !cfg.sequential[c] && now >= 0
    ensures || (cfg.capacity[c] != 0 && |s.chans[c].running| >= cfg.capacity[c])
            || forall j :: Queued(s, c, j) ==> Eta(s, j) > now && Eta(s, j) != 0
    ensures cfg.capacity[c] == 0 ==> forall j :: Queued(s, c, j) ==> Eta(s, j) > now && Eta(s, j) != 0
  {
    assert ChanHeapsSound(s, c);
  }

  // ------------------------------------------------------------------- frames

  /** Channel `c` and the etas of its waiting jobs are the same in both states. */
  ghost predicate SameChannel(s: Sched, s': Sched, c: nat) {
    && c < |s.chans| == |s'.chans|
    && s'.chans[c] == s.chans[c]
    && forall j :: j in s.chans[c].waiting ==> Eta(s', j) == Eta(s, j)
  }

  lemma HeldBackFrame(ready: set<Job>, waiting: set<Job>, eta: map<Job, int>, eta': map<Job, int>)
    requires waiting <= eta.Keys && waiting <= eta'.Keys
    requires forall j :: j in waiting ==> eta'[j] == eta[j]
    ensures HeldBack(ready, waiting, JobKey, eta) ==> HeldBack(ready, waiting, JobKey, eta')
  {
    if HeldBack(ready, waiting, JobKey, eta) {
      var e, b :| e in waiting && b in ready && IsEarliest(waiting, JobKey, eta, e) && IsBest(ready, JobKey, b)
                  && KeyLess(JobKey(e), JobKey(b));
      assert IsEarliest(waiting, JobKey, eta', e);
    }
  }

  lemma ExhaustedFrame(cfg: Config, s: Sched, s': Sched, c: nat, now: int)
    requires Inv(cfg, s) && Inv(cfg, s') && c < |cfg.parent| && SameChannel(s, s', c)
    requires Exhausted(cfg, s, c, now)
    ensures Exhausted(cfg, s', c, now)
  {
    assert ChanHeapsSound(s, c) && ChanHeapsSound(s', c);
    if HasCapacity(cfg, s, c) && s.chans[c].pause == 0 && NothingToPop(cfg, s, c) {
      HeldBackFrame(s.chans[c].ready, s.chans[c].waiting, s.eta, s'.eta);
    }
  }

  lemma {:induction false} SilentFrame(cfg: Config, s: Sched, s': Sched, c: nat, t: int)
    requires Inv(cfg, s) && Inv(cfg, s') && c < |cfg.parent|
    requires forall d: nat :: d < |cfg.parent| && OnPath(cfg, d, c) ==> SameChannel(s, s', d)
    requires Silent(cfg, s, c, t)
    ensures Silent(cfg, s', c, t)
    decreases |cfg.parent| - c
  {
    assert OnPath(cfg, c, c);
    assert ChanHeapsSound(s, c) && ChanHeapsSound(s', c);
    if HasCapacity(cfg, s, c) && s.chans[c].pause == 0 {
      HeldBackFrame(s.chans[c].ready, s.chans[c].waiting, s.eta, s'.eta);
      forall d | c < d < |cfg.parent| && cfg.parent[d] == c ensures Silent(cfg, s', d, t) {
        forall e: nat | e < |cfg.parent| && OnPath(cfg, e, d) ensures SameChannel(s, s', e) {
          PathGoesDown(cfg, e, d);
          assert OnPath(cfg, e, c);
        }
        SilentFrame(cfg, s, s', d, t);
      }
    }
  }

  // -------------------------------------------------------------- wake-up time

  /** The earlier of two wake-up times, 0 meaning "none". */
  function Sooner(acc: int, t: int): int {
    if acc == 0 then t else if t < acc then t else acc
  }

  /** `w` is the earliest of the etas of the waiting jobs of channel `c`. */
  ghost predicate IsFirstEta(s: Sched, c: nat, w: int)
    requires c < |s.chans|
  {
    && (exists j :: j in s.chans[c].waiting && Eta(s, j) == w)
    && forall j :: j in s.chans[c].waiting ==> w <= Eta(s, j)
  }

  lemma {:induction false} FirstEtaExists(s: Sched, S: set<Job>)
    requires S != {}
    ensures exists m :: m in S && forall k :: k in S ==> Eta(s, m) <= Eta(s, k)
  {
    var x :| x in S;
    if S == {x} {
      assert forall k :: k in S ==> Eta(s, x) <= Eta(s, k);
    } else {
      FirstEtaExists(s, S - {x});
      var y :| y in S - {x} && forall k :: k in S - {x} ==> Eta(s, y) <= Eta(s, k);
      var m := if Eta(s, x) <= Eta(s, y) then x else y;
      forall k | k in S ensures Eta(s, m) <= Eta(s, k) {
        assert k == x || k in S - {x};
      }
    }
  }

  ghost function FirstEta(s: Sched, c: nat): (w: int)
    requires c < |s.chans| && s.chans[c].waiting != {}
    ensures IsFirstEta(s, c, w)
  {
    FirstEtaExists(s, s.chans[c].waiting);
    var m :| m in s.chans[c].waiting && forall k :: k in s.chans[c].waiting ==> Eta(s, m) <= Eta(s, k);
    Eta(s, m)
  }

  /** `Channel.get_wakeup_time`, with the children from `d` on still to visit in
    * `WakeupOfChildren`. */
  ghost function WakeupTime(cfg: Config, s: Sched, c: nat, acc: int): int
    requires ValidConfig(cfg) && |s.chans| == |cfg.parent| && c < |cfg.parent|
    decreases |cfg.parent| - c, |cfg.parent| + 1
  {
    if !HasCapacity(cfg, s, c) then acc
    else if s.chans[c].pause != 0 then Sooner(acc, s.chans[c].pause)
    else
      WakeupOfChildren(cfg, s, c, c + 1, if s.chans[c].waiting == {} then acc else Sooner(acc, FirstEta(s, c)))
  }

  ghost function WakeupOfChildren(cfg: Config, s: Sched, c: nat, d: nat, acc: int): int
    requires ValidConfig(cfg) && |s.chans| == |cfg.parent| && c < d <= |cfg.parent|
    decreases |cfg.parent| - c, |cfg.parent| - d
  {
    if d == |cfg.parent| then acc
    else WakeupOfChildren(cfg, s, c, d + 1, if cfg.parent[d] == c then WakeupTime(cfg, s, d, acc) else acc)
  }

  /** `w` is a wake-up time at most `acc`, still ahead of `now`. */
  ghost predicate NotLater(w: int, acc: int, now: int) {
    && (w == 0 || w > now)
    && (acc != 0 ==> w != 0 && w <= acc)
  }

  /** No timed wake-up is lost: once every channel of a tree is exhausted, the
    * wake-up time is 0 ("none") or ahead of now, and at every time before it (any
    * time at all when it is 0) the tree stays silent. */
  lemma {:induction false} WakeupSound(cfg: Config, s: Sched, c: nat, acc: int, now: int)
    requires Inv(cfg, s) && c < |cfg.parent| && now >= 0 && (acc == 0 || acc > now)
    requires forall d: nat :: d < |cfg.parent| && OnPath(cfg, d, c) ==> Exhausted(cfg, s, d, now)
    ensures NotLater(WakeupTime(cfg, s, c, acc), acc, now)
    ensures forall t :: (WakeupTime(cfg, s, c, acc) == 0 || t < WakeupTime(cfg, s, c, acc)) ==> Silent(cfg, s, c, t)
    decreases |cfg.parent| - c, |cfg.parent| + 1
  {
    assert OnPath(cfg, c, c);
    assert ChanHeapsSound(s, c);
    if HasCapacity(cfg, s, c) && s.chans[c].pause == 0 {
      var acc1 := if s.chans[c].waiting == {} then acc else Sooner(acc, FirstEta(s, c));
      WakeupOfChildrenSound(cfg, s, c, c + 1, acc1, now);
      var w := WakeupTime(cfg, s, c, acc);
      assert w == WakeupOfChildren(cfg, s, c, c + 1, acc1);
      forall t | w == 0 || t < w ensures Silent(cfg, s, c, t) {
        assert NothingDue(s, c, t);
      }
    }
  }

  lemma {:induction false} WakeupOfChildrenSound(cfg: Config, s: Sched, c: nat, d: nat, acc: int, now: int)
    requires Inv(cfg, s) && c < d <= |cfg.parent| && now >= 0 && (acc == 0 || acc > now)
    requires forall e: nat :: e < |cfg.parent| && OnPath(cfg, e, c) ==> Exhausted(cfg, s, e, now)
    ensures NotLater(WakeupOfChildren(cfg, s, c, d, acc), acc, now)
    ensures forall e, t :: d <= e < |cfg.parent| && cfg.parent[e] == c
              && (WakeupOfChildren(cfg, s, c, d, acc) == 0 || t < WakeupOfChildren(cfg, s, c, d, acc))
              ==> Silent(cfg, s, e, t)
    decreases |cfg.parent| - c, |cfg.parent| - d
  {
    if d < |cfg.parent| {
      var acc1 := acc;
      if cfg.parent[d] == c {
        forall e: nat | e < |cfg.parent| && OnPath(cfg, e, d) ensures Exhausted(cfg, s, e, now) {
          PathGoesDown(cfg, e, d);
        }
        WakeupSound(cfg, s, d, acc, now);
        acc1 := WakeupTime(cfg, s, d, acc);
      }
      WakeupOfChildrenSound(cfg, s, c, d + 1, acc1, now);
    }
  }
}
