/** The wake-up time exactly: the earliest time that any channel asks for, where only
  * channels count from which the way to the root is open (`get_wakeup_time`).
  */
module WakeupTimes {
  import opened ChannelJobs
  import opened Channels
  import opened SchedulerSteps
  import opened SchedulerRuns
  import opened JobSelection

  /** No channel between `d` and `c`, `c` included, is blocked or paused. */
  ghost predicate WayIsOpen(cfg: Config, s: Sched, d: nat, c: nat)
    requires ValidConfig(cfg) && |s.chans| == |cfg.parent| && d < |cfg.parent|
  {
    forall e: nat :: e < |cfg.parent| && e != d && OnPath(cfg, d, e) && OnPath(cfg, e, c) ==>
      !Blocked(cfg, s, e) && s.chans[e].pause == 0
  }

  /** Channel `d` of the subtree of `c` asks for time `t`: the end of its pause or, if it
    * is not paused, the first eta it waits for. */
  ghost predicate Asks(cfg: Config, s: Sched, c: nat, d: nat, t: int)
    requires ValidConfig(cfg) && |s.chans| == |cfg.parent| && c < |cfg.parent|
  {
    && d < |cfg.parent| && OnPath(cfg, d, c) && WayIsOpen(cfg, s, d, c) && !Blocked(cfg, s, d)
    && if s.chans[d].pause != 0 then t == s.chans[d].pause else IsFirstEta(s, d, t)
  }

  /** What a child's subtree asks for, its parent asks for, unless it is closed. */
  lemma AskedThroughParent(cfg: Config, s: Sched, c: nat, x: nat, d: nat, t: int)
    requires ValidConfig(cfg) && |s.chans| == |cfg.parent| && c < x < |cfg.parent| && cfg.parent[x] == c
    requires !Blocked(cfg, s, c) && s.chans[c].pause == 0 && Asks(cfg, s, x, d, t)
    ensures Asks(cfg, s, c, d, t)
  {
    PathGoesDown(cfg, d, x);
    forall e: nat | e < |cfg.parent| && e != d && OnPath(cfg, d, e) && OnPath(cfg, e, c)
      ensures !Blocked(cfg, s, e) && s.chans[e].pause == 0
    {
      if e != c {
        PathIsLinear(cfg, d, e, x);
        if !OnPath(cfg, e, x) {
          PathGoesDown(cfg, e, c);
          PathGoesDown(cfg, c, e);
        }
      }
    }
  }

  lemma AskedByChild(cfg: Config, s: Sched, c: nat, d: nat, t: int) returns (x: nat)
    requires ValidConfig(cfg) && |s.chans| == |cfg.parent| && c < |cfg.parent| && Asks(cfg, s, c, d, t) && d != c
    ensures c < x < |cfg.parent| && cfg.parent[x] == c && Asks(cfg, s, x, d, t)
    ensures !Blocked(cfg, s, c) && s.chans[c].pause == 0
  {
    x := ChildTowards(cfg, c, d);
    assert OnPath(cfg, c, c);
    forall e: nat | e < |cfg.parent| && e != d && OnPath(cfg, d, e) && OnPath(cfg, e, x)
      ensures !Blocked(cfg, s, e) && s.chans[e].pause == 0
    {
      PathGoesDown(cfg, e, x);
    }
  }

  // ------------------------------------------------ it is a time that is asked for

  /** A time is `acc`, or some channel of the subtree asks for it. */
  ghost predicate Asked(cfg: Config, s: Sched, c: nat, acc: int, w: int)
    requires ValidConfig(cfg) && |s.chans| == |cfg.parent| && c < |cfg.parent|
  {
    w == acc || exists d :: Asks(cfg, s, c, d, w)
  }

  lemma OwnAsks(cfg: Config, s: Sched, c: nat)
    requires Inv(cfg, s) && c < |cfg.parent| && !Blocked(cfg, s, c)
    ensures s.chans[c].pause != 0 ==> Asks(cfg, s, c, c, s.chans[c].pause)
    ensures s.chans[c].pause == 0 && s.chans[c].waiting != {} ==> Asks(cfg, s, c, c, FirstEta(s, c))
  {
    forall e: nat | e < |cfg.parent| && OnPath(cfg, c, e) && OnPath(cfg, e, c) ensures e == c {
      PathGoesDown(cfg, c, e);
      PathGoesDown(cfg, e, c);
    }
  }

  lemma {:induction false} WakeupIsAsked(cfg: Config, s: Sched, c: nat, acc: int)
    requires Inv(cfg, s) && c < |cfg.parent|
    ensures Asked(cfg, s, c, acc, WakeupTime(cfg, s, c, acc))
    decreases |cfg.parent| - c, |cfg.parent| + 1
  {
    if HasCapacity(cfg, s, c) {
      OwnAsks(cfg, s, c);
      if s.chans[c].pause == 0 {
        var acc1 := if s.chans[c].waiting == {} then acc else Sooner(acc, FirstEta(s, c));
        ChildrenAreAsked(cfg, s, c, c + 1, acc1);
      }
    }
  }

  lemma {:induction false} ChildrenAreAsked(cfg: Config, s: Sched, c: nat, x: nat, acc: int)
    requires Inv(cfg, s) && c < x <= |cfg.parent| && !Blocked(cfg, s, c) && s.chans[c].pause == 0
    ensures Asked(cfg, s, c, acc, WakeupOfChildren(cfg, s, c, x, acc))
    decreases |cfg.parent| - c, |cfg.parent| - x
  {
    if x < |cfg.parent| {
      if cfg.parent[x] == c {
        var acc1 := WakeupTime(cfg, s, x, acc);
        WakeupIsAsked(cfg, s, x, acc);
        if acc1 != acc {
          var d :| Asks(cfg, s, x, d, acc1);
          AskedThroughParent(cfg, s, c, x, d, acc1);
        }
        ChildrenAreAsked(cfg, s, c, x + 1, acc1);
      } else {
        ChildrenAreAsked(cfg, s, c, x + 1, acc);
      }
    }
  }

  // -------------------------------------------------- and none asks for an earlier

  /** At most `acc` (unless that is 0), and 0 only if `acc` is. */
  ghost predicate AtMost(w: int, acc: int) { acc != 0 ==> w != 0 && w <= acc }

  lemma SoonerAtMost(acc: int, t: int)
    requires t != 0
    ensures AtMost(Sooner(acc, t), acc) && AtMost(Sooner(acc, t), t)
  {
  }

  lemma {:induction false} WakeupIsEarliest(cfg: Config, s: Sched, c: nat, acc: int)
    requires Inv(cfg, s) && c < |cfg.parent|
    ensures AtMost(WakeupTime(cfg, s, c, acc), acc)
    ensures forall d, t :: Asks(cfg, s, c, d, t) ==> AtMost(WakeupTime(cfg, s, c, acc), t)
    decreases |cfg.parent| - c, |cfg.parent| + 1
  {
    assert ChanHeapsSound(s, c);
    if HasCapacity(cfg, s, c) && s.chans[c].pause == 0 {
      var acc1 := if s.chans[c].waiting == {} then acc else Sooner(acc, FirstEta(s, c));
      ChildrenAreEarliest(cfg, s, c, c + 1, acc1);
    }
    forall d, t | Asks(cfg, s, c, d, t) ensures AtMost(WakeupTime(cfg, s, c, acc), t) {
      if d != c {
        var x := AskedByChild(cfg, s, c, d, t);
      }
    }
  }

  lemma {:induction false} ChildrenAreEarliest(cfg: Config, s: Sched, c: nat, x: nat, acc: int)
    requires Inv(cfg, s) && c < x <= |cfg.parent|
    ensures AtMost(WakeupOfChildren(cfg, s, c, x, acc), acc)
    ensures forall y, d, t :: x <= y < |cfg.parent| && cfg.parent[y] == c && Asks(cfg, s, y, d, t) ==>
      AtMost(WakeupOfChildren(cfg, s, c, x, acc), t)
    decreases |cfg.parent| - c, |cfg.parent| - x
  {
    if x < |cfg.parent| {
      var acc1 := acc;
      if cfg.parent[x] == c {
        WakeupIsEarliest(cfg, s, x, acc);
        acc1 := WakeupTime(cfg, s, x, acc);
      }
      ChildrenAreEarliest(cfg, s, c, x + 1, acc1);
    }
  }

  /** The wake-up time is exactly the earliest time that any channel asks for from which
    * the way down to `c` is open, and 0 if no channel does. */
  lemma WakeupExactly(cfg: Config, s: Sched, c: nat)
    requires Inv(cfg, s) && c < |cfg.parent|
    ensures WakeupTime(cfg, s, c, 0) != 0 ==> exists d :: Asks(cfg, s, c, d, WakeupTime(cfg, s, c, 0))
    ensures forall d, t :: Asks(cfg, s, c, d, t) ==> WakeupTime(cfg, s, c, 0) != 0 && WakeupTime(cfg, s, c, 0) <= t
  {
    WakeupIsAsked(cfg, s, c, 0);
    WakeupIsEarliest(cfg, s, c, 0);
    forall d, t | Asks(cfg, s, c, d, t) ensures t != 0 {
      assert ChanHeapsSound(s, d);
    }
  }
}
