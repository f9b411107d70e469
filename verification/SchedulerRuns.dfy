/** Runs of the channel manager: any sequence of notifications, removals and
  * scheduling steps, starting from an empty memory.
  */
module SchedulerRuns {
  import opened ChannelJobs
  import opened Channels
  import opened SchedulerSteps

  /** A trace: consecutive states joined by steps. */
  ghost predicate Trace(cfg: Config, states: seq<Sched>, steps: seq<Step>) {
    && |states| == |steps| + 1
    && forall i {:trigger steps[i]} :: 0 <= i < |steps| ==> Inv(cfg, states[i]) ==> Next(cfg, states[i], states[i+1], steps[i])
  }

  lemma {:induction false} TraceKeepsInv(cfg: Config, states: seq<Sched>, steps: seq<Step>, n: nat)
    requires Trace(cfg, states, steps) && Inv(cfg, states[0]) && n < |states|
    ensures Inv(cfg, states[n])
  {
    if n > 0 {
      TraceKeepsInv(cfg, states, steps, n - 1);
      NextKeepsInv(cfg, states[n-1], states[n], steps[n-1]);
    }
  }

  /** In every reachable state each job object is nowhere, failed in its own
    * channel only, running in the channels of a proper prefix of its path and
    * queued in the next one, or running in its whole path; a uuid has at most one
    * object in the channels; and no two of these places can hold together. */
  lemma PathShape(cfg: Config, states: seq<Sched>, steps: seq<Step>, n: nat, j: Job)
      returns (p: Place)
    requires ValidConfig(cfg) && Trace(cfg, states, steps) && states[0] == EmptySched(cfg) && n < |states|
    ensures At(cfg, states[n], j, p)
    ensures p != Nowhere ==> Current(states[n], j) && j.chan < |cfg.parent|
    ensures forall q :: j.chan < |cfg.parent| && At(cfg, states[n], j, q) ==> q == p
    ensures forall k: Job, q: Place :: k != j && k.uuid == j.uuid && p != Nowhere && At(cfg, states[n], k, q) && k.chan < |cfg.parent|
              ==> q == Nowhere
  {
    EmptyInv(cfg);
    TraceKeepsInv(cfg, states, steps, n);
    var s := states[n];
    if Current(s, j) {
      var q :| At(cfg, s, j, q);
      p := q;
    } else {
      p := Nowhere;
    }
    forall q | j.chan < |cfg.parent| && At(cfg, s, j, q) ensures q == p {
      PlaceUnique(cfg, s, j, p, q);
    }
    forall k: Job, q: Place | k != j && k.uuid == j.uuid && p != Nowhere && At(cfg, s, k, q) && k.chan < |cfg.parent|
      ensures q == Nowhere
    {
      assert !Current(s, k);
      PlaceUnique(cfg, s, k, Nowhere, q);
    }
  }

  // ----------------------------------------------------------------- capacity

  /** No launch raises a running count above the capacity; launches in other
    * channels do not change it. */
  lemma LaunchRespectsCapacity(cfg: Config, s: Sched, s': Sched, step: Step, c: nat)
    requires Inv(cfg, s) && Next(cfg, s, s', step) && step.Launch? && c < |cfg.parent|
    ensures c != step.c ==> s'.chans[c].running == s.chans[c].running
    ensures c == step.c && cfg.capacity[c] != 0 ==> |s'.chans[c].running| <= cfg.capacity[c]
    ensures c == step.c ==> s'.chans[c].running == s.chans[c].running + {step.job}
  {
  }

  /** A channel that must not start any job: it runs as many as its capacity, or it is
    * sequential and has a failed job. */
  ghost predicate Blocked(cfg: Config, s: Sched, c: nat)
    requires ValidConfig(cfg) && |s.chans| == |cfg.parent| && c < |cfg.parent|
  {
    || (cfg.capacity[c] != 0 && |s.chans[c].running| >= cfg.capacity[c])
    || (cfg.sequential[c] && s.chans[c].failed != {})
  }

  lemma LaunchNeedsOpenChannel(cfg: Config, s: Sched, s': Sched, step: Step)
    requires Inv(cfg, s) && Next(cfg, s, s', step) && step.Launch?
    ensures step.c < |cfg.parent| && !Blocked(cfg, s, step.c)
  {
  }

  lemma LaunchLeavesOthers(cfg: Config, s: Sched, s': Sched, step: Step, c: nat)
    requires Inv(cfg, s) && Next(cfg, s, s', step) && step.Launch? && c < |cfg.parent| && step.c != c
    ensures |s'.chans| == |s.chans| && s'.chans[c].failed == s.chans[c].failed && s'.chans[c].running == s.chans[c].running
  {
  }

  lemma NoLaunchStartsNothing(cfg: Config, s: Sched, s': Sched, step: Step, c: nat)
    requires Inv(cfg, s) && Next(cfg, s, s', step) && !step.Notified? && !step.Removed? && !step.Launch? && c < |cfg.parent|
    ensures |s'.chans| == |s.chans| && s'.chans[c].failed == s.chans[c].failed && s'.chans[c].running == s.chans[c].running
  {
    match step
    case NothingReady(_, _) =>
    case Unpause(_, _) =>
    case Purge(_) =>
    case Forget(_) =>
  }

  /** No scheduling step starts a job in a blocked channel, and it stays blocked. */
  lemma BlockedStandsStill(cfg: Config, s: Sched, s': Sched, step: Step, c: nat)
    requires Inv(cfg, s) && Next(cfg, s, s', step) && !step.Notified? && !step.Removed? && c < |cfg.parent|
    requires Blocked(cfg, s, c)
    ensures |s'.chans| == |s.chans| && s'.chans[c].running == s.chans[c].running && Blocked(cfg, s', c)
  {
    if step.Launch? {
      LaunchNeedsOpenChannel(cfg, s, s', step);
      LaunchLeavesOthers(cfg, s, s', step, c);
    } else {
      NoLaunchStartsNothing(cfg, s, s', step, c);
    }
  }

  /** Over every run, no job is launched from a channel that is full, or sequential with
    * a failed job. */
  lemma BlockedNeverLaunches(cfg: Config, states: seq<Sched>, steps: seq<Step>, i: nat)
    requires ValidConfig(cfg) && Trace(cfg, states, steps) && states[0] == EmptySched(cfg)
    requires i < |steps| && steps[i].Launch?
    ensures steps[i].c < |cfg.parent| && |states[i].chans| == |cfg.parent|
    ensures !(cfg.sequential[steps[i].c] && states[i].chans[steps[i].c].failed != {})
    ensures !(cfg.capacity[steps[i].c] != 0 && |states[i].chans[steps[i].c].running| >= cfg.capacity[steps[i].c])
  {
    EmptyInv(cfg);
    TraceKeepsInv(cfg, states, steps, i);
    LaunchNeedsOpenChannel(cfg, states[i], states[i + 1], steps[i]);
  }

  // ----------------------------------------------------------------- throttle

  predicate Timed(step: Step) {
    step.Launch? || step.NothingReady? || step.Unpause?
  }

  /** The clock readings passed to `get_jobs_to_run` never go back. */
  ghost predicate ClockMonotone(steps: seq<Step>) {
    && (forall i :: 0 <= i < |steps| && Timed(steps[i]) ==> steps[i].now >= 0)
    && forall i, k :: 0 <= i < k < |steps| && Timed(steps[i]) && Timed(steps[k]) ==> steps[i].now <= steps[k].now
  }

  lemma StepPause(cfg: Config, s: Sched, s': Sched, step: Step, c: nat)
    requires Inv(cfg, s) && Next(cfg, s, s', step) && c < |cfg.parent|
    ensures |s'.chans| == |cfg.parent|
    ensures step.Launch? && step.c == c && cfg.throttle[c] != 0 ==>
              s.chans[c].pause == 0 && s'.chans[c].pause == step.now + cfg.throttle[c]
    ensures step.Unpause? && step.c == c ==> s.chans[c].pause <= step.now && s'.chans[c].pause == 0
    ensures step.Launch? && step.c == c && cfg.throttle[c] == 0 ==> s'.chans[c].pause == s.chans[c].pause
    ensures !((step.Launch? || step.Unpause?) && step.c == c) ==> s'.chans[c].pause == s.chans[c].pause
  {
    match step
    case Notified(u, db, chan, key, eta, st) => var _ := NotifyWorks(cfg, s, u, db, chan, key, eta, st);
    case Removed(u) => RemoveJobWorks(cfg, s, u);
    case _ =>
  }

  /** Over every run, a channel that pauses does so because of its last launch, for exactly
    * its throttle and not longer. */
  lemma {:induction false} PausesForThrottle(cfg: Config, states: seq<Sched>, steps: seq<Step>, n: nat, c: nat) returns (i: nat)
    requires ValidConfig(cfg) && Trace(cfg, states, steps) && states[0] == EmptySched(cfg) && n < |states| && c < |cfg.parent|
    ensures |states[n].chans| == |cfg.parent|
    ensures states[n].chans[c].pause != 0 ==>
      && i < n && steps[i].Launch? && steps[i].c == c && cfg.throttle[c] != 0
      && states[n].chans[c].pause == steps[i].now + cfg.throttle[c]
      && forall k :: i < k < n ==> !(steps[k].Launch? && steps[k].c == c)
  {
    i := 0;
    EmptyInv(cfg);
    TraceKeepsInv(cfg, states, steps, n);
    if n > 0 {
      var h := PausesForThrottle(cfg, states, steps, n - 1, c);
      TraceKeepsInv(cfg, states, steps, n - 1);
      assert Next(cfg, states[n - 1], states[n - 1 + 1], steps[n - 1]);
      StepPause(cfg, states[n - 1], states[n], steps[n - 1], c);
      i := if steps[n - 1].Launch? && steps[n - 1].c == c then n - 1 else h;
      UnthrottledNeverPauses(cfg, states[n - 1], c);
    }
  }

  lemma UnthrottledNeverPauses(cfg: Config, s: Sched, c: nat)
    requires Inv(cfg, s) && c < |cfg.parent|
    ensures cfg.throttle[c] == 0 ==> s.chans[c].pause == 0
  {
  }

  /** After a launch at time t, and until a clock reading of at least
    * t + throttle, the channel stays paused until at least that time. */
  lemma {:induction false} PauseLasts(cfg: Config, states: seq<Sched>, steps: seq<Step>, i: nat, k: nat)
    requires ValidConfig(cfg) && Trace(cfg, states, steps) && Inv(cfg, states[0])
    requires ClockMonotone(steps)
    requires i < k < |states| && steps[i].Launch? && steps[i].c < |cfg.parent| && cfg.throttle[steps[i].c] != 0
    ensures |states[k].chans| == |cfg.parent|
    ensures || states[k].chans[steps[i].c].pause >= steps[i].now + cfg.throttle[steps[i].c]
            || exists m :: i < m < k && Timed(steps[m]) && steps[m].now >= steps[i].now + cfg.throttle[steps[i].c]
  {
    var c := steps[i].c;
    TraceKeepsInv(cfg, states, steps, k - 1);
    StepPause(cfg, states[k-1], states[k], steps[k-1], c);
    if i + 1 < k {
      PauseLasts(cfg, states, steps, i, k - 1);
      if (steps[k-1].Launch? || steps[k-1].Unpause?) && steps[k-1].c == c {
        assert steps[k-1].now >= 0;
        if states[k-1].chans[c].pause >= steps[i].now + cfg.throttle[c] {
          assert steps[i].now >= 0;
          assert Timed(steps[k-1]) && steps[k-1].now >= steps[i].now + cfg.throttle[c];
        }
      }
    }
  }

  /** Over every run with a monotone clock, two launches of a throttled channel
    * are at least `throttle` seconds apart, whatever happens between them. */
  lemma ThrottleKept(cfg: Config, states: seq<Sched>, steps: seq<Step>, i: nat, k: nat)
    requires ValidConfig(cfg) && Trace(cfg, states, steps) && states[0] == EmptySched(cfg)
    requires ClockMonotone(steps)
    requires i < k < |steps| && steps[i].Launch? && steps[k].Launch? && steps[i].c == steps[k].c
    ensures steps[i].c < |cfg.parent| && steps[k].now >= steps[i].now + cfg.throttle[steps[i].c]
  {
    EmptyInv(cfg);
    TraceKeepsInv(cfg, states, steps, i);
    TraceKeepsInv(cfg, states, steps, k);
    var c := steps[i].c;
    assert Timed(steps[i]) && Timed(steps[k]);
    assert Next(cfg, states[i], states[i+1], steps[i]);
    if cfg.throttle[c] != 0 {
      PauseLasts(cfg, states, steps, i, k);
      StepPause(cfg, states[k], states[k+1], steps[k], c);
    }
  }

  // ------------------------------------------------- steps at one clock reading

  /** `t` is reached from `s` by scheduling steps that all read the clock `now`
    * (and by housekeeping), in the order of the steps. */
  ghost predicate ReachesAt(cfg: Config, now: int, s: Sched, t: Sched) {
    exists states, steps ::
      && Trace(cfg, states, steps) && states[0] == s && states[|steps|] == t
      && AllAt(steps, now)
  }

  ghost predicate AllAt(steps: seq<Step>, now: int) {
    forall i :: 0 <= i < |steps| ==>
      (Timed(steps[i]) && steps[i].now == now) || steps[i].Purge? || steps[i].Forget?
  }

  lemma ReachesNow(cfg: Config, now: int, s: Sched)
    ensures ReachesAt(cfg, now, s, s)
  {
    assert Trace(cfg, [s], []) && AllAt([], now);
  }

  lemma ReachesOneMore(cfg: Config, now: int, s: Sched, t: Sched, t': Sched, step: Step)
    requires ReachesAt(cfg, now, s, t) && Inv(cfg, t) && Next(cfg, t, t', step)
    requires (Timed(step) && step.now == now) || step.Purge? || step.Forget?
    ensures ReachesAt(cfg, now, s, t')
  {
    var states, steps :| Trace(cfg, states, steps) && states[0] == s && states[|steps|] == t && AllAt(steps, now);
    var states', steps' := states + [t'], steps + [step];
    assert Trace(cfg, states', steps') && AllAt(steps', now);
    assert states'[|steps'|] == t';
  }

  lemma ReachesTransitive(cfg: Config, now: int, s: Sched, t: Sched, u: Sched)
    requires ReachesAt(cfg, now, s, t) && ReachesAt(cfg, now, t, u)
    ensures ReachesAt(cfg, now, s, u)
  {
    var states, steps :| Trace(cfg, states, steps) && states[0] == s && states[|steps|] == t && AllAt(steps, now);
    var states1, steps1 :| Trace(cfg, states1, steps1) && states1[0] == t && states1[|steps1|] == u && AllAt(steps1, now);
    var states2, steps2 := states + states1[1..], steps + steps1;
    forall i | 0 <= i < |steps2|
      ensures Inv(cfg, states2[i]) ==> Next(cfg, states2[i], states2[i+1], steps2[i])
    {
      if i >= |steps| {
        var k := i - |steps|;
        assert states2[i] == states1[k] && states2[i+1] == states1[k+1];
      }
    }
    assert AllAt(steps2, now);
    assert states2[0] == s;
    assert states2[|steps2|] == u by {
      if |steps1| > 0 {
        assert states2[|steps2|] == states1[|steps1|];
      }
    }
    assert Trace(cfg, states2, steps2);
  }

  lemma {:induction false} BlockedAlong(cfg: Config, states: seq<Sched>, steps: seq<Step>, now: int, c: nat, n: nat)
    requires Trace(cfg, states, steps) && Inv(cfg, states[0]) && AllAt(steps, now) && n <= |steps|
    requires c < |cfg.parent| && Blocked(cfg, states[0], c)
    ensures Inv(cfg, states[n]) && Blocked(cfg, states[n], c) && states[n].chans[c].running == states[0].chans[c].running
  {
    if n > 0 {
      BlockedAlong(cfg, states, steps, now, c, n - 1);
      assert Next(cfg, states[n - 1], states[n - 1 + 1], steps[n - 1]);
      NextKeepsInv(cfg, states[n - 1], states[n], steps[n - 1]);
      BlockedStandsStill(cfg, states[n - 1], states[n], steps[n - 1], c);
    }
  }

  /** However many scheduling steps there are, a blocked channel starts no job. */
  lemma BlockedStartsNothing(cfg: Config, now: int, s: Sched, t: Sched, c: nat)
    requires Inv(cfg, s) && ReachesAt(cfg, now, s, t) && c < |cfg.parent| && Blocked(cfg, s, c)
    ensures c < |t.chans| && t.chans[c].running == s.chans[c].running
  {
    var states, steps :| Trace(cfg, states, steps) && states[0] == s && states[|steps|] == t && AllAt(steps, now);
    BlockedAlong(cfg, states, steps, now, c, |steps|);
  }
}
