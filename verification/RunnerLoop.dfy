/** Runs of the protocol joined to longer ones, and `run_jobs` as a run: the scheduling
  * steps inside `get_jobs_to_run`, each job of the root channel being requested before
  * the next step.
  */
module RunnerLoop {
  import opened ChannelJobs
  import opened Channels
  import opened SchedulerSteps
  import opened SchedulerRuns
  import opened RunProtocol
  import opened RunMemory
  import opened RunPlaces
  import opened RunTheorems

  /** Some run leads from one world to another. */
  ghost predicate Leads(cfg: Config, w: World, w': World) {
    exists ws: seq<World>, es: seq<Event> :: Run(cfg, ws, es) && ws[0] == w && ws[|es|] == w'
  }

  lemma LeadsNowhere(cfg: Config, w: World)
    ensures Leads(cfg, w, w)
  {
    assert Run(cfg, [w], []);
  }

  /** Consecutive elements of `ws` are related by `step`. */
  ghost predicate Joins<W(!new), E(!new)>(step: (W, W, E) -> bool, ws: seq<W>, es: seq<E>) {
    && |ws| == |es| + 1
    && forall i {:trigger es[i]} :: 0 <= i < |es| ==> step(ws[i], ws[i + 1], es[i])
  }

  lemma JoinsOneMore<W(!new), E(!new)>(step: (W, W, E) -> bool, ws: seq<W>, es: seq<E>, w: W, e: E)
    requires Joins(step, ws, es) && step(ws[|es|], w, e)
    ensures Joins(step, ws + [w], es + [e])
  {
    var us, gs := ws + [w], es + [e];
    forall i | 0 <= i < |gs| ensures step(us[i], us[i + 1], gs[i]) {
      if i < |es| {
        assert us[i] == ws[i] && us[i + 1] == ws[i + 1] && gs[i] == es[i];
      }
    }
  }

  lemma RunOn(cfg: Config, ws: seq<World>, es: seq<Event>, w: World, e: Event)
    requires Run(cfg, ws, es) && Follows(cfg, ws[|es|], w, e)
    ensures Run(cfg, ws + [w], es + [e]) && (ws + [w])[0] == ws[0] && (ws + [w])[|es + [e]|] == w
  {
    var step := (a, b, c) => Follows(cfg, a, b, c);
    JoinsOneMore(step, ws, es, w, e);
  }

  lemma LeadsOn(cfg: Config, w: World, w': World, w'': World, e: Event)
    requires Leads(cfg, w, w') && Follows(cfg, w', w'', e)
    ensures Leads(cfg, w, w'')
  {
    var ws, es :| Run(cfg, ws, es) && ws[0] == w && ws[|es|] == w';
    RunOn(cfg, ws, es, w'', e);
  }

  lemma LeadsStep(cfg: Config, w: World, w': World, w'': World, e: Event)
    requires Leads(cfg, w, w') && WInv(cfg, w') && NextWorld(cfg, w', w'', e)
    ensures Leads(cfg, w, w'') && WInv(cfg, w'')
  {
    NextWorldKeepsInv(cfg, w', w'', e);
    LeadsOn(cfg, w, w', w'', e);
  }

  lemma LeadsFurther(cfg: Config, a: World, b: World, c: World)
    requires Leads(cfg, a, b) && Leads(cfg, b, c)
    ensures Leads(cfg, a, c)
  {
    var ws, es :| Run(cfg, ws, es) && ws[0] == a && ws[|es|] == b;
    var vs, fs :| Run(cfg, vs, fs) && vs[0] == b && vs[|fs|] == c;
    var us, gs := ws + vs[1..], es + fs;
    forall i | 0 <= i < |gs| ensures Follows(cfg, us[i], us[i + 1], gs[i]) {
      if i >= |es| {
        var k := i - |es|;
        assert Follows(cfg, vs[k], vs[k + 1], fs[k]);
        assert us[i] == vs[k] && us[i + 1] == vs[k + 1] && gs[i] == fs[k];
      } else {
        assert Follows(cfg, ws[i], ws[i + 1], es[i]);
      }
    }
    assert us[|gs|] == c by {
      if |fs| > 0 {
        assert us[|gs|] == vs[|fs|];
      }
    }
    assert Run(cfg, us, gs);
  }

  /** What holds over runs holds where they lead. */
  lemma LeadsKeeps(cfg: Config, w: World, w': World)
    requires Leads(cfg, w, w') && WInv(cfg, w)
    ensures WInv(cfg, w') && (WithinLimits(cfg, w) ==> WithinLimits(cfg, w'))
  {
    var ws, es :| Run(cfg, ws, es) && ws[0] == w && ws[|es|] == w';
    RunKeepsInv(cfg, ws, es, |es|);
  }

  // ------------------------------------------------------------- one step each

  function Opened(w: World, db: nat): World {
    w.(open := w.open + {db}, unread := Selected(w, db))
  }

  lemma OpenLeads(cfg: Config, w: World, db: nat)
    requires WInv(cfg, w) && !w.up && w.unread == map[] && db !in w.open
    ensures Leads(cfg, w, Opened(w, db)) && WInv(cfg, Opened(w, db))
  {
    LeadsNowhere(cfg, w);
    assert NextWorld(cfg, w, Opened(w, db), Open(db));
    LeadsStep(cfg, w, w, Opened(w, db), Open(db));
  }

  lemma ReadyLeads(cfg: Config, w: World)
    requires WInv(cfg, w) && !w.up && w.unread == map[] && forall u :: u in w.specs ==> u.db in w.open
    ensures Leads(cfg, w, w.(up := true)) && WInv(cfg, w.(up := true))
  {
    LeadsNowhere(cfg, w);
    assert NextWorld(cfg, w, w.(up := true), Ready);
    LeadsStep(cfg, w, w, w.(up := true), Ready);
  }

  /** The clock is read. */
  function Ticked(w: World, now: int): World {
    w.(clock := now, latest := if now > w.latest then now else w.latest)
  }

  lemma TickLeads(cfg: Config, w: World, now: int)
    requires WInv(cfg, w)
    ensures Leads(cfg, w, Ticked(w, now)) && WInv(cfg, Ticked(w, now))
  {
    LeadsNowhere(cfg, w);
    assert NextWorld(cfg, w, Ticked(w, now), Tick(now));
    LeadsStep(cfg, w, w, Ticked(w, now), Tick(now));
  }

  /** Take the notification of `u` and select its row. */
  function ReadOf(w: World, u: RowId): World {
    w.(notified := w.notified - {u}, unread := if u in w.rows then map[u := w.rows[u]] else map[])
  }

  lemma ReadIsAStep(cfg: Config, w: World, u: RowId)
    requires Inv(cfg, w.mem) && w.up && w.unread == map[] && w.sending == None
    ensures NextWorld(cfg, w, ReadOf(w, u), ReadRows({u}))
  {
    assert ReadOf(w, u).unread == (map v | v in {u} && v in w.rows :: w.rows[v]);
  }

  lemma ReadLeads(cfg: Config, w: World, u: RowId)
    requires WInv(cfg, w) && w.up && w.unread == map[] && w.sending == None
    ensures Leads(cfg, w, ReadOf(w, u)) && WInv(cfg, ReadOf(w, u))
  {
    LeadsNowhere(cfg, w);
    ReadIsAStep(cfg, w, u);
    LeadsStep(cfg, w, w, ReadOf(w, u), ReadRows({u}));
  }

  function Crashed(w: World, mem: Sched): World {
    w.(mem := mem, open := {}, up := false, notified := {}, unread := map[], sending := None)
  }

  lemma CrashLeads(cfg: Config, w: World, mem: Sched)
    requires WInv(cfg, w) && Inv(cfg, mem) && mem.byUuid == map[]
    ensures Leads(cfg, w, Crashed(w, mem)) && WInv(cfg, Crashed(w, mem))
  {
    LeadsNowhere(cfg, w);
    assert NextWorld(cfg, w, Crashed(w, mem), Crash);
    LeadsStep(cfg, w, w, Crashed(w, mem), Crash);
  }

  lemma CollectLeads(cfg: Config, w: World, mem: Sched, uuid: nat)
    requires WInv(cfg, w) && Next(cfg, w.mem, mem, Forget(uuid))
    ensures Leads(cfg, w, w.(mem := mem)) && WInv(cfg, w.(mem := mem))
  {
    LeadsNowhere(cfg, w);
    assert NextWorld(cfg, w, w.(mem := mem), Collect(uuid));
    LeadsStep(cfg, w, w, w.(mem := mem), Collect(uuid));
  }

  ghost predicate MayApply(cfg: Config, w: World, u: RowId)
    requires Inv(cfg, w.mem)
  {
    u in w.unread && u in w.specs && NotifyAllowed(cfg, w.mem, u.uuid, u.db, w.specs[u].chan, w.specs[u].key)
  }

  ghost function Applied(cfg: Config, w: World, u: RowId): World
    requires Inv(cfg, w.mem) && MayApply(cfg, w, u)
  {
    w.(mem := Notify(cfg, w.mem, u.uuid, u.db, w.specs[u].chan, w.specs[u].key, w.unread[u].eta, w.unread[u].state),
       unread := w.unread - {u})
  }

  lemma ApplyLeads(cfg: Config, w: World, u: RowId)
    requires WInv(cfg, w) && MayApply(cfg, w, u)
    ensures NextWorld(cfg, w, Applied(cfg, w, u), Apply(u))
    ensures Leads(cfg, w, Applied(cfg, w, u)) && WInv(cfg, Applied(cfg, w, u))
  {
    LeadsNowhere(cfg, w);
    LeadsStep(cfg, w, w, Applied(cfg, w, u), Apply(u));
  }

  // ----------------------------------------------------------------- run_jobs

  /** The runner is between two of its calls. */
  predicate Idle(w: World) { w.up && w.unread == map[] && w.sending == None }

  predicate NewlyRuns(s: Sched, t: Sched, u: RowId) { RunningInMemory(t, u) && !RunningInMemory(s, u) }

  /** The world after `run_jobs` took the memory from `w.mem` to `t`: the rows of the
    * jobs that are newly running in the root channel are enqueued, and notified. */
  function AfterRunJobs(w: World, t: Sched): World {
    w.(mem := t,
       rows := map u | u in w.rows :: if NewlyRuns(w.mem, t, u) then w.rows[u].(state := Enqueued) else w.rows[u],
       notified := w.notified + set u | u in w.rows && NewlyRuns(w.mem, t, u) && u.db in w.open)
  }

  predicate FromRoot(step: Step) { step.Launch? && step.c == 0 }

  function Scheduled(w: World, t: Sched, step: Step): World {
    w.(mem := t, sending := if FromRoot(step) then Some(IdOf(step.job)) else None)
  }

  lemma StepOnly(cfg: Config, w: World, t: Sched, step: Step)
    requires (Timed(step) ==> step.now == w.clock) && WInv(cfg, w) && Idle(w) && Next(cfg, w.mem, t, step) && !step.Notified? && !step.Removed?
    ensures Leads(cfg, w, Scheduled(w, t, step)) && WInv(cfg, Scheduled(w, t, step))
  {
    var w1 := Scheduled(w, t, step);
    assert NextWorld(cfg, w, w1, Schedule(step));
    NextWorldKeepsInv(cfg, w, w1, Schedule(step));
    LeadsNowhere(cfg, w);
    LeadsOn(cfg, w, w, w1, Schedule(step));
  }

  /** The world after the row of the job about to be sent was enqueued. */
  function Sent(w: World): World
    requires w.sending.Some? && w.sending.value in w.rows
  {
    w.(rows := w.rows[w.sending.value := w.rows[w.sending.value].(state := Enqueued)],
       notified := WithNotified(w, Send), sending := None)
  }

  lemma SendOnly(cfg: Config, w: World)
    requires WInv(cfg, w) && w.sending.Some? && w.sending.value in w.rows
    ensures Leads(cfg, w, Sent(w)) && WInv(cfg, Sent(w))
  {
    LeadsNowhere(cfg, w);
    assert NextWorld(cfg, w, Sent(w), Send);
    LeadsStep(cfg, w, w, Sent(w), Send);
  }

  lemma WhatNewlyRuns(cfg: Config, w: World, t: Sched, step: Step)
    requires Inv(cfg, w.mem) && Next(cfg, w.mem, t, step) && !step.Notified? && !step.Removed?
    ensures forall u :: u in w.rows ==> (NewlyRuns(w.mem, t, u) <==> FromRoot(step) && u == IdOf(step.job))
  {
    ScheduledTable(cfg, w.mem, t, step);
    forall u | u in w.rows ensures NewlyRuns(w.mem, t, u) <==> FromRoot(step) && u == IdOf(step.job) {
      ScheduledInMemory(cfg, w.mem, t, step, u);
    }
  }

  lemma SendAfterStep(cfg: Config, w: World, t: Sched, step: Step)
    requires WInv(cfg, Scheduled(w, t, step)) && FromRoot(step) && w.sending == None
    requires forall u :: u in w.rows ==> (NewlyRuns(w.mem, t, u) <==> u == IdOf(step.job))
    ensures Leads(cfg, Scheduled(w, t, step), AfterRunJobs(w, t)) && WInv(cfg, AfterRunJobs(w, t))
  {
    SentIsAfter(w, t, step);
    SendOnly(cfg, Scheduled(w, t, step));
  }

  lemma SentIsAfter(w: World, t: Sched, step: Step)
    requires FromRoot(step) && w.sending == None && IdOf(step.job) in w.rows
    requires forall u :: u in w.rows ==> (NewlyRuns(w.mem, t, u) <==> u == IdOf(step.job))
    ensures AfterRunJobs(w, t) == Sent(Scheduled(w, t, step))
  {
    SentWorld(w, t, IdOf(step.job));
  }

  /** One scheduling step and, for a job from the root channel, its request. */
  lemma StepAndSend(cfg: Config, w: World, t: Sched, step: Step)
    requires (Timed(step) ==> step.now == w.clock) && WInv(cfg, w) && Idle(w) && Next(cfg, w.mem, t, step) && !step.Notified? && !step.Removed?
    ensures Leads(cfg, w, AfterRunJobs(w, t)) && WInv(cfg, AfterRunJobs(w, t))
  {
    StepOnly(cfg, w, t, step);
    WhatNewlyRuns(cfg, w, t, step);
    if FromRoot(step) {
      SendAfterStep(cfg, w, t, step);
      LeadsFurther(cfg, w, Scheduled(w, t, step), AfterRunJobs(w, t));
    } else {
      NothingSentWorld(w, t);
    }
  }

  lemma SentWorld(w: World, t: Sched, u: RowId)
    requires u in w.rows && forall v :: v in w.rows ==> (NewlyRuns(w.mem, t, v) <==> v == u)
    ensures AfterRunJobs(w, t).rows == w.rows[u := w.rows[u].(state := Enqueued)]
    ensures AfterRunJobs(w, t).notified == w.notified + set v | v in {u} && v.db in w.open
  {
  }

  lemma NothingSentWorld(w: World, t: Sched)
    requires forall v :: v in w.rows ==> !NewlyRuns(w.mem, t, v)
    ensures AfterRunJobs(w, t) == w.(mem := t)
  {
    assert AfterRunJobs(w, t).rows == w.rows;
    assert AfterRunJobs(w, t).notified == w.notified;
  }

  predicate KeepsRunning(w: World, t: Sched) {
    forall u :: u in w.rows && RunningInMemory(w.mem, u) ==> RunningInMemory(t, u)
  }

  lemma AfterTwice(w: World, t: Sched, t': Sched)
    requires KeepsRunning(w, t) && KeepsRunning(w.(mem := t), t')
    ensures AfterRunJobs(AfterRunJobs(w, t), t') == AfterRunJobs(w, t') && KeepsRunning(w, t')
  {
    var w1 := AfterRunJobs(w, t);
    forall u | u in w.rows
      ensures NewlyRuns(w.mem, t', u) <==> NewlyRuns(w.mem, t, u) || NewlyRuns(t, t', u)
    {
      assert RunningInMemory(w.mem, u) ==> RunningInMemory(t, u);
      assert RunningInMemory(t, u) ==> RunningInMemory(t', u);
    }
    assert AfterRunJobs(w1, t').rows == AfterRunJobs(w, t').rows;
    assert AfterRunJobs(w1, t').notified == AfterRunJobs(w, t').notified;
  }

  lemma {:induction false} StepsAndSends(cfg: Config, w: World, states: seq<Sched>, steps: seq<Step>, now: int, n: nat)
    requires WInv(cfg, w) && Idle(w) && w.clock == now && Trace(cfg, states, steps) && states[0] == w.mem && AllAt(steps, now) && n <= |steps|
    ensures Leads(cfg, w, AfterRunJobs(w, states[n])) && WInv(cfg, AfterRunJobs(w, states[n])) && KeepsRunning(w, states[n])
  {
    if n == 0 {
      LeadsNowhere(cfg, w);
      NothingSentWorld(w, w.mem);
    } else {
      var s, t := states[n - 1], states[n];
      StepsAndSends(cfg, w, states, steps, now, n - 1);
      var w1 := AfterRunJobs(w, s);
      assert Next(cfg, s, states[n - 1 + 1], steps[n - 1]);
      StepAndSend(cfg, w1, t, steps[n - 1]);
      StepKeepsRunning(cfg, w.(mem := s), t, steps[n - 1]);
      AfterTwice(w, s, t);
      LeadsFurther(cfg, w, w1, AfterRunJobs(w, t));
    }
  }

  lemma StepKeepsRunning(cfg: Config, w: World, t: Sched, step: Step)
    requires Inv(cfg, w.mem) && Next(cfg, w.mem, t, step) && !step.Notified? && !step.Removed?
    ensures KeepsRunning(w, t)
  {
    ScheduledTable(cfg, w.mem, t, step);
    forall u | u in w.rows && RunningInMemory(w.mem, u) ensures RunningInMemory(t, u) {
      ScheduledInMemory(cfg, w.mem, t, step, u);
    }
  }

  /** `run_jobs` is a run: the scheduling steps inside `get_jobs_to_run`, each job
    * from the root channel being requested before the next step. */
  lemma RunJobsIsARun(cfg: Config, w: World, t: Sched, now: int)
    requires WInv(cfg, w) && Idle(w) && w.clock == now && ReachesAt(cfg, now, w.mem, t)
    ensures Leads(cfg, w, AfterRunJobs(w, t)) && WInv(cfg, AfterRunJobs(w, t))
  {
    var states, steps :| Trace(cfg, states, steps) && states[0] == w.mem && states[|steps|] == t && AllAt(steps, now);
    StepsAndSends(cfg, w, states, steps, now, |steps|);
  }
}
