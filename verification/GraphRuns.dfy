/** From the delayed term to the running system: what chains and groups promise holds
  * for the rows of their jobs over every run of the job runner.
  */
module GraphRuns {
  import opened ChannelJobs
  import opened Channels
  import opened RunProtocol
  import opened RunMemory
  import opened RunTheorems
  import D = Delayables
  import G = Graphs

  /** The jobs of the term are stored in database `db` with the parents that `delay`
    * gives them: one for each edge of the compiled graph. */
  ghost predicate StoredGraph(w: World, db: nat, t: D.Term) {
    forall y :: y in D.Leaves(t) ==> RowId(db, y) in w.specs && ParentsAre(w.specs[RowId(db, y)], db, t, y)
  }

  ghost predicate ParentsAre(spec: JobSpec, db: nat, t: D.Term, y: nat) {
    forall p :: p in spec.parents <==> p.db == db && D.HasEdge(t, p.uuid, y)
  }

  // ------------------------------------------------------------- storing a graph

  /** The jobs that `delay` stores for the graph `g`: job `y` goes to channel `chan(y)`. */
  function NewJobs(db: nat, g: map<nat, set<nat>>, chan: nat -> nat, key: nat -> Key): map<RowId, JobSpec> {
    map u | u in InDb(db, g.Keys) :: JobSpec(chan(u.uuid), key(u.uuid), InDb(db, G.Parents(g, u.uuid)))
  }

  function InDb(db: nat, ids: set<nat>): set<RowId> {
    set y | y in ids :: RowId(db, y)
  }

  function EtasOf(news: map<RowId, JobSpec>, eta: nat -> int): map<RowId, int> {
    map u | u in news :: eta(u.uuid)
  }

  /** The world after the jobs were stored. */
  function AfterDelay(w: World, db: nat, news: map<RowId, JobSpec>, eta: nat -> int): World {
    var etas := EtasOf(news, eta);
    w.(specs := w.specs + news,
       rows := w.rows + (map u | u in news :: Row(if news[u].parents == {} then Pending else WaitDependencies, etas[u])),
       notified := WithNotified(w, Create(db, news, etas)))
  }

  /** `g` is what `_connect_graphs` makes of `t`. */
  ghost predicate IsCompiled(g: map<nat, set<nat>>, t: D.Term) {
    && g.Keys == D.Leaves(t) && G.Closed(g)
    && forall x, y :: G.Edge(g, x, y) <==> D.HasEdge(t, x, y)
  }

  lemma NewJobsParents(db: nat, g: map<nat, set<nat>>, t: D.Term, chan: nat -> nat, key: nat -> Key, y: nat)
    requires IsCompiled(g, t) && D.WellFormed(t) && y in g
    ensures RowId(db, y) in NewJobs(db, g, chan, key)
    ensures ParentsAre(NewJobs(db, g, chan, key)[RowId(db, y)], db, t, y)
    ensures NewJobs(db, g, chan, key)[RowId(db, y)].parents <= NewJobs(db, g, chan, key).Keys - {RowId(db, y)}
  {
    var spec := NewJobs(db, g, chan, key)[RowId(db, y)];
    forall p | p in spec.parents
      ensures p.db == db && D.HasEdge(t, p.uuid, y) && p.uuid in g && p.uuid != y
    {
      assert G.Edge(g, p.uuid, y);
      D.EdgeIsBefore(t, p.uuid, y);
      D.BeforeIrreflexive(t, y);
    }
    forall p: RowId | p.db == db && D.HasEdge(t, p.uuid, y) ensures p in spec.parents {
      assert G.Edge(g, p.uuid, y);
    }
  }

  lemma NewJobsAreNew(cfg: Config, w: World, db: nat, t: D.Term, g: map<nat, set<nat>>, chan: nat -> nat, key: nat -> Key)
    requires D.WellFormed(t) && IsCompiled(g, t)
    requires forall y :: y in D.Leaves(t) ==> RowId(db, y) !in w.rows && chan(y) < |cfg.parent|
    ensures var news := NewJobs(db, g, chan, key);
      forall u :: u in news ==>
        u.db == db && u !in w.rows && news[u].chan < |cfg.parent| && news[u].parents <= news.Keys - {u}
  {
    var news := NewJobs(db, g, chan, key);
    forall u | u in news
      ensures u.db == db && u !in w.rows && news[u].chan < |cfg.parent| && news[u].parents <= news.Keys - {u}
    {
      assert u == RowId(db, u.uuid) && u.uuid in g;
      NewJobsParents(db, g, t, chan, key, u.uuid);
    }
  }

  lemma NewJobsStored(w: World, db: nat, t: D.Term, g: map<nat, set<nat>>, chan: nat -> nat, key: nat -> Key, eta: nat -> int)
    requires D.WellFormed(t) && IsCompiled(g, t)
    ensures StoredGraph(AfterDelay(w, db, NewJobs(db, g, chan, key), eta), db, t)
  {
    forall y | y in D.Leaves(t)
      ensures RowId(db, y) in NewJobs(db, g, chan, key) && ParentsAre(NewJobs(db, g, chan, key)[RowId(db, y)], db, t, y)
    {
      NewJobsParents(db, g, t, chan, key, y);
    }
  }

  lemma StoringIsAStep(cfg: Config, w: World, db: nat, news: map<RowId, JobSpec>, eta: nat -> int)
    requires Inv(cfg, w.mem) && (w.up ==> db in w.open)
    requires forall u :: u in news ==>
      u.db == db && u !in w.rows && news[u].chan < |cfg.parent| && news[u].parents <= news.Keys - {u}
    ensures NextWorld(cfg, w, AfterDelay(w, db, news, eta), Create(db, news, EtasOf(news, eta)))
  {
    var etas := EtasOf(news, eta);
    assert Stored(cfg, w, AfterDelay(w, db, news, eta), db, news, etas);
  }

  /** Storing the compiled graph of a well-formed term is a step of the protocol, if its
    * jobs are new; afterwards the graph is stored. */
  lemma DelayStoresGraph(cfg: Config, w: World, db: nat, t: D.Term, g: map<nat, set<nat>>,
                         chan: nat -> nat, key: nat -> Key, eta: nat -> int)
    requires WInv(cfg, w) && (w.up ==> db in w.open) && D.WellFormed(t) && IsCompiled(g, t)
    requires forall y :: y in D.Leaves(t) ==> RowId(db, y) !in w.rows && chan(y) < |cfg.parent|
    ensures var news := NewJobs(db, g, chan, key);
      var w' := AfterDelay(w, db, news, eta);
      && NextWorld(cfg, w, w', Create(db, news, EtasOf(news, eta)))
      && StoredGraph(w', db, t)
  {
    NewJobsAreNew(cfg, w, db, t, g, chan, key);
    StoringIsAStep(cfg, w, db, NewJobs(db, g, chan, key), eta);
    NewJobsStored(w, db, t, g, chan, key, eta);
  }

  /** Job `y` is stored as it was delayed: its channel, key and eta, pending if nothing in
    * the compiled graph precedes it and waiting otherwise. */
  ghost predicate StoredAs(w: World, db: nat, t: D.Term, y: nat, chan: nat, key: Key, eta: int) {
    && RowId(db, y) in w.specs && w.specs[RowId(db, y)].chan == chan && w.specs[RowId(db, y)].key == key
    && RowId(db, y) in w.rows && w.rows[RowId(db, y)].eta == eta
    && w.rows[RowId(db, y)].state == if exists x :: D.HasEdge(t, x, y) then WaitDependencies else Pending
  }

  lemma NoParentsExactly(spec: JobSpec, db: nat, t: D.Term, y: nat)
    requires ParentsAre(spec, db, t, y)
    ensures spec.parents == {} <==> forall x :: !D.HasEdge(t, x, y)
  {
    if x :| D.HasEdge(t, x, y) {
      assert RowId(db, x) in spec.parents;
    }
    if p :| p in spec.parents {
      assert D.HasEdge(t, p.uuid, y);
    }
  }

  lemma StoredAsNew(w: World, db: nat, news: map<RowId, JobSpec>, eta: nat -> int, u: RowId)
    requires u in news
    ensures var w' := AfterDelay(w, db, news, eta);
      && u in w'.specs && w'.specs[u] == news[u] && u in w'.rows
      && w'.rows[u] == Row(if news[u].parents == {} then Pending else WaitDependencies, eta(u.uuid))
  {
  }

  lemma DelayedAsAsked(w: World, db: nat, t: D.Term, g: map<nat, set<nat>>, chan: nat -> nat, key: nat -> Key, eta: nat -> int, y: nat)
    requires D.WellFormed(t) && IsCompiled(g, t) && y in D.Leaves(t)
    ensures StoredAs(AfterDelay(w, db, NewJobs(db, g, chan, key), eta), db, t, y, chan(y), key(y), eta(y))
  {
    var news := NewJobs(db, g, chan, key);
    NewJobsParents(db, g, t, chan, key, y);
    StoredAsNew(w, db, news, eta, RowId(db, y));
    NoParentsExactly(news[RowId(db, y)], db, t, y);
  }

  /** `delay`: compile the term, give the jobs their parents, store them. */
  method Delay(cfg: Config, ghost w: World, db: nat, t: D.Term, chan: nat -> nat, key: nat -> Key, eta: nat -> int)
      returns (news: map<RowId, JobSpec>, ghost w': World)
    requires WInv(cfg, w) && (w.up ==> db in w.open) && D.WellFormed(t)
    requires forall y :: y in D.Leaves(t) ==> RowId(db, y) !in w.rows && chan(y) < |cfg.parent|
    ensures Follows(cfg, w, w', Create(db, news, EtasOf(news, eta)))
    ensures StoredGraph(w', db, t) && news.Keys == InDb(db, D.Leaves(t))
    ensures IsDelay(Create(db, news, EtasOf(news, eta)), db, t)
    ensures forall y :: y in D.Leaves(t) ==> StoredAs(w', db, t, y, chan(y), key(y), eta(y))
    ensures forall u :: u in w.rows ==> u in w'.rows && w'.rows[u] == w.rows[u]
  {
    var graph := D.ConnectGraphs(t);
    news := NewJobs(db, graph.graph, chan, key);
    w' := AfterDelay(w, db, news, eta);
    DelayWorks(cfg, w, db, t, graph.graph, chan, key, eta);
    forall y | y in D.Leaves(t) ensures StoredAs(w', db, t, y, chan(y), key(y), eta(y)) {
      DelayedAsAsked(w, db, t, graph.graph, chan, key, eta, y);
    }
    RowsBefore(w, db, news, eta);
  }

  lemma RowsBefore(w: World, db: nat, news: map<RowId, JobSpec>, eta: nat -> int)
    requires forall u :: u in news ==> u !in w.rows
    ensures forall u :: u in w.rows ==> u in AfterDelay(w, db, news, eta).rows && AfterDelay(w, db, news, eta).rows[u] == w.rows[u]
  {
  }

  lemma DelayWorks(cfg: Config, w: World, db: nat, t: D.Term, g: map<nat, set<nat>>,
                   chan: nat -> nat, key: nat -> Key, eta: nat -> int)
    requires WInv(cfg, w) && (w.up ==> db in w.open) && D.WellFormed(t) && IsCompiled(g, t)
    requires forall y :: y in D.Leaves(t) ==> RowId(db, y) !in w.rows && chan(y) < |cfg.parent|
    ensures var news := NewJobs(db, g, chan, key);
      var e := Create(db, news, EtasOf(news, eta));
      && Follows(cfg, w, AfterDelay(w, db, news, eta), e) && IsDelay(e, db, t)
      && StoredGraph(AfterDelay(w, db, news, eta), db, t) && news.Keys == InDb(db, D.Leaves(t))
  {
    DelayStoresGraph(cfg, w, db, t, g, chan, key, eta);
    CompiledIsDelay(db, t, g, chan, key, EtasOf(NewJobs(db, g, chan, key), eta));
    NewJobsKeys(db, g, chan, key);
  }

  lemma NewJobsKeys(db: nat, g: map<nat, set<nat>>, chan: nat -> nat, key: nat -> Key)
    ensures NewJobs(db, g, chan, key).Keys == InDb(db, g.Keys)
  {
  }

  // ------------------------------------------------------------------ over runs

  /** Job `u` was stored with `spec`. */
  ghost predicate Remembers(cfg: Config, w: World, u: RowId, spec: JobSpec) {
    WInv(cfg, w) && u in w.specs && w.specs[u] == spec
  }

  lemma SpecStays(cfg: Config, w: World, w': World, e: Event, u: RowId, spec: JobSpec)
    requires Remembers(cfg, w, u, spec) && Follows(cfg, w, w', e)
    ensures Remembers(cfg, w', u, spec)
  {
    SpecsStay(cfg, w, w', e, u);
    FollowsKeepsInv(cfg, w, w', e);
  }

  lemma RemembersAlong(cfg: Config, ws: seq<World>, es: seq<Event>, m: nat, n: nat, u: RowId, spec: JobSpec)
    requires Run(cfg, ws, es) && m <= n < |ws| && Remembers(cfg, ws[m], u, spec)
    ensures Remembers(cfg, ws[n], u, spec)
  {
    var good := (w: World) => Remembers(cfg, w, u, spec);
    var tail := ws[m..];
    forall i | 0 < i < |tail| && good(tail[i - 1]) ensures good(tail[i]) {
      StepOfRun(cfg, ws, es, m + i - 1);
      SpecStays(cfg, tail[i - 1], tail[i], es[m + i - 1], u, spec);
    }
    KeptAlong(good, tail, n - m);
  }

  /** What was stored about a job stays as it is. */
  lemma SpecsStayOverRun(cfg: Config, ws: seq<World>, es: seq<Event>, m: nat, n: nat, u: RowId)
    requires Run(cfg, ws, es) && m <= n < |ws| && WInv(cfg, ws[0]) && u in ws[m].specs
    ensures u in ws[n].specs && ws[n].specs[u] == ws[m].specs[u]
  {
    RunKeepsInv(cfg, ws, es, m);
    RemembersAlong(cfg, ws, es, m, n, u, ws[m].specs[u]);
  }

  lemma StepOfRun(cfg: Config, ws: seq<World>, es: seq<Event>, k: nat)
    requires Run(cfg, ws, es) && k < |es|
    ensures Follows(cfg, ws[k], ws[k + 1], es[k])
  {
  }

  lemma GraphStaysStored(cfg: Config, ws: seq<World>, es: seq<Event>, m: nat, n: nat, db: nat, t: D.Term)
    requires Run(cfg, ws, es) && m <= n < |ws| && WInv(cfg, ws[0]) && StoredGraph(ws[m], db, t)
    ensures StoredGraph(ws[n], db, t)
  {
    forall y | y in D.Leaves(t) ensures RowId(db, y) in ws[n].specs && ParentsAre(ws[n].specs[RowId(db, y)], db, t, y) {
      SpecsStayOverRun(cfg, ws, es, m, n, RowId(db, y));
    }
  }

  lemma ParentIsDone(cfg: Config, w: World, db: nat, t: D.Term, x: nat, y: nat)
    requires WInv(cfg, w) && StoredGraph(w, db, t) && y in D.Leaves(t) && D.HasEdge(t, x, y)
    requires RowId(db, y) in w.rows && w.rows[RowId(db, y)].state != WaitDependencies
    ensures RowId(db, x) in w.rows && w.rows[RowId(db, x)].state == Done
  {
    assert ParentsAre(w.specs[RowId(db, y)], db, t, y) && ParentsDone(w, RowId(db, y));
    assert RowId(db, x) in w.specs[RowId(db, y)].parents;
  }

  /** Everything that leads to a job that has left WAIT_DEPENDENCIES is done. */
  lemma {:induction false} ReachedMeansDone(cfg: Config, w: World, db: nat, t: D.Term, n: nat, x: nat, y: nat)
    requires WInv(cfg, w) && StoredGraph(w, db, t) && D.WellFormed(t) && y in D.Leaves(t)
    requires D.ReachIn(t, n, x, y) && n > 0
    requires RowId(db, y) in w.rows && w.rows[RowId(db, y)].state != WaitDependencies
    ensures RowId(db, x) in w.rows && w.rows[RowId(db, x)].state == Done
  {
    if n == 1 {
      OneEdge(t, x, y);
      ParentIsDone(cfg, w, db, t, x, y);
    } else {
      var z :| D.HasEdge(t, x, z) && D.ReachIn(t, n - 1, z, y);
      D.ReachedIsBefore(t, n - 1, z, y);
      D.BeforeInLeaves(t, z, y);
      ReachedMeansDone(cfg, w, db, t, n - 1, z, y);
      ParentIsDone(cfg, w, db, t, x, z);
    }
  }

  lemma OneEdge(t: D.Term, x: nat, y: nat)
    requires D.ReachIn(t, 1, x, y)
    ensures D.HasEdge(t, x, y)
  {
    var z :| D.HasEdge(t, x, z) && D.ReachIn(t, 0, z, y);
  }

  /** The series order is enforced end to end: of a delayed term whose chains are joined
    * completely, no job is pending, enqueued, started, failed or done in the table
    * before every job that precedes it in series is done. */
  lemma SeriesOrderEnforced(cfg: Config, ws: seq<World>, es: seq<Event>, m: nat, n: nat, db: nat, t: D.Term, x: nat, y: nat)
    requires Run(cfg, ws, es) && m <= n < |ws| && WInv(cfg, ws[0]) && StoredGraph(ws[m], db, t)
    requires D.WellFormed(t) && D.Good(t) && D.Before(t, x, y)
    requires RowId(db, y) in ws[n].rows && ws[n].rows[RowId(db, y)].state != WaitDependencies
    ensures RowId(db, x) in ws[n].rows && ws[n].rows[RowId(db, x)].state == Done
  {
    RunKeepsInv(cfg, ws, es, n);
    GraphStaysStored(cfg, ws, es, m, n, db, t);
    SeriesOrderHolds(cfg, ws[n], db, t, x, y);
  }

  lemma SeriesOrderHolds(cfg: Config, w: World, db: nat, t: D.Term, x: nat, y: nat)
    requires WInv(cfg, w) && StoredGraph(w, db, t) && D.WellFormed(t) && D.Good(t) && D.Before(t, x, y)
    requires RowId(db, y) in w.rows && w.rows[RowId(db, y)].state != WaitDependencies
    ensures RowId(db, x) in w.rows && w.rows[RowId(db, x)].state == Done
  {
    D.GoodIsComplete(t, x, y);
    D.BeforeIrreflexive(t, x);
    D.BeforeInLeaves(t, x, y);
    var k: nat :| D.ReachIn(t, k, x, y);
    ReachedMeansDone(cfg, w, db, t, k, x, y);
  }

  /** The jobs that precede a job in series. */
  ghost function Predecessors(t: D.Term, y: nat): set<nat> {
    set x | x in D.Leaves(t) && D.Before(t, x, y)
  }

  lemma EdgeRaisesRank(t: D.Term, x: nat, y: nat)
    requires D.WellFormed(t) && D.HasEdge(t, x, y)
    ensures |Predecessors(t, x)| < |Predecessors(t, y)|
  {
    D.EdgeIsBefore(t, x, y);
    D.BeforeInLeaves(t, x, y);
    D.BeforeIrreflexive(t, x);
    forall z | z in Predecessors(t, x) ensures z in Predecessors(t, y) {
      D.BeforeTransitive(t, z, x, y);
    }
    assert x in Predecessors(t, y) - Predecessors(t, x);
    SubsetSize(Predecessors(t, x) + {x}, Predecessors(t, y));
  }

  /** A delayed term completes: once nothing of a table that holds its jobs is left to
    * do for the runner and the workers, and nothing failed or was given up, all its
    * jobs are done. No compiled term can leave jobs waiting for each other. */
  lemma GraphCompletes(cfg: Config, ws: seq<World>, es: seq<Event>, m: nat, n: nat, db: nat, t: D.Term)
    requires Run(cfg, ws, es) && m <= n < |ws| && WInv(cfg, ws[0]) && StoredGraph(ws[m], db, t)
    requires D.WellFormed(t) && Quiet(ws[n])
    ensures forall u :: u in D.Leaves(t) ==> RowId(db, u) in ws[n].rows && ws[n].rows[RowId(db, u)].state == Done
  {
    RunKeepsInv(cfg, ws, es, n);
    GraphStaysStored(cfg, ws, es, m, n, db, t);
    forall u | u in D.Leaves(t) ensures RowId(db, u) in ws[n].rows && ws[n].rows[RowId(db, u)].state == Done {
      LeafCompletes(cfg, ws[n], db, t, u);
    }
  }

  lemma {:induction false} LeafCompletes(cfg: Config, w: World, db: nat, t: D.Term, u: nat)
    requires WInv(cfg, w) && StoredGraph(w, db, t) && D.WellFormed(t) && Quiet(w) && u in D.Leaves(t)
    ensures RowId(db, u) in w.rows && w.rows[RowId(db, u)].state == Done
    decreases |Predecessors(t, u)|
  {
    var id := RowId(db, u);
    if w.rows[id].state == WaitDependencies {
      var p :| p in w.specs[id].parents && p in w.rows && (w.rows[p].state != Done || Owed(w, p));
      assert ParentsAre(w.specs[id], db, t, u) && p == RowId(db, p.uuid);
      EdgeRaisesRank(t, p.uuid, u);
      D.EdgeIsBefore(t, p.uuid, u);
      D.BeforeInLeaves(t, p.uuid, u);
      LeafCompletes(cfg, w, db, t, p.uuid);
    }
  }

  // --------------------------------------------------------- from delay to done

  /** An event that stores the jobs of the term as `delay` does. */
  ghost predicate IsDelay(e: Event, db: nat, t: D.Term) {
    && e.Create? && e.db == db
    && forall y :: y in D.Leaves(t) ==> RowId(db, y) in e.news && ParentsAre(e.news[RowId(db, y)], db, t, y)
  }

  /** Storing the compiled graph of the term is such an event. */
  lemma CompiledIsDelay(db: nat, t: D.Term, g: map<nat, set<nat>>, chan: nat -> nat, key: nat -> Key, etas: map<RowId, int>)
    requires D.WellFormed(t) && IsCompiled(g, t)
    ensures IsDelay(Create(db, NewJobs(db, g, chan, key), etas), db, t)
  {
    forall y | y in D.Leaves(t)
      ensures RowId(db, y) in NewJobs(db, g, chan, key) && ParentsAre(NewJobs(db, g, chan, key)[RowId(db, y)], db, t, y)
    {
      NewJobsParents(db, g, t, chan, key, y);
    }
  }

  lemma DelayIsStored(cfg: Config, w: World, w': World, e: Event, db: nat, t: D.Term)
    requires TableStep(cfg, w, w', e) && IsDelay(e, db, t)
    ensures StoredGraph(w', db, t)
  {
    assert w'.specs == w.specs + e.news;
  }

  lemma StoredAfterDelay(cfg: Config, ws: seq<World>, es: seq<Event>, m: nat, db: nat, t: D.Term)
    requires Run(cfg, ws, es) && m < |es| && WInv(cfg, ws[0]) && IsDelay(es[m], db, t)
    ensures StoredGraph(ws[m + 1], db, t)
  {
    RunKeepsInv(cfg, ws, es, m);
    StepOfRun(cfg, ws, es, m);
    DelayIsStored(cfg, ws[m], ws[m + 1], es[m], db, t);
  }

  lemma StillStored(cfg: Config, ws: seq<World>, es: seq<Event>, m: nat, n: nat, db: nat, t: D.Term)
    requires Run(cfg, ws, es) && m < n < |ws| && WInv(cfg, ws[0]) && IsDelay(es[m], db, t)
    ensures StoredGraph(ws[n], db, t) && WInv(cfg, ws[n])
  {
    StoredAfterDelay(cfg, ws, es, m, db, t);
    GraphStaysStored(cfg, ws, es, m + 1, n, db, t);
    RunKeepsInv(cfg, ws, es, n);
  }

  /** From `delay` to the tables: when the m-th event of a run is the `delay` of a term
    * whose chains are joined completely, then at no later time a job of the term has left
    * WAIT_DEPENDENCIES before all that precede it in series are done. */
  lemma DelayedOrderEnforced(cfg: Config, ws: seq<World>, es: seq<Event>, m: nat, n: nat, db: nat, t: D.Term, x: nat, y: nat)
    requires Run(cfg, ws, es) && m < n < |ws| && WInv(cfg, ws[0]) && IsDelay(es[m], db, t)
    requires D.WellFormed(t) && D.Good(t) && D.Before(t, x, y)
    requires RowId(db, y) in ws[n].rows && ws[n].rows[RowId(db, y)].state != WaitDependencies
    ensures RowId(db, x) in ws[n].rows && ws[n].rows[RowId(db, x)].state == Done
  {
    StillStored(cfg, ws, es, m, n, db, t);
    SeriesOrderHolds(cfg, ws[n], db, t, x, y);
  }

  /** And once nothing is left to do, all jobs of the delayed term are done. */
  lemma DelayedTermCompletes(cfg: Config, ws: seq<World>, es: seq<Event>, m: nat, n: nat, db: nat, t: D.Term)
    requires Run(cfg, ws, es) && m < n < |ws| && WInv(cfg, ws[0]) && IsDelay(es[m], db, t)
    requires D.WellFormed(t) && Quiet(ws[n])
    ensures forall u :: u in D.Leaves(t) ==> RowId(db, u) in ws[n].rows && ws[n].rows[RowId(db, u)].state == Done
  {
    StillStored(cfg, ws, es, m, n, db, t);
    GraphCompletes(cfg, ws, es, n, n, db, t);
  }
}
