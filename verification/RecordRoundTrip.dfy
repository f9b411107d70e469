/** What a dump followed by a load amounts to: an import of the whole record graph
  * with its sharing, if and only if the graph has no cycle of references.
  */
module RecordRoundTrip {
  import opened ChannelJobs
  import opened RecordPort

  /** The database after the records `part` of `store` were imported at the ids `at`:
    * one record for each, at the id where its uuid already was or at a new one, with
    * its references leading to the imported records; all else is as before. */
  ghost predicate Transferred(store: map<nat, Rec>, part: set<nat>, db: map<nat, Rec>, db': map<nat, Rec>, at: map<nat, nat>) {
    && at.Keys == part && part <= store.Keys
    && (forall k, l :: k in part && l in part && at[k] == at[l] ==> k == l)
    && db'.Keys == db.Keys + at.Values
    && (forall i :: i in db && i !in at.Values ==> db'[i] == db[i])
    && (forall k :: k in part ==> Placed(store[k], db, db', at, at[k]))
  }

  ghost predicate Placed(rec: Rec, db: map<nat, Rec>, db': map<nat, Rec>, at: map<nat, nat>, i: nat) {
    && Targets(rec.fields) <= at.Keys
    && i in db' && db'[i] == Merged(db, i, rec.uuid, Image(rec.fields, at))
    && (if i in db then db[i].uuid == rec.uuid else forall j :: j in db ==> db[j].uuid != rec.uuid)
  }

  /** No record that the root leads to leads back to itself: ranks can be given that
    * fall along every reference. */
  ghost predicate NoReferenceCycles(store: map<nat, Rec>, root: nat)
    requires Closed(store) && root in store
  {
    ClosedSet(store, Exported(store, root)) && exists rank :: AcyclicOn(store, Exported(store, root), rank)
  }

  /** A database in which uuids are unique and `next` is beyond every id. */
  ghost predicate Sound(db: map<nat, Rec>, next: nat) {
    UniqueUuids(db) && forall i :: i in db ==> i < next
  }

  lemma InvTransfers(c: Setting, s: Import, part: set<nat>)
    requires LoadInv(c, s) && s.mapping.Keys == part && part <= c.store.Keys
    ensures Transferred(c.store, part, c.db, s.db, s.mapping)
  {
    forall k | k in part ensures Placed(c.store[k], c.db, s.db, s.mapping, s.mapping[k]) {
      assert Imported(c, s.db, s.mapping, k);
    }
    assert s.mapping.Values <= s.db.Keys by {
      forall v | v in s.mapping.Values ensures v in s.db {
        var k :| k in s.mapping && s.mapping[k] == v;
        assert Imported(c, s.db, s.mapping, k);
      }
    }
  }

  /** The root is looked up before the fields are loaded and written afterwards; that
    * makes no difference. */
  lemma RootLast(c: Setting, s: Import, k: nat)
    requires SettingOk(c) && LoadInv(c, s) && k in c.store && k !in s.mapping
    ensures Find(s.db, c.store[k].uuid) == Find(c.db, c.store[k].uuid)
  {
    FindFresh(c, s, k);
  }

  lemma LoadFull(db: map<nat, Rec>, next: nat, key: nat, uuid: nat, fs: seq<DataField>, s: Import, vals: seq<Field>)
    requires LoadFields(Import(db, next, map[]), fs) == Some((s, vals))
    requires Find(s.db, uuid) == Find(db, uuid)
    ensures Load(db, next, Full(key, uuid, fs)) == Some(Upsert(s, uuid, vals))
  {
  }

  /** The fields of the root are loaded first, and with them everything they lead to. */
  lemma FieldsOfRoot(c: Setting, root: nat) returns (fs: seq<DataField>, s: Import)
    requires SettingOk(c) && root in c.part
    ensures Dump(c.store, root) == Full(root, c.store[root].uuid, fs)
    ensures LoadFields(Import(c.db, c.next, map[]), fs) == Some((s, Image(c.store[root].fields, s.mapping)))
    ensures LoadInv(c, s) && root !in s.mapping && s.mapping.Keys + {root} == Exported(c.store, root)
    ensures Targets(c.store[root].fields) <= s.mapping.Keys
  {
    OpenOneMore(c, {}, root);
    OneMoreSeen(Import(c.db, c.next, map[]), {}, {}, root);
    var seen;
    fs, seen, s := LoadFieldsDumped(c, c.store[root].fields, {} + {root}, {} + {root}, Import(c.db, c.next, map[]));
    DumpRecFull(c.store, root, {}, fs, seen);
  }

  lemma RootLoaded(c: Setting, root: nat) returns (s: Import, at: map<nat, nat>)
    requires SettingOk(c) && root in c.part
    ensures root in at && Load(c.db, c.next, Dump(c.store, root)) == Some((s, at[root]))
    ensures at.Keys == Exported(c.store, root) && LoadInv(c, s.(mapping := at))
  {
    var fs, s1 := FieldsOfRoot(c, root);
    RootLast(c, s1, root);
    var vals := Image(c.store[root].fields, s1.mapping);
    LoadFull(c.db, c.next, root, c.store[root].uuid, fs, s1, vals);
    UpsertImports(c, s1, root);
    var (s2, id) := Upsert(s1, c.store[root].uuid, vals);
    s := s2;
    at := s1.mapping[root := id];
  }

  // --------------------------------------------------- what is written, field by field

  /** The field after the import: `was` is the field of the record that was there, if any,
    * `f` the exported one. */
  ghost predicate FieldLoaded(was: Option<Field>, f: Field, now: Field, at: map<nat, nat>) {
    match f
    case Scalar(Some(v)) => now == Scalar(Some(v))
    case Scalar(None) => now == (if was.Some? then was.value else Scalar(None))
    case One(None) => now == One(None)
    case One(Some(t)) => t in at && now == One(Some(at[t]))
    case Many(ts) =>
      && now.Many?
      && forall i :: i in now.targets <==>
        (was.Some? && was.value.Many? && i in was.value.targets) || exists t :: t in ts && t in at && at[t] == i
  }

  /** The record after the import has the exported uuid and fields: a set scalar is
    * written, an unset one leaves the old value, a reference leads to the imported
    * record or to none, and a relation to many keeps its old members and gains the
    * imported ones. */
  ghost predicate RecordLoaded(was: Option<Rec>, rec: Rec, now: Rec, at: map<nat, nat>) {
    && now.uuid == rec.uuid && |now.fields| == |rec.fields|
    && forall i :: 0 <= i < |rec.fields| ==>
      FieldLoaded(if was.Some? && |was.value.fields| == |rec.fields| then Some(was.value.fields[i]) else None,
                  rec.fields[i], now.fields[i], at)
  }

  function Existing(db: map<nat, Rec>, i: nat): Option<Rec> {
    if i in db then Some(db[i]) else None
  }

  lemma {:induction false} ImageAt(fs: seq<Field>, m: map<nat, nat>, i: nat)
    requires i < |fs|
    ensures |Image(fs, m)| == |fs| && Image(fs, m)[i] == ImageField(fs[i], m) && FieldTargets(fs[i]) <= Targets(fs)
  {
    if i > 0 {
      ImageAt(fs[1..], m, i - 1);
    } else if |fs| > 1 {
      ImageAt(fs[1..], m, 0);
    }
  }

  lemma FieldIsLoaded(was: Option<Field>, f: Field, at: map<nat, nat>)
    requires FieldTargets(f) <= at.Keys
    ensures FieldLoaded(was, f, if was.Some? then MergeField(was.value, ImageField(f, at)) else ImageField(f, at), at)
  {
  }

  lemma RecordIsLoaded(rec: Rec, db: map<nat, Rec>, i: nat, at: map<nat, nat>)
    requires Targets(rec.fields) <= at.Keys
    ensures RecordLoaded(Existing(db, i), rec, Merged(db, i, rec.uuid, Image(rec.fields, at)), at)
  {
    if rec.fields != [] {
      ImageAt(rec.fields, at, 0);
    }
    forall k | 0 <= k < |rec.fields|
      ensures FieldLoaded(if i in db && |db[i].fields| == |rec.fields| then Some(db[i].fields[k]) else None, rec.fields[k],
                          Merged(db, i, rec.uuid, Image(rec.fields, at)).fields[k], at)
    {
      ImageAt(rec.fields, at, k);
      FieldIsLoaded(if i in db && |db[i].fields| == |rec.fields| then Some(db[i].fields[k]) else None, rec.fields[k], at);
    }
  }

  lemma TransferredIsLoaded(store: map<nat, Rec>, part: set<nat>, db: map<nat, Rec>, db': map<nat, Rec>, at: map<nat, nat>)
    requires Transferred(store, part, db, db', at)
    ensures forall k :: k in part ==> at[k] in db' && RecordLoaded(Existing(db, at[k]), store[k], db'[at[k]], at)
  {
    forall k | k in part ensures at[k] in db' && RecordLoaded(Existing(db, at[k]), store[k], db'[at[k]], at) {
      assert Placed(store[k], db, db', at, at[k]);
      RecordIsLoaded(store[k], db, at[k], at);
    }
  }

  /** Loading a dump of a record graph without cycles succeeds; it imports every
    * reachable record exactly once, with sharing kept, and with every field as
    * `RecordLoaded` says. */
  lemma RoundTrip(store: map<nat, Rec>, root: nat, db: map<nat, Rec>, next: nat)
      returns (s: Import, at: map<nat, nat>)
    requires Closed(store) && UniqueUuids(store) && root in store && Sound(db, next)
    requires NoReferenceCycles(store, root)
    ensures root in at && Load(db, next, Dump(store, root)) == Some((s, at[root]))
    ensures Transferred(store, Exported(store, root), db, s.db, at) && Sound(s.db, s.next)
    ensures forall k :: k in Exported(store, root) ==>
      k in at && k in store && at[k] in s.db && RecordLoaded(Existing(db, at[k]), store[k], s.db[at[k]], at)
    ensures forall i :: i in db && i !in at.Values ==> i in s.db && s.db[i] == db[i]
  {
    s, at := TransferOf(store, root, db, next);
    TransferredIsLoaded(store, Exported(store, root), db, s.db, at);
  }

  lemma TransferOf(store: map<nat, Rec>, root: nat, db: map<nat, Rec>, next: nat)
      returns (s: Import, at: map<nat, nat>)
    requires Closed(store) && UniqueUuids(store) && root in store && Sound(db, next)
    requires NoReferenceCycles(store, root)
    ensures root in at && Load(db, next, Dump(store, root)) == Some((s, at[root]))
    ensures Transferred(store, Exported(store, root), db, s.db, at) && Sound(s.db, s.next)
  {
    var part := Exported(store, root);
    ExportedIsReachable(store, root);
    var rank :| AcyclicOn(store, part, rank);
    var c := Setting(store, part, rank, db, next);
    s, at := RootLoaded(c, root);
    InvTransfers(c, s.(mapping := at), part);
    UuidsStayUnique(store, part, db, s.db, at);
  }

  lemma UuidsStayUnique(store: map<nat, Rec>, part: set<nat>, db: map<nat, Rec>, db': map<nat, Rec>, at: map<nat, nat>)
    requires UniqueUuids(store) && UniqueUuids(db) && Transferred(store, part, db, db', at)
    ensures UniqueUuids(db')
  {
    forall i, j | i in db' && j in db' && db'[i].uuid == db'[j].uuid ensures i == j {
      if i in at.Values {
        var k :| k in at && at[k] == i;
        assert Placed(store[k], db, db', at, at[k]);
        if j in at.Values {
          var l :| l in at && at[l] == j;
          assert Placed(store[l], db, db', at, at[l]);
        }
      } else if j in at.Values {
        var l :| l in at && at[l] == j;
        assert Placed(store[l], db, db', at, at[l]);
      }
    }
  }

  // ---------------------------------------------------------------- a new database

  lemma {:induction false} ValuesCount(m: map<nat, nat>)
    requires forall k, l :: k in m && l in m && m[k] == m[l] ==> k == l
    ensures |m.Values| == |m.Keys|
    decreases |m|
  {
    if m != map[] {
      var k :| k in m;
      var m' := m - {k};
      ValuesCount(m');
      assert m.Keys == m'.Keys + {k};
      assert m.Values == m'.Values + {m[k]} by {
        forall v | v in m.Values ensures v in m'.Values + {m[k]} {
          var l :| l in m && m[l] == v;
          assert l == k || m'[l] == v;
        }
      }
      assert m[k] !in m'.Values;
    }
  }

  /** A database that knows none of the uuids gets an isomorphic copy: one new record
    * for each exported one, equal to it but for the ids in its references. */
  lemma FreshCopy(store: map<nat, Rec>, part: set<nat>, db: map<nat, Rec>, db': map<nat, Rec>, at: map<nat, nat>)
    requires Transferred(store, part, db, db', at)
    requires forall k, i :: k in part && i in db ==> db[i].uuid != store[k].uuid
    ensures |db'.Keys| == |db.Keys| + |part|
    ensures forall i :: i in db ==> i in db' && db'[i] == db[i]
    ensures forall k :: k in part ==>
      at[k] in db' && at[k] !in db && db'[at[k]] == Rec(store[k].uuid, Image(store[k].fields, at))
  {
    forall k | k in part ensures at[k] in db' && at[k] !in db && db'[at[k]] == Rec(store[k].uuid, Image(store[k].fields, at)) {
      assert Placed(store[k], db, db', at, at[k]);
    }
    assert db.Keys !! at.Values;
    ValuesCount(at);
  }

  // ---------------------------------------------------------------- loading again

  lemma MergeFieldAgain(was: Field, val: Field)
    ensures MergeField(MergeField(was, val), val) == MergeField(was, val) && MergeField(val, val) == val
  {
    match val
    case Many(ts) =>
      assert ts + ts == ts;
      assert was.Many? ==> was.targets + ts + ts == was.targets + ts;
    case _ =>
  }

  lemma MergeAgain(was: seq<Field>, vals: seq<Field>)
    ensures MergeFields(MergeFields(was, vals), vals) == MergeFields(was, vals)
    ensures MergeFields(vals, vals) == vals
  {
    forall i | 0 <= i < |vals|
      ensures MergeField(vals[i], vals[i]) == vals[i]
      ensures |was| == |vals| ==> MergeField(MergeField(was[i], vals[i]), vals[i]) == MergeField(was[i], vals[i])
    {
      MergeFieldAgain(vals[i], vals[i]);
      if |was| == |vals| {
        MergeFieldAgain(was[i], vals[i]);
      }
    }
  }

  lemma SameIds(store: map<nat, Rec>, part: set<nat>, db: map<nat, Rec>, db1: map<nat, Rec>, at1: map<nat, nat>,
                db2: map<nat, Rec>, at2: map<nat, nat>)
    requires UniqueUuids(db1)
    requires Transferred(store, part, db, db1, at1) && Transferred(store, part, db1, db2, at2)
    ensures at2 == at1 && at1.Values <= db1.Keys
  {
    forall k | k in part ensures at2[k] == at1[k] && at1[k] in db1 {
      assert Placed(store[k], db, db1, at1, at1[k]) && Placed(store[k], db1, db2, at2, at2[k]);
    }
  }

  /** A second import into the result of a first one puts every record where the
    * first one put it, and changes nothing. */
  lemma SecondTransfer(store: map<nat, Rec>, part: set<nat>, db: map<nat, Rec>, db1: map<nat, Rec>, at1: map<nat, nat>,
                       db2: map<nat, Rec>, at2: map<nat, nat>)
    requires UniqueUuids(db1)
    requires Transferred(store, part, db, db1, at1) && Transferred(store, part, db1, db2, at2)
    ensures at2 == at1 && db2 == db1
  {
    SameIds(store, part, db, db1, at1, db2, at2);
    forall i | i in at1.Values ensures i in db1 && i in db2 && db2[i] == db1[i] {
      var k :| k in at1 && at1[k] == i;
      assert Placed(store[k], db, db1, at1, i) && Placed(store[k], db1, db2, at1, i);
      MergeAgain(if i in db then db[i].fields else [], Image(store[k].fields, at1));
    }
    assert db2.Keys == db1.Keys;
  }

  /** Loading the same data again creates no record and leaves the database as it is. */
  lemma LoadIsIdempotent(store: map<nat, Rec>, root: nat, db: map<nat, Rec>, next: nat)
    requires Closed(store) && UniqueUuids(store) && root in store && Sound(db, next)
    requires NoReferenceCycles(store, root)
    ensures var first := Load(db, next, Dump(store, root));
      && first.Some?
      && var second := Load(first.value.0.db, first.value.0.next, Dump(store, root));
      && second.Some? && second.value.0.db == first.value.0.db && second.value.1 == first.value.1
  {
    var s1, at1 := RoundTrip(store, root, db, next);
    var s2, at2 := RoundTrip(store, root, s1.db, s1.next);
    SecondTransfer(store, Exported(store, root), db, s1.db, at1, s2.db, at2);
  }

  // --------------------------------------------------------------- exactly acyclic

  /** The records `done` refer only to records of lower rank among themselves. */
  ghost predicate Ranked(store: map<nat, Rec>, done: set<nat>, rank: map<nat, nat>, top: nat) {
    && done <= store.Keys && done <= rank.Keys
    && forall k :: k in done ==> rank[k] < top && Targets(store[k].fields) <= done && LowerTargets(store[k].fields, rank, rank[k])
  }

  ghost predicate LowerTargets(fs: seq<Field>, rank: map<nat, nat>, n: nat) {
    forall t :: t in Targets(fs) ==> t in rank && rank[t] < n
  }

  /** What a successful load of a part of a dump adds to the mapping was exported in
    * full in that part. */
  ghost predicate Follows(m: map<nat, nat>, m': map<nat, nat>, seen: set<nat>, seen': set<nat>) {
    m.Keys <= m'.Keys <= seen' && m'.Keys - m.Keys <= seen' - seen
  }

  /** A map from records to ranks, and a bound for the ranks. */
  datatype Ranks = Ranks(rank: map<nat, nat>, top: nat)

  lemma RankOneMore(store: map<nat, Rec>, done: set<nat>, r: Ranks, k: nat)
    requires Ranked(store, done, r.rank, r.top) && k in store && k !in done
    requires Targets(store[k].fields) <= done
    ensures Ranked(store, done + {k}, r.rank[k := r.top], r.top + 1)
  {
    forall l | l in done + {k}
      ensures LowerTargets(store[l].fields, r.rank[k := r.top], r.rank[k := r.top][l])
    {
      assert l in done ==> LowerTargets(store[l].fields, r.rank, r.rank[l]);
    }
  }

  lemma {:induction false} LoadRecRanks(store: map<nat, Rec>, id: nat, seen: set<nat>, s: Import, r: Ranks)
      returns (s': Import, r': Ranks)
    requires Closed(store) && id in store && s.mapping.Keys <= seen
    requires Ranked(store, s.mapping.Keys, r.rank, r.top)
    requires LoadRec(s, DumpRec(store, id, seen).0).Some?
    ensures s' == LoadRec(s, DumpRec(store, id, seen).0).value.0
    ensures Follows(s.mapping, s'.mapping, seen, DumpRec(store, id, seen).1)
    ensures id in s'.mapping && Ranked(store, s'.mapping.Keys, r'.rank, r'.top)
    decreases Left(store, seen), 0, 0
  {
    if id in seen {
      s', r' := s, r;
    } else {
      LeftShrinks(store, seen, seen + {id});
      var (fs, seen') := DumpFields(store, store[id].fields, seen + {id});
      DumpRecFull(store, id, seen, fs, seen');
      var s1, r1 := LoadFieldsRanks(store, store[id].fields, seen + {id}, s, r);
      s' := RecAdded(s, id, store[id].uuid, fs, s1);
      r' := RecRanked(store, id, s1, s', r1);
    }
  }

  lemma RecAdded(s: Import, id: nat, uuid: nat, fs: seq<DataField>, s1: Import) returns (s': Import)
    requires LoadRec(s, Full(id, uuid, fs)).Some? && id !in s.mapping
    requires LoadFields(s, fs).Some? ==> s1 == LoadFields(s, fs).value.0
    ensures s' == LoadRec(s, Full(id, uuid, fs)).value.0
    ensures id in s'.mapping && s'.mapping == s1.mapping[id := s'.mapping[id]]
  {
    s' := LoadRec(s, Full(id, uuid, fs)).value.0;
  }

  lemma RecRanked(store: map<nat, Rec>, id: nat, s: Import, s': Import, r: Ranks) returns (r': Ranks)
    requires Ranked(store, s.mapping.Keys, r.rank, r.top) && id in store && id !in s.mapping
    requires Targets(store[id].fields) <= s.mapping.Keys && id in s'.mapping && s'.mapping == s.mapping[id := s'.mapping[id]]
    ensures Ranked(store, s'.mapping.Keys, r'.rank, r'.top) && s'.mapping.Keys == s.mapping.Keys + {id}
  {
    RankOneMore(store, s.mapping.Keys, r, id);
    r' := Ranks(r.rank[id := r.top], r.top + 1);
    assert s'.mapping.Keys == s.mapping.Keys + {id};
  }

  lemma {:induction false} LoadFieldsRanks(store: map<nat, Rec>, fs: seq<Field>, seen: set<nat>, s: Import, r: Ranks)
      returns (s': Import, r': Ranks)
    requires Closed(store) && Targets(fs) <= store.Keys && s.mapping.Keys <= seen
    requires Ranked(store, s.mapping.Keys, r.rank, r.top)
    requires LoadFields(s, DumpFields(store, fs, seen).0).Some?
    ensures s' == LoadFields(s, DumpFields(store, fs, seen).0).value.0
    ensures Follows(s.mapping, s'.mapping, seen, DumpFields(store, fs, seen).1)
    ensures Targets(fs) <= s'.mapping.Keys && Ranked(store, s'.mapping.Keys, r'.rank, r'.top)
    decreases Left(store, seen), 3, |fs|
  {
    if fs == [] {
      s', r' := s, r;
    } else {
      var (d, seen1) := DumpField(store, fs[0], seen);
      var (ds, seen2) := DumpFields(store, fs[1..], seen1);
      assert ([d] + ds)[1..] == ds;
      LeftShrinks(store, seen, seen1);
      var s1, r1 := LoadFieldRanks(store, fs[0], seen, s, r);
      s', r' := LoadFieldsRanks(store, fs[1..], seen1, s1, r1);
    }
  }

  lemma {:induction false} LoadFieldRanks(store: map<nat, Rec>, f: Field, seen: set<nat>, s: Import, r: Ranks)
      returns (s': Import, r': Ranks)
    requires Closed(store) && FieldTargets(f) <= store.Keys && s.mapping.Keys <= seen
    requires Ranked(store, s.mapping.Keys, r.rank, r.top)
    requires LoadField(s, DumpField(store, f, seen).0).Some?
    ensures s' == LoadField(s, DumpField(store, f, seen).0).value.0
    ensures Follows(s.mapping, s'.mapping, seen, DumpField(store, f, seen).1)
    ensures FieldTargets(f) <= s'.mapping.Keys && Ranked(store, s'.mapping.Keys, r'.rank, r'.top)
    decreases Left(store, seen), 2, 0
  {
    match f
    case Scalar(_) => s', r' := s, r;
    case One(None) => s', r' := s, r;
    case One(Some(t)) => s', r' := LoadRecRanks(store, t, seen, s, r);
    case Many(ts) => s', r' := LoadAllRanks(store, Ordered(ts), seen, s, r);
  }

  lemma {:induction false} LoadAllRanks(store: map<nat, Rec>, ids: seq<nat>, seen: set<nat>, s: Import, r: Ranks)
      returns (s': Import, r': Ranks)
    requires Closed(store) && (forall i :: i in ids ==> i in store) && s.mapping.Keys <= seen
    requires Ranked(store, s.mapping.Keys, r.rank, r.top)
    requires LoadAll(s, DumpAll(store, ids, seen).0).Some?
    ensures s' == LoadAll(s, DumpAll(store, ids, seen).0).value.0
    ensures Follows(s.mapping, s'.mapping, seen, DumpAll(store, ids, seen).1)
    ensures (forall i :: i in ids ==> i in s'.mapping) && Ranked(store, s'.mapping.Keys, r'.rank, r'.top)
    decreases Left(store, seen), 1, |ids|
  {
    if ids == [] {
      s', r' := s, r;
    } else {
      var (d, seen1) := DumpRec(store, ids[0], seen);
      var (ds, seen2) := DumpAll(store, ids[1..], seen1);
      assert ([d] + ds)[1..] == ds;
      LeftShrinks(store, seen, seen1);
      var s1, r1 := LoadRecRanks(store, ids[0], seen, s, r);
      s', r' := LoadAllRanks(store, ids[1..], seen1, s1, r1);
    }
  }

  /** A load that succeeds shows that no reachable record leads back to itself. */
  lemma SuccessRanks(store: map<nat, Rec>, root: nat, db: map<nat, Rec>, next: nat) returns (rank: map<nat, nat>)
    requires Closed(store) && root in store && Load(db, next, Dump(store, root)).Some?
    ensures ClosedSet(store, Exported(store, root)) && AcyclicOn(store, Exported(store, root), rank)
  {
    ExportedIsReachable(store, root);
    var s, r := LoadFieldsRanks(store, store[root].fields, {} + {root}, Import(db, next, map[]), Ranks(map[], 0));
    RankOneMore(store, s.mapping.Keys, r, root);
    var done := s.mapping.Keys + {root};
    rank := r.rank[root := r.top];
    assert ClosedSet(store, done);
    forall k, t | k in done && t in Targets(store[k].fields) ensures rank[t] < rank[k] {
      assert LowerTargets(store[k].fields, rank, rank[k]);
    }
  }

  /** Load is defined on exactly the dumps of record graphs without cycles; on the
    * others it ends in the KeyError for an unknown reference. */
  lemma LoadsExactlyAcyclic(store: map<nat, Rec>, root: nat, db: map<nat, Rec>, next: nat)
    requires Closed(store) && UniqueUuids(store) && root in store && Sound(db, next)
    ensures Load(db, next, Dump(store, root)).Some? <==> NoReferenceCycles(store, root)
  {
    if Load(db, next, Dump(store, root)).Some? {
      var rank := SuccessRanks(store, root, db, next);
    }
    if NoReferenceCycles(store, root) {
      var s, at := RoundTrip(store, root, db, next);
    }
  }

  /** Two records that refer to each other are exported but cannot be loaded. */
  lemma MutualReferencesDoNotLoad(db: map<nat, Rec>, next: nat)
    requires Sound(db, next)
    ensures var store := map[0 := Rec(100, [One(Some(1))]), 1 := Rec(101, [One(Some(0))])];
      Closed(store) && Load(db, next, Dump(store, 0)).None?
  {
    var store := map[0 := Rec(100, [One(Some(1))]), 1 := Rec(101, [One(Some(0))])];
    assert Targets(store[0].fields) == {1} && Targets(store[1].fields) == {0};
    ExportedIsReachable(store, 0);
    LoadsExactlyAcyclic(store, 0, db, next);
    assert 1 in Exported(store, 0);
  }
}
