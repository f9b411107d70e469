/** Export of a graph of records to nested data with back references, and import
  * of such data into a database (`zbs.xport.mixin`, `dump` and `load`).
  */
module RecordPort {
  import opened ChannelJobs

  /** A field of a record; the fields of a record are in the order of their names.
    * `Scalar(None)` is an unset (False) value. */
  datatype Field = Scalar(value: Option<int>) | One(target: Option<nat>) | Many(targets: set<nat>)

  datatype Rec = Rec(uuid: nat, fields: seq<Field>)

  /** Exported data: a record in full under its key, or a reference to one that is
    * exported in full elsewhere. */
  datatype Data = Full(key: nat, uuid: nat, fields: seq<DataField>) | UseExisting(key: nat)

  datatype DataField = ScalarData(value: Option<int>) | OneData(one: Option<Data>) | ManyData(many: seq<Data>)

  function FieldTargets(f: Field): set<nat> {
    match f
    case Scalar(_) => {}
    case One(None) => {}
    case One(Some(t)) => {t}
    case Many(ts) => ts
  }

  function Targets(fs: seq<Field>): set<nat> {
    if fs == [] then {} else FieldTargets(fs[0]) + Targets(fs[1..])
  }

  /** Every reference leads to a record of the store. */
  ghost predicate Closed(store: map<nat, Rec>) {
    forall k :: k in store ==> Targets(store[k].fields) <= store.Keys
  }

  /** The members of a relation in the order of their ids. */
  ghost function Ordered(s: set<nat>): (ids: seq<nat>)
    ensures forall i :: i in ids <==> i in s
    decreases |s|
  {
    if s == {} then []
    else
      LeastExists(s);
      var m :| m in s && forall i :: i in s ==> m <= i;
      [m] + Ordered(s - {m})
  }

  lemma LeastExists(s: set<nat>)
    requires s != {}
    ensures exists m :: m in s && forall i :: i in s ==> m <= i
  {
    var x :| x in s;
    LeastFrom(s, x);
  }

  lemma {:induction false} LeastFrom(s: set<nat>, x: nat)
    requires x in s
    ensures exists m :: m in s && forall i :: i in s ==> m <= i
  {
    if i :| i in s && i < x {
      LeastFrom(s, i);
    } else {
      assert forall i :: i in s ==> x <= i;
    }
  }

  lemma OrderedStep(s: set<nat>, m: nat)
    requires m in s && forall i :: i in s ==> m <= i
    ensures Ordered(s) == [m] + Ordered(s - {m})
  {
  }

  // --------------------------------------------------------------------- dump

  /** How many records are not exported yet. */
  ghost function Left(store: map<nat, Rec>, seen: set<nat>): nat {
    |store.Keys - seen|
  }

  lemma LeftShrinks(store: map<nat, Rec>, seen: set<nat>, seen': set<nat>)
    requires seen <= seen'
    ensures Left(store, seen') <= Left(store, seen)
    ensures (exists k :: k in store && k in seen' && k !in seen) ==> Left(store, seen') < Left(store, seen)
  {
    var a, b := store.Keys - seen', store.Keys - seen;
    assert b == a + (b - a);
    if k :| k in store && k in seen' && k !in seen {
      assert k in b - a;
    }
  }

  /** `_get_fields_as_pydata`: a record is marked as exported before its fields are
    * visited. */
  ghost function DumpRec(store: map<nat, Rec>, id: nat, seen: set<nat>): (r: (Data, set<nat>))
    requires Closed(store) && id in store
    ensures seen <= r.1 && id in r.1
    decreases Left(store, seen), 0, 0
  {
    if id in seen then (UseExisting(id), seen)
    else
      LeftShrinks(store, seen, seen + {id});
      var (fs, seen') := DumpFields(store, store[id].fields, seen + {id});
      (Full(id, store[id].uuid, fs), seen')
  }

  ghost function DumpFields(store: map<nat, Rec>, fs: seq<Field>, seen: set<nat>): (r: (seq<DataField>, set<nat>))
    requires Closed(store) && Targets(fs) <= store.Keys
    ensures seen <= r.1
    decreases Left(store, seen), 3, |fs|
  {
    if fs == [] then ([], seen)
    else
      var (d, seen1) := DumpField(store, fs[0], seen);
      LeftShrinks(store, seen, seen1);
      var (ds, seen2) := DumpFields(store, fs[1..], seen1);
      ([d] + ds, seen2)
  }

  ghost function DumpField(store: map<nat, Rec>, f: Field, seen: set<nat>): (r: (DataField, set<nat>))
    requires Closed(store) && FieldTargets(f) <= store.Keys
    ensures seen <= r.1
    decreases Left(store, seen), 2, 0
  {
    match f
    case Scalar(v) => (ScalarData(v), seen)
    case One(None) => (OneData(None), seen)
    case One(Some(t)) =>
      var (d, seen1) := DumpRec(store, t, seen);
      (OneData(Some(d)), seen1)
    case Many(ts) =>
      var (ds, seen1) := DumpAll(store, Ordered(ts), seen);
      (ManyData(ds), seen1)
  }

  ghost function DumpAll(store: map<nat, Rec>, ids: seq<nat>, seen: set<nat>): (r: (seq<Data>, set<nat>))
    requires Closed(store) && forall i :: i in ids ==> i in store
    ensures seen <= r.1
    decreases Left(store, seen), 1, |ids|
  {
    if ids == [] then ([], seen)
    else
      var (d, seen1) := DumpRec(store, ids[0], seen);
      LeftShrinks(store, seen, seen1);
      var (ds, seen2) := DumpAll(store, ids[1..], seen1);
      ([d] + ds, seen2)
  }

  /** `dump`. */
  ghost function Dump(store: map<nat, Rec>, root: nat): Data
    requires Closed(store) && root in store
  {
    DumpRec(store, root, {}).0
  }

  /** The records a dump of `root` exports. */
  ghost function Exported(store: map<nat, Rec>, root: nat): set<nat>
    requires Closed(store) && root in store
  {
    DumpRec(store, root, {}).1
  }

  // --------------------------------------------------------------------- load

  /** The database, the next free id, and the keys already imported. */
  datatype Import = Import(db: map<nat, Rec>, next: nat, mapping: map<nat, nat>)

  /** `search([("zync_uuid", "=", uuid)])`; uuids are unique in a database, so it does
    * not matter that this takes the least id. */
  ghost function Find(db: map<nat, Rec>, uuid: nat): (r: Option<nat>)
    ensures r.Some? ==> r.value in db && db[r.value].uuid == uuid
    ensures r.None? ==> forall i :: i in db ==> db[i].uuid != uuid
  {
    var hits := set i | i in db && db[i].uuid == uuid;
    if hits == {} then
      assert forall i :: i in db && db[i].uuid == uuid ==> i in hits;
      None
    else
      LeastExists(hits);
      var m :| m in hits && forall i :: i in hits ==> m <= i;
      Some(m)
  }

  /** `write`: unset values are absent from the data and leave the old value;
    * relations to many are written as links, which add to the old ones. */
  function MergeField(was: Field, val: Field): Field {
    match val
    case Scalar(None) => was
    case Scalar(Some(_)) => val
    case One(_) => val
    case Many(ts) => if was.Many? then Many(was.targets + ts) else val
  }

  function MergeFields(was: seq<Field>, vals: seq<Field>): seq<Field> {
    if |was| != |vals| then vals
    else seq(|vals|, i requires 0 <= i < |vals| && |was| == |vals| => MergeField(was[i], vals[i]))
  }

  /** Write to the record with this uuid, or create it. */
  ghost function Upsert(s: Import, uuid: nat, fields: seq<Field>): (Import, nat) {
    match Find(s.db, uuid)
    case Some(i) => (s.(db := s.db[i := Rec(uuid, MergeFields(s.db[i].fields, fields))]), i)
    case None => (s.(db := s.db[s.next := Rec(uuid, fields)], next := s.next + 1), s.next)
  }

  /** `_import_convert_dict` and the upsert after it; `None` is the KeyError for a
    * reference to a key that is not imported yet. */
  ghost function LoadRec(s: Import, d: Data): (r: Option<(Import, nat)>)
    ensures r.Some? ==> s.db.Keys <= r.value.0.db.Keys
    decreases d, 0
  {
    match d
    case UseExisting(k) => if k in s.mapping then Some((s, s.mapping[k])) else None
    case Full(key, uuid, fs) =>
      if key in s.mapping then Some((s, s.mapping[key]))
      else
        match LoadFields(s, fs)
        case None => None
        case Some((s1, vals)) =>
          var (s2, id) := Upsert(s1, uuid, vals);
          Some((s2.(mapping := s2.mapping[key := id]), id))
  }

  ghost function LoadFields(s: Import, fs: seq<DataField>): (r: Option<(Import, seq<Field>)>)
    ensures r.Some? ==> s.db.Keys <= r.value.0.db.Keys
    decreases fs, 0
  {
    if fs == [] then Some((s, []))
    else
      match LoadField(s, fs[0])
      case None => None
      case Some((s1, v)) =>
        match LoadFields(s1, fs[1..])
        case None => None
        case Some((s2, vs)) => Some((s2, [v] + vs))
  }

  ghost function LoadField(s: Import, f: DataField): (r: Option<(Import, Field)>)
    ensures r.Some? ==> s.db.Keys <= r.value.0.db.Keys
    decreases f, 0
  {
    match f
    case ScalarData(v) => Some((s, Scalar(v)))
    case OneData(None) => Some((s, One(None)))
    case OneData(Some(d)) =>
      (match LoadRec(s, d)
       case None => None
       case Some((s1, id)) => Some((s1, One(Some(id)))))
    case ManyData(ds) =>
      (match LoadAll(s, ds)
       case None => None
       case Some((s1, ids)) => Some((s1, Many(ids))))
  }

  ghost function LoadAll(s: Import, ds: seq<Data>): (r: Option<(Import, set<nat>)>)
    ensures r.Some? ==> s.db.Keys <= r.value.0.db.Keys
    decreases ds, 0
  {
    if ds == [] then Some((s, {}))
    else
      match LoadRec(s, ds[0])
      case None => None
      case Some((s1, id)) =>
        match LoadAll(s1, ds[1..])
        case None => None
        case Some((s2, ids)) => Some((s2, {id} + ids))
  }

  /** `load`: the record itself is written or created last; its key is not entered
    * in the mapping. */
  ghost function Load(db: map<nat, Rec>, next: nat, d: Data): Option<(Import, nat)>
    requires d.Full?
  {
    match LoadFields(Import(db, next, map[]), d.fields)
    case None => None
    case Some((s1, vals)) =>
      match Find(db, d.uuid)
      case Some(i) => Some((s1.(db := s1.db[i := Rec(d.uuid, MergeFields(s1.db[i].fields, vals))]), i))
      case None => Some((s1.(db := s1.db[s1.next := Rec(d.uuid, vals)], next := s1.next + 1), s1.next))
  }

  // ------------------------------------------------------ what a dump exports

  /** A set of records that contains what its members refer to. */
  ghost predicate ClosedSet(store: map<nat, Rec>, S: set<nat>) {
    S <= store.Keys && forall k :: k in S ==> Targets(store[k].fields) <= S
  }

  /** The records added to `seen` have all their targets in the new set, and they
    * lie in every closed set that holds the start. */
  ghost predicate Spreads(store: map<nat, Rec>, seen: set<nat>, seen': set<nat>) {
    && seen <= seen' && seen' - seen <= store.Keys
    && forall k :: k in seen' - seen ==> Targets(store[k].fields) <= seen'
  }

  lemma {:induction false} DumpRecSpreads(store: map<nat, Rec>, id: nat, seen: set<nat>, S: set<nat>)
    requires Closed(store) && id in store
    ensures Spreads(store, seen, DumpRec(store, id, seen).1)
    ensures ClosedSet(store, S) && id in S ==> DumpRec(store, id, seen).1 <= seen + S
    decreases Left(store, seen), 0, 0
  {
    if id !in seen {
      LeftShrinks(store, seen, seen + {id});
      DumpFieldsSpreads(store, store[id].fields, seen + {id}, S);
    }
  }

  lemma {:induction false} DumpFieldsSpreads(store: map<nat, Rec>, fs: seq<Field>, seen: set<nat>, S: set<nat>)
    requires Closed(store) && Targets(fs) <= store.Keys
    ensures Spreads(store, seen, DumpFields(store, fs, seen).1)
    ensures Targets(fs) <= DumpFields(store, fs, seen).1
    ensures ClosedSet(store, S) && Targets(fs) <= S ==> DumpFields(store, fs, seen).1 <= seen + S
    decreases Left(store, seen), 3, |fs|
  {
    if fs != [] {
      var seen1 := DumpField(store, fs[0], seen).1;
      DumpFieldSpreads(store, fs[0], seen, S);
      LeftShrinks(store, seen, seen1);
      DumpFieldsSpreads(store, fs[1..], seen1, S);
    }
  }

  lemma {:induction false} DumpFieldSpreads(store: map<nat, Rec>, f: Field, seen: set<nat>, S: set<nat>)
    requires Closed(store) && FieldTargets(f) <= store.Keys
    ensures Spreads(store, seen, DumpField(store, f, seen).1)
    ensures FieldTargets(f) <= DumpField(store, f, seen).1
    ensures ClosedSet(store, S) && FieldTargets(f) <= S ==> DumpField(store, f, seen).1 <= seen + S
    decreases Left(store, seen), 2, 0
  {
    match f
    case Scalar(_) =>
    case One(None) =>
    case One(Some(t)) => DumpRecSpreads(store, t, seen, S);
    case Many(ts) => DumpAllSpreads(store, Ordered(ts), seen, S);
  }

  lemma {:induction false} DumpAllSpreads(store: map<nat, Rec>, ids: seq<nat>, seen: set<nat>, S: set<nat>)
    requires Closed(store) && forall i :: i in ids ==> i in store
    ensures Spreads(store, seen, DumpAll(store, ids, seen).1)
    ensures forall i :: i in ids ==> i in DumpAll(store, ids, seen).1
    ensures ClosedSet(store, S) && (forall i :: i in ids ==> i in S) ==> DumpAll(store, ids, seen).1 <= seen + S
    decreases Left(store, seen), 1, |ids|
  {
    if ids != [] {
      var seen1 := DumpRec(store, ids[0], seen).1;
      DumpRecSpreads(store, ids[0], seen, S);
      LeftShrinks(store, seen, seen1);
      DumpAllSpreads(store, ids[1..], seen1, S);
    }
  }

  /** A dump exports exactly the records reachable from the root: the least set
    * that holds the root and everything its members refer to. */
  lemma ExportedIsReachable(store: map<nat, Rec>, root: nat)
    requires Closed(store) && root in store
    ensures root in Exported(store, root) && ClosedSet(store, Exported(store, root))
    ensures forall S :: ClosedSet(store, S) && root in S ==> Exported(store, root) <= S
  {
    DumpRecSpreads(store, root, {}, {});
    forall S | ClosedSet(store, S) && root in S ensures Exported(store, root) <= S {
      DumpRecSpreads(store, root, {}, S);
    }
  }

  // ------------------------------------------- each record in full exactly once

  function FullKeys(d: Data): seq<nat>
    decreases d, 0
  {
    match d
    case UseExisting(_) => []
    case Full(key, _, fs) => [key] + FieldsKeys(fs)
  }

  function FieldsKeys(fs: seq<DataField>): seq<nat>
    decreases fs, 0
  {
    if fs == [] then [] else FieldKeys(fs[0]) + FieldsKeys(fs[1..])
  }

  function FieldKeys(f: DataField): seq<nat>
    decreases f, 0
  {
    match f
    case ScalarData(_) => []
    case OneData(None) => []
    case OneData(Some(d)) => FullKeys(d)
    case ManyData(ds) => AllKeys(ds)
  }

  function AllKeys(ds: seq<Data>): seq<nat>
    decreases ds, 0
  {
    if ds == [] then [] else FullKeys(ds[0]) + AllKeys(ds[1..])
  }

  /** `keys` lists the members of `S`, each once. */
  ghost predicate Lists(keys: seq<nat>, S: set<nat>) {
    && (forall k :: k in keys <==> k in S)
    && forall i, j :: 0 <= i < j < |keys| ==> keys[i] != keys[j]
  }

  lemma ListsAppend(a: seq<nat>, b: seq<nat>, s0: set<nat>, s1: set<nat>, s2: set<nat>)
    requires s0 <= s1 <= s2 && Lists(a, s1 - s0) && Lists(b, s2 - s1)
    ensures Lists(a + b, s2 - s0)
  {
    forall i, j | 0 <= i < j < |a + b| ensures (a + b)[i] != (a + b)[j] {
      if i < |a| <= j {
        assert a[i] in a && b[j - |a|] in b;
      }
    }
  }

  lemma {:induction false} DumpRecOnce(store: map<nat, Rec>, id: nat, seen: set<nat>)
    requires Closed(store) && id in store
    ensures Lists(FullKeys(DumpRec(store, id, seen).0), DumpRec(store, id, seen).1 - seen)
    decreases Left(store, seen), 0, 0
  {
    if id !in seen {
      LeftShrinks(store, seen, seen + {id});
      DumpFieldsOnce(store, store[id].fields, seen + {id});
      assert (seen + {id}) - seen == {id};
      ListsAppend([id], FieldsKeys(DumpFields(store, store[id].fields, seen + {id}).0), seen, seen + {id},
                  DumpFields(store, store[id].fields, seen + {id}).1);
    }
  }

  lemma {:induction false} DumpFieldsOnce(store: map<nat, Rec>, fs: seq<Field>, seen: set<nat>)
    requires Closed(store) && Targets(fs) <= store.Keys
    ensures Lists(FieldsKeys(DumpFields(store, fs, seen).0), DumpFields(store, fs, seen).1 - seen)
    decreases Left(store, seen), 3, |fs|
  {
    if fs != [] {
      var (d, seen1) := DumpField(store, fs[0], seen);
      DumpFieldOnce(store, fs[0], seen);
      LeftShrinks(store, seen, seen1);
      var (ds, seen2) := DumpFields(store, fs[1..], seen1);
      DumpFieldsOnce(store, fs[1..], seen1);
      ListsAppend(FieldKeys(d), FieldsKeys(ds), seen, seen1, seen2);
      assert ([d] + ds)[1..] == ds;
    }
  }

  lemma {:induction false} DumpFieldOnce(store: map<nat, Rec>, f: Field, seen: set<nat>)
    requires Closed(store) && FieldTargets(f) <= store.Keys
    ensures Lists(FieldKeys(DumpField(store, f, seen).0), DumpField(store, f, seen).1 - seen)
    decreases Left(store, seen), 2, 0
  {
    match f
    case Scalar(_) =>
    case One(None) =>
    case One(Some(t)) => DumpRecOnce(store, t, seen);
    case Many(ts) => DumpAllOnce(store, Ordered(ts), seen);
  }

  lemma {:induction false} DumpAllOnce(store: map<nat, Rec>, ids: seq<nat>, seen: set<nat>)
    requires Closed(store) && forall i :: i in ids ==> i in store
    ensures Lists(AllKeys(DumpAll(store, ids, seen).0), DumpAll(store, ids, seen).1 - seen)
    decreases Left(store, seen), 1, |ids|
  {
    if ids != [] {
      var (d, seen1) := DumpRec(store, ids[0], seen);
      DumpRecOnce(store, ids[0], seen);
      LeftShrinks(store, seen, seen1);
      var (ds, seen2) := DumpAll(store, ids[1..], seen1);
      DumpAllOnce(store, ids[1..], seen1);
      ListsAppend(FullKeys(d), AllKeys(ds), seen, seen1, seen2);
      assert ([d] + ds)[1..] == ds;
    }
  }

  /** Sharing is exported as sharing: every reachable record is in the data in full
    * exactly once, whatever the number of references to it. */
  lemma EachExportedOnce(store: map<nat, Rec>, root: nat)
    requires Closed(store) && root in store
    ensures Lists(FullKeys(Dump(store, root)), Exported(store, root))
  {
    DumpRecOnce(store, root, {});
    assert Exported(store, root) - {} == Exported(store, root);
  }

  // ------------------------------------------------------------ what load does

  /** A field with its references replaced by the imported records. */
  function ImageField(f: Field, m: map<nat, nat>): Field {
    match f
    case Scalar(_) => f
    case One(None) => f
    case One(Some(t)) => One(if t in m then Some(m[t]) else None)
    case Many(ts) => Many(set t | t in ts && t in m :: m[t])
  }

  function Image(fs: seq<Field>, m: map<nat, nat>): seq<Field> {
    if fs == [] then [] else [ImageField(fs[0], m)] + Image(fs[1..], m)
  }

  predicate ExtendsMap(m: map<nat, nat>, m': map<nat, nat>) {
    forall k :: k in m ==> k in m' && m'[k] == m[k]
  }

  lemma {:induction false} ImageExtends(fs: seq<Field>, m: map<nat, nat>, m': map<nat, nat>)
    requires ExtendsMap(m, m') && Targets(fs) <= m.Keys
    ensures Image(fs, m') == Image(fs, m)
  {
    if fs != [] {
      ImageExtends(fs[1..], m, m');
      match fs[0]
      case Many(ts) => assert (set t | t in ts && t in m' :: m'[t]) == (set t | t in ts && t in m :: m[t]);
      case _ =>
    }
  }

  ghost predicate UniqueUuids(db: map<nat, Rec>) {
    forall i, j :: i in db && j in db && db[i].uuid == db[j].uuid ==> i == j
  }

  /** What is given: the exported store, a set of its records on which `rank` shows
    * that references are acyclic, and the database before the import. */
  datatype Setting = Setting(store: map<nat, Rec>, part: set<nat>, rank: map<nat, nat>, db: map<nat, Rec>, next: nat)

  ghost predicate AcyclicOn(store: map<nat, Rec>, part: set<nat>, rank: map<nat, nat>)
    requires ClosedSet(store, part)
  {
    && part <= rank.Keys
    && forall k, t :: k in part && t in Targets(store[k].fields) ==> rank[t] < rank[k]
  }

  ghost predicate SettingOk(c: Setting) {
    && Closed(c.store) && UniqueUuids(c.store) && UniqueUuids(c.db)
    && (forall i :: i in c.db ==> i < c.next)
    && ClosedSet(c.store, c.part) && AcyclicOn(c.store, c.part, c.rank)
  }

  /** The record of an import at id `i`: merged into what was there, or new. */
  function Merged(db: map<nat, Rec>, i: nat, uuid: nat, vals: seq<Field>): Rec {
    if i in db then Rec(uuid, MergeFields(db[i].fields, vals)) else Rec(uuid, vals)
  }

  /** Record `k` of the store is imported: at the id its uuid had before or at a new
    * one, with its fields pointing to imported records. */
  ghost predicate Imported(c: Setting, db: map<nat, Rec>, m: map<nat, nat>, k: nat) {
    && k in c.store && k in m && Targets(c.store[k].fields) <= m.Keys
    && m[k] in db && db[m[k]] == Merged(c.db, m[k], c.store[k].uuid, Image(c.store[k].fields, m))
    && (if m[k] in c.db then c.db[m[k]].uuid == c.store[k].uuid
        else forall i :: i in c.db ==> c.db[i].uuid != c.store[k].uuid)
  }

  /** Exactly the keys of the mapping are imported; nothing else changed. */
  ghost predicate LoadInv(c: Setting, s: Import) {
    && s.next >= c.next && (forall i :: i in s.db ==> i < s.next)
    && (forall k :: k in s.mapping ==> Imported(c, s.db, s.mapping, k))
    && (forall k, l :: k in s.mapping && l in s.mapping && s.mapping[k] == s.mapping[l] ==> k == l)
    && c.db.Keys <= s.db.Keys
    && (forall i :: i in s.db ==> i in c.db || i in s.mapping.Values)
    && (forall i :: i in c.db && i !in s.mapping.Values ==> s.db[i] == c.db[i])
  }

  /** A record whose key is not imported is found only where it was before. */
  lemma FindFresh(c: Setting, s: Import, k: nat)
    requires SettingOk(c) && LoadInv(c, s) && k in c.store && k !in s.mapping
    ensures match Find(s.db, c.store[k].uuid)
            case Some(i) => i in c.db && i !in s.mapping.Values && c.db[i].uuid == c.store[k].uuid
            case None => forall i :: i in c.db ==> c.db[i].uuid != c.store[k].uuid
  {
    var uuid := c.store[k].uuid;
    forall l | l in s.mapping
      ensures s.mapping[l] in s.db && s.db[s.mapping[l]].uuid != uuid
      ensures s.mapping[l] in c.db ==> c.db[s.mapping[l]].uuid != uuid
    {
      assert Imported(c, s.db, s.mapping, l);
    }
    forall i | i in c.db && c.db[i].uuid == uuid ensures i in s.db && s.db[i].uuid == uuid {
      assert i !in s.mapping.Values;
    }
    match Find(s.db, uuid)
    case Some(i) =>
      assert i !in s.mapping.Values;
    case None =>
  }

  /** Imported records stay imported when another record is written. */
  lemma ImportedKept(c: Setting, db: map<nat, Rec>, m: map<nat, nat>, db': map<nat, Rec>, m': map<nat, nat>, l: nat)
    requires Imported(c, db, m, l) && ExtendsMap(m, m') && m[l] in db' && db'[m[l]] == db[m[l]]
    ensures Imported(c, db', m', l)
  {
    ImageExtends(c.store[l].fields, m, m');
  }

  lemma OthersStayImported(c: Setting, s: Import, s': Import, k: nat, id: nat)
    requires LoadInv(c, s) && k !in s.mapping && id !in s.mapping.Values
    requires s'.mapping == s.mapping[k := id] && id in s'.db && s'.db == s.db[id := s'.db[id]]
    requires Imported(c, s'.db, s'.mapping, k)
    ensures forall l :: l in s'.mapping ==> Imported(c, s'.db, s'.mapping, l)
    ensures forall l :: l in s'.mapping && l != k ==> s'.mapping[l] != id
  {
    forall l | l in s.mapping
      ensures Imported(c, s'.db, s'.mapping, l)
      ensures s'.mapping[l] != id
    {
      assert Imported(c, s.db, s.mapping, l);
      assert s.mapping[l] in s.mapping.Values;
      ImportedKept(c, s.db, s.mapping, s'.db, s'.mapping, l);
    }
  }

  /** One more record `k`, at the id `id` that was not imported before. */
  lemma OneMoreImported(c: Setting, s: Import, s': Import, k: nat, id: nat)
    requires SettingOk(c) && LoadInv(c, s) && k !in s.mapping && id !in s.mapping.Values
    requires s'.mapping == s.mapping[k := id] && s'.next >= s.next && id < s'.next
    requires id in s'.db && s'.db == s.db[id := s'.db[id]]
    requires Imported(c, s'.db, s'.mapping, k)
    ensures LoadInv(c, s')
  {
    MapValues(s.mapping, k, id);
    OthersStayImported(c, s, s', k, id);
  }

  /** Write or create one more record and enter it in the mapping. */
  lemma UpsertImports(c: Setting, s: Import, k: nat)
    requires SettingOk(c) && LoadInv(c, s) && k in c.store && k !in s.mapping
    requires Targets(c.store[k].fields) <= s.mapping.Keys
    ensures var (s2, id) := Upsert(s, c.store[k].uuid, Image(c.store[k].fields, s.mapping));
      && LoadInv(c, s2.(mapping := s2.mapping[k := id]))
  {
    FindFresh(c, s, k);
    var (s2, id) := Upsert(s, c.store[k].uuid, Image(c.store[k].fields, s.mapping));
    assert id !in s.mapping.Values by {
      if l :| l in s.mapping && s.mapping[l] == id {
        assert Imported(c, s.db, s.mapping, l);
      }
    }
    var s' := s2.(mapping := s2.mapping[k := id]);
    ImageExtends(c.store[k].fields, s.mapping, s'.mapping);
    OneMoreImported(c, s, s', k, id);
  }

  lemma MapValues(m: map<nat, nat>, k: nat, v: nat)
    requires k !in m
    ensures m[k := v].Values == m.Values + {v}
  {
    var m' := m[k := v];
    assert m'[k] == v;
    forall x | x in m.Values ensures x in m'.Values {
      var l :| l in m && m[l] == x;
      assert m'[l] == x;
    }
  }

  // -------------------------------------------------- loading what was dumped

  /** Import has kept pace with export: of the records exported so far (`seen`),
    * those in `open` are being exported, all others are imported. */
  ghost predicate InStep(seen: set<nat>, open: set<nat>, s: Import) {
    s.mapping.Keys !! open && seen == s.mapping.Keys + open
  }

  /** All records being exported lie strictly above `ids`. */
  ghost predicate BelowOpen(c: Setting, open: set<nat>, ids: set<nat>) {
    open <= c.rank.Keys && ids <= c.rank.Keys && forall p, t :: p in open && t in ids ==> c.rank[t] < c.rank[p]
  }

  /** Import has gone on from `s` to `s'`, keeping everything. */
  ghost predicate Kept(c: Setting, s: Import, s': Import, seen': set<nat>, open: set<nat>) {
    LoadInv(c, s') && InStep(seen', open, s') && ExtendsMap(s.mapping, s'.mapping)
  }

  lemma LoadFieldsCons(s: Import, d: DataField, s1: Import, v: Field, ds: seq<DataField>, s2: Import, vs: seq<Field>)
    requires LoadField(s, d) == Some((s1, v)) && LoadFields(s1, ds) == Some((s2, vs))
    ensures LoadFields(s, [d] + ds) == Some((s2, [v] + vs))
  {
    assert ([d] + ds)[1..] == ds;
  }

  lemma LoadAllCons(s: Import, d: Data, s1: Import, id: nat, ds: seq<Data>, s2: Import, ids: set<nat>)
    requires LoadRec(s, d) == Some((s1, id)) && LoadAll(s1, ds) == Some((s2, ids))
    ensures LoadAll(s, [d] + ds) == Some((s2, {id} + ids))
  {
    assert ([d] + ds)[1..] == ds;
  }

  lemma ImageCons(fs: seq<Field>, m: map<nat, nat>, m': map<nat, nat>)
    requires fs != [] && ExtendsMap(m, m') && FieldTargets(fs[0]) <= m.Keys
    ensures [ImageField(fs[0], m)] + Image(fs[1..], m') == Image(fs, m')
  {
    OneImageExtends(fs[0], m, m');
  }

  lemma OneImageExtends(f: Field, m: map<nat, nat>, m': map<nat, nat>)
    requires ExtendsMap(m, m') && FieldTargets(f) <= m.Keys
    ensures ImageField(f, m') == ImageField(f, m)
  {
    match f
    case Many(ts) => assert (set t | t in ts && t in m' :: m'[t]) == (set t | t in ts && t in m :: m[t]);
    case _ =>
  }

  /** The imported ids of the records `ids`. */
  ghost function ImageIds(ids: seq<nat>, m: map<nat, nat>): set<nat> {
    set i | i in ids && i in m :: m[i]
  }

  lemma ImageIdsCons(ids: seq<nat>, m: map<nat, nat>, m': map<nat, nat>)
    requires ids != [] && ExtendsMap(m, m') && ids[0] in m
    ensures {m[ids[0]]} + ImageIds(ids[1..], m') == ImageIds(ids, m')
  {
    forall x | x in ImageIds(ids, m') ensures x in {m[ids[0]]} + ImageIds(ids[1..], m') {
      var k :| k in ids && k in m' && m'[k] == x;
      assert k == ids[0] || k in ids[1..];
    }
  }

  lemma ImageOfMany(ts: set<nat>, m: map<nat, nat>)
    ensures Many(ImageIds(Ordered(ts), m)) == ImageField(Many(ts), m)
  {
    assert ImageIds(Ordered(ts), m) == (set t | t in ts && t in m :: m[t]);
  }

  lemma {:induction false} LoadRecDumped(c: Setting, id: nat, seen: set<nat>, open: set<nat>, s: Import)
      returns (d: Data, seen': set<nat>, s': Import)
    requires SettingOk(c) && LoadInv(c, s) && id in c.part
    requires InStep(seen, open, s) && BelowOpen(c, open, {id})
    ensures DumpRec(c.store, id, seen) == (d, seen') && Kept(c, s, s', seen', open)
    ensures id in s'.mapping && LoadRec(s, d) == Some((s', s'.mapping[id]))
    decreases Left(c.store, seen), 0, 1
  {
    OpenOneMore(c, open, id);
    if id in seen {
      d, seen', s' := UseExisting(id), seen, s;
    } else {
      d, seen', s' := LoadNewDumped(c, id, seen, open, s);
    }
  }

  lemma {:induction false} LoadNewDumped(c: Setting, id: nat, seen: set<nat>, open: set<nat>, s: Import)
      returns (d: Data, seen': set<nat>, s': Import)
    requires SettingOk(c) && LoadInv(c, s) && id in c.part && id !in seen
    requires InStep(seen, open, s) && BelowOpen(c, open, {id})
    ensures DumpRec(c.store, id, seen) == (d, seen') && Kept(c, s, s', seen', open)
    ensures id in s'.mapping && LoadRec(s, d) == Some((s', s'.mapping[id]))
    decreases Left(c.store, seen), 0, 0
  {
    OpenOneMore(c, open, id);
    LeftShrinks(c.store, seen, seen + {id});
    OneMoreSeen(s, seen, open, id);
    var fs, s1;
    fs, seen', s1 := LoadFieldsDumped(c, c.store[id].fields, seen + {id}, open + {id}, s);
    d := Full(id, c.store[id].uuid, fs);
    DumpRecFull(c.store, id, seen, fs, seen');
    s' := RecordLoaded(c, id, open, s, fs, s1, seen');
  }

  lemma OneMoreSeen(s: Import, seen: set<nat>, open: set<nat>, id: nat)
    requires InStep(seen, open, s) && id !in seen
    ensures InStep(seen + {id}, open + {id}, s) && id !in s.mapping
  {
  }

  lemma DumpRecFull(store: map<nat, Rec>, id: nat, seen: set<nat>, fs: seq<DataField>, seen': set<nat>)
    requires Closed(store) && id in store && id !in seen
    requires DumpFields(store, store[id].fields, seen + {id}) == (fs, seen')
    ensures DumpRec(store, id, seen) == (Full(id, store[id].uuid, fs), seen')
  {
  }

  /** Once the fields of record `id` are loaded, the record itself is. */
  lemma RecordLoaded(c: Setting, id: nat, open: set<nat>, s: Import, fs: seq<DataField>, s1: Import, seen': set<nat>)
      returns (s': Import)
    requires SettingOk(c) && id in c.part && id !in s.mapping && id !in open
    requires Kept(c, s, s1, seen', open + {id})
    requires Targets(c.store[id].fields) <= s1.mapping.Keys
    requires LoadFields(s, fs) == Some((s1, Image(c.store[id].fields, s1.mapping)))
    ensures Kept(c, s, s', seen', open) && id in s'.mapping
    ensures LoadRec(s, Full(id, c.store[id].uuid, fs)) == Some((s', s'.mapping[id]))
  {
    UpsertImports(c, s1, id);
    var (s2, i) := Upsert(s1, c.store[id].uuid, Image(c.store[id].fields, s1.mapping));
    s' := s2.(mapping := s2.mapping[id := i]);
    KeyAdded(s1.mapping, id, i, seen', open);
  }

  lemma KeyAdded(m: map<nat, nat>, id: nat, i: nat, seen: set<nat>, open: set<nat>)
    requires m.Keys !! open + {id} && seen == m.Keys + (open + {id}) && id !in open
    ensures m[id := i].Keys !! open && seen == m[id := i].Keys + open && ExtendsMap(m, m[id := i])
  {
  }

  lemma OpenOneMore(c: Setting, open: set<nat>, id: nat)
    requires SettingOk(c) && id in c.part && BelowOpen(c, open, {id})
    ensures BelowOpen(c, open + {id}, Targets(c.store[id].fields)) && Targets(c.store[id].fields) <= c.part
    ensures id !in open
  {
    forall p, t | p in open + {id} && t in Targets(c.store[id].fields) ensures c.rank[t] < c.rank[p] {
      assert c.rank[t] < c.rank[id];
    }
  }

  lemma {:induction false} LoadFieldsDumped(c: Setting, fs: seq<Field>, seen: set<nat>, open: set<nat>, s: Import)
      returns (ds: seq<DataField>, seen': set<nat>, s': Import)
    requires SettingOk(c) && LoadInv(c, s) && Targets(fs) <= c.part
    requires InStep(seen, open, s) && BelowOpen(c, open, Targets(fs))
    ensures DumpFields(c.store, fs, seen) == (ds, seen') && Kept(c, s, s', seen', open)
    ensures Targets(fs) <= s'.mapping.Keys && LoadFields(s, ds) == Some((s', Image(fs, s'.mapping)))
    decreases Left(c.store, seen), 3, |fs|
  {
    if fs == [] {
      ds, seen', s' := [], seen, s;
    } else {
      var d, seen1, s1 := LoadFieldDumped(c, fs[0], seen, open, s);
      LeftShrinks(c.store, seen, seen1);
      var ds1;
      ds1, seen', s' := LoadFieldsDumped(c, fs[1..], seen1, open, s1);
      ds := [d] + ds1;
      LoadFieldsCons(s, d, s1, ImageField(fs[0], s1.mapping), ds1, s', Image(fs[1..], s'.mapping));
      ImageCons(fs, s1.mapping, s'.mapping);
    }
  }

  lemma {:induction false} LoadFieldDumped(c: Setting, f: Field, seen: set<nat>, open: set<nat>, s: Import)
      returns (d: DataField, seen': set<nat>, s': Import)
    requires SettingOk(c) && LoadInv(c, s) && FieldTargets(f) <= c.part
    requires InStep(seen, open, s) && BelowOpen(c, open, FieldTargets(f))
    ensures DumpField(c.store, f, seen) == (d, seen') && Kept(c, s, s', seen', open)
    ensures FieldTargets(f) <= s'.mapping.Keys && LoadField(s, d) == Some((s', ImageField(f, s'.mapping)))
    decreases Left(c.store, seen), 2, 0
  {
    match f
    case Scalar(v) => d, seen', s' := ScalarData(v), seen, s;
    case One(None) => d, seen', s' := OneData(None), seen, s;
    case One(Some(t)) =>
      var d1;
      d1, seen', s' := LoadRecDumped(c, t, seen, open, s);
      d := OneData(Some(d1));
    case Many(ts) =>
      var ds;
      ds, seen', s' := LoadAllDumped(c, Ordered(ts), seen, open, s);
      d := ManyData(ds);
      ImageOfMany(ts, s'.mapping);
  }

  lemma {:induction false} LoadAllDumped(c: Setting, ids: seq<nat>, seen: set<nat>, open: set<nat>, s: Import)
      returns (ds: seq<Data>, seen': set<nat>, s': Import)
    requires SettingOk(c) && LoadInv(c, s) && (forall i :: i in ids ==> i in c.part)
    requires InStep(seen, open, s) && BelowOpen(c, open, set i | i in ids)
    ensures DumpAll(c.store, ids, seen) == (ds, seen') && Kept(c, s, s', seen', open)
    ensures (forall i :: i in ids ==> i in s'.mapping) && LoadAll(s, ds) == Some((s', ImageIds(ids, s'.mapping)))
    decreases Left(c.store, seen), 1, |ids|
  {
    if ids == [] {
      ds, seen', s' := [], seen, s;
      assert ImageIds(ids, s.mapping) == {};
    } else {
      BelowOpenParts(c, open, ids);
      var d, seen1, s1 := LoadRecDumped(c, ids[0], seen, open, s);
      LeftShrinks(c.store, seen, seen1);
      var ds1;
      ds1, seen', s' := LoadAllDumped(c, ids[1..], seen1, open, s1);
      ds := [d] + ds1;
      LoadAllCons(s, d, s1, s1.mapping[ids[0]], ds1, s', ImageIds(ids[1..], s'.mapping));
      ImageIdsCons(ids, s1.mapping, s'.mapping);
      DumpAllCons(c.store, ids, seen, d, seen1, ds1, seen');
    }
  }

  lemma DumpAllCons(store: map<nat, Rec>, ids: seq<nat>, seen: set<nat>, d: Data, seen1: set<nat>, ds: seq<Data>, seen2: set<nat>)
    requires Closed(store) && ids != [] && forall i :: i in ids ==> i in store
    requires DumpRec(store, ids[0], seen) == (d, seen1) && DumpAll(store, ids[1..], seen1) == (ds, seen2)
    ensures DumpAll(store, ids, seen) == ([d] + ds, seen2)
  {
  }

  lemma BelowOpenParts(c: Setting, open: set<nat>, ids: seq<nat>)
    requires ids != [] && BelowOpen(c, open, set i | i in ids)
    ensures BelowOpen(c, open, {ids[0]}) && BelowOpen(c, open, set i | i in ids[1..])
  {
  }
}
