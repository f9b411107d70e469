/** The exporter and the importer as the program runs them: recursion that marks
  * records in a shared set, and recursion that fills a shared mapping and writes to
  * the database as it goes. Each computes what its specification in `RecordPort` says.
  */
module RecordSync {
  import opened ChannelJobs
  import opened RecordPort

  /** The members of a relation in the order of their ids. */
  method SortIds(s: set<nat>) returns (ids: seq<nat>)
    ensures ids == Ordered(s)
  {
    ids := [];
    var rest := s;
    while rest != {}
      invariant ids + Ordered(rest) == Ordered(s)
      decreases |rest|
    {
      LeastExists(rest);
      var m :| m in rest && forall i :: i in rest ==> m <= i;
      OrderedShift(ids, rest, m);
      ids := ids + [m];
      rest := rest - {m};
    }
  }

  lemma OrderedShift(ids: seq<nat>, rest: set<nat>, m: nat)
    requires m in rest && forall i :: i in rest ==> m <= i
    ensures ids + [m] + Ordered(rest - {m}) == ids + Ordered(rest)
  {
    OrderedStep(rest, m);
  }

  class Exporter {
    const store: map<nat, Rec>
    /** `already_exported`. */
    var exported: set<nat>

    constructor (store: map<nat, Rec>)
      ensures this.store == store && exported == {}
    {
      this.store := store;
      exported := {};
    }

    /** `_get_fields_as_pydata`. */
    method ExportRec(id: nat) returns (d: Data)
      requires Closed(store) && id in store
      modifies this
      ensures (d, exported) == DumpRec(store, id, old(exported))
      decreases Left(store, exported), 0, 0
    {
      if id in exported {
        return UseExisting(id);
      }
      LeftShrinks(store, exported, exported + {id});
      exported := exported + {id};
      var fs := ExportFields(store[id].fields);
      d := Full(id, store[id].uuid, fs);
    }

    /** The loop over the fields in the order of their names. */
    method ExportFields(fs: seq<Field>) returns (ds: seq<DataField>)
      requires Closed(store) && Targets(fs) <= store.Keys
      modifies this
      ensures (ds, exported) == DumpFields(store, fs, old(exported))
      decreases Left(store, exported), 3, |fs|
    {
      ds := [];
      var i := 0;
      assert fs[0..] == fs;
      GlueNone(DumpFields(store, fs, exported));
      while i < |fs|
        invariant 0 <= i <= |fs| && old(exported) <= exported && Targets(fs[i..]) <= store.Keys
        invariant Glued(ds, DumpFields(store, fs[i..], exported)) == DumpFields(store, fs, old(exported))
      {
        assert fs[i..][0] == fs[i] && fs[i..][1..] == fs[i + 1..];
        LeftShrinks(store, old(exported), exported);
        var d := ExportField(fs[i]);
        GlueOne(ds, d, DumpFields(store, fs[i + 1..], exported));
        ds := ds + [d];
        i := i + 1;
      }
      assert ds + [] == ds;
    }

    method ExportField(f: Field) returns (d: DataField)
      requires Closed(store) && FieldTargets(f) <= store.Keys
      modifies this
      ensures (d, exported) == DumpField(store, f, old(exported))
      decreases Left(store, exported), 2, 0
    {
      match f
      case Scalar(v) => d := ScalarData(v);
      case One(None) => d := OneData(None);
      case One(Some(t)) =>
        var one := ExportRec(t);
        d := OneData(Some(one));
      case Many(ts) =>
        var many := ExportAll(ts);
        d := ManyData(many);
    }

    /** `_xport_x2many`: the loop over the members in the order of their ids. */
    method ExportAll(ts: set<nat>) returns (ds: seq<Data>)
      requires Closed(store) && ts <= store.Keys
      modifies this
      ensures (ds, exported) == DumpAll(store, Ordered(ts), old(exported))
      decreases Left(store, exported), 1, 0
    {
      var ids := SortIds(ts);
      ds := [];
      var i := 0;
      assert ids[0..] == ids;
      GlueNone(DumpAll(store, ids, exported));
      while i < |ids|
        invariant 0 <= i <= |ids| && old(exported) <= exported
        invariant Glued(ds, DumpAll(store, ids[i..], exported)) == DumpAll(store, ids, old(exported))
      {
        assert ids[i..][0] == ids[i] && ids[i..][1..] == ids[i + 1..];
        LeftShrinks(store, old(exported), exported);
        var d := ExportRec(ids[i]);
        GlueOne(ds, d, DumpAll(store, ids[i + 1..], exported));
        ds := ds + [d];
        i := i + 1;
      }
      assert ds + [] == ds;
    }
  }

  /** `dump`. */
  method DumpRecord(store: map<nat, Rec>, root: nat) returns (d: Data)
    requires Closed(store) && root in store
    ensures d == Dump(store, root)
  {
    var exporter := new Exporter(store);
    d := exporter.ExportRec(root);
  }


  ghost function Glued<T>(ds: seq<T>, r: (seq<T>, set<nat>)): (seq<T>, set<nat>) {
    (ds + r.0, r.1)
  }

  lemma GlueNone<T>(r: (seq<T>, set<nat>))
    ensures Glued([], r) == r
  {
    assert [] + r.0 == r.0;
  }

  lemma GlueOne<T>(ds: seq<T>, d: T, r: (seq<T>, set<nat>))
    ensures Glued(ds, Glued([d], r)) == Glued(ds + [d], r)
  {
    assert ds + ([d] + r.0) == ds + [d] + r.0;
  }

  /** What `_import_convert_dict` returns: a record that is there, or the values of one
    * to write or create; or it raises a KeyError. */
  datatype Converted = Instance(id: nat) | CreateData(vals: seq<Field>) | KeyError

  class Importer {
    var db: map<nat, Rec>
    var next: nat
    /** `mapping_create_id_with_given_ids`. */
    var mapping: map<nat, nat>

    ghost function State(): Import
      reads this
    {
      Import(db, next, mapping)
    }

    constructor (db: map<nat, Rec>, next: nat)
      ensures State() == Import(db, next, map[])
    {
      this.db := db;
      this.next := next;
      mapping := map[];
    }

    /** `search([("zync_uuid", "=", uuid)])`. */
    method Search(uuid: nat) returns (r: Option<nat>)
      ensures r == Find(db, uuid)
    {
      var hits := set i | i in db && db[i].uuid == uuid;
      if hits == {} {
        return None;
      }
      LeastExists(hits);
      var m :| m in hits && forall i :: i in hits ==> m <= i;
      r := Some(m);
    }

    /** `_import_convert_dict`. */
    method ConvertDict(d: Data) returns (r: Converted)
      modifies this
      ensures match d
        case UseExisting(k) =>
          State() == old(State()) && r == (if k in mapping then Instance(mapping[k]) else KeyError)
        case Full(k, _, fs) =>
          if k in old(mapping) then State() == old(State()) && r == Instance(mapping[k])
          else
            var loaded := LoadFields(old(State()), fs);
            if loaded.None? then r == KeyError
            else State() == loaded.value.0 && r == CreateData(loaded.value.1)
      decreases d, 0
    {
      match d
      case UseExisting(k) =>
        return if k in mapping then Instance(mapping[k]) else KeyError;
      case Full(k, _, fs) =>
        if k in mapping {
          return Instance(mapping[k]);
        }
        var vals := [];
        var i := 0;
        assert fs[0..] == fs;
        PrefixNone(LoadFields(State(), fs));
        while i < |fs|
          invariant 0 <= i <= |fs|
          invariant LoadFields(old(State()), fs) == Prefixed(vals, LoadFields(State(), fs[i..]))
        {
          assert fs[i..][0] == fs[i] && fs[i..][1..] == fs[i + 1..];
          var ok, v := ConvertField(fs[i]);
          if !ok {
            return KeyError;
          }
          PrefixOne(vals, v, LoadFields(State(), fs[i + 1..]));
          vals := vals + [v];
          i := i + 1;
        }
        assert vals + [] == vals;
        r := CreateData(vals);
    }

    /** One field of `_import_convert_dict`. */
    method ConvertField(f: DataField) returns (ok: bool, v: Field)
      modifies this
      ensures ok == LoadField(old(State()), f).Some?
      ensures ok ==> (State(), v) == LoadField(old(State()), f).value
      decreases f, 0
    {
      match f
      case ScalarData(value) => return true, Scalar(value);
      case OneData(None) => return true, One(None);
      case OneData(Some(d)) =>
        var done, id := ImportRec(d);
        return done, One(Some(id));
      case ManyData(ds) =>
        var done, ids := ImportMany(ds);
        return done, Many(ids);
    }

    /** `_import_convert_many2one_reference`, and one turn of `_import_x2many_field`:
      * convert, write or create, and enter the record in the mapping. */
    method ImportRec(d: Data) returns (ok: bool, id: nat)
      modifies this
      ensures ok == LoadRec(old(State()), d).Some?
      ensures ok ==> (State(), id) == LoadRec(old(State()), d).value
      decreases d, 1
    {
      var r := ConvertDict(d);
      match r
      case KeyError => return false, 0;
      case Instance(i) => return true, i;
      case CreateData(vals) =>
        id := WriteOrCreate(d.uuid, vals);
        mapping := mapping[d.key := id];
        return true, id;
    }

    method WriteOrCreate(uuid: nat, vals: seq<Field>) returns (id: nat)
      modifies this
      ensures (State(), id) == Upsert(old(State()), uuid, vals)
    {
      var existing := Search(uuid);
      match existing
      case Some(i) =>
        id := i;
        db := db[i := Rec(uuid, MergeFields(db[i].fields, vals))];
      case None =>
        id := next;
        db := db[next := Rec(uuid, vals)];
        next := next + 1;
    }

    /** `_import_x2many_field`. */
    method ImportMany(ds: seq<Data>) returns (ok: bool, ids: set<nat>)
      modifies this
      ensures ok == LoadAll(old(State()), ds).Some?
      ensures ok ==> (State(), ids) == LoadAll(old(State()), ds).value
      decreases ds, 1
    {
      ids := {};
      var i := 0;
      assert ds[0..] == ds;
      JoinNone(LoadAll(State(), ds));
      while i < |ds|
        invariant 0 <= i <= |ds|
        invariant LoadAll(old(State()), ds) == Joined(ids, LoadAll(State(), ds[i..]))
      {
        assert ds[i..][0] == ds[i] && ds[i..][1..] == ds[i + 1..];
        var done, id := ImportRec(ds[i]);
        if !done {
          return false, {};
        }
        JoinOne(ids, id, LoadAll(State(), ds[i + 1..]));
        ids := ids + {id};
        i := i + 1;
      }
      assert ids + {} == ids;
      ok := true;
    }

    /** `load`. */
    method LoadRecord(d: Data) returns (ok: bool, id: nat)
      requires d.Full? && mapping == map[]
      modifies this
      ensures var r := Load(old(db), old(next), d);
        ok == r.Some? && (ok ==> (State(), id) == r.value)
    {
      var existing := Search(d.uuid);
      var r := ConvertDict(d);
      if r == KeyError {
        return false, 0;
      }
      ok := true;
      match existing
      case Some(i) =>
        id := i;
        db := db[i := Rec(d.uuid, MergeFields(db[i].fields, r.vals))];
      case None =>
        id := next;
        db := db[next := Rec(d.uuid, r.vals)];
        next := next + 1;
    }
  }

  ghost function Prefixed(vals: seq<Field>, r: Option<(Import, seq<Field>)>): Option<(Import, seq<Field>)> {
    match r
    case None => None
    case Some((s, vs)) => Some((s, vals + vs))
  }

  lemma PrefixNone(r: Option<(Import, seq<Field>)>)
    ensures Prefixed([], r) == r
  {
    match r
    case None =>
    case Some((s, vs)) => assert [] + vs == vs;
  }

  lemma PrefixOne(vals: seq<Field>, v: Field, r: Option<(Import, seq<Field>)>)
    ensures Prefixed(vals, Prefixed([v], r)) == Prefixed(vals + [v], r)
  {
    match r
    case None =>
    case Some((s, vs)) => assert vals + ([v] + vs) == vals + [v] + vs;
  }

  ghost function Joined(ids: set<nat>, r: Option<(Import, set<nat>)>): Option<(Import, set<nat>)> {
    match r
    case None => None
    case Some((s, more)) => Some((s, ids + more))
  }

  lemma JoinNone(r: Option<(Import, set<nat>)>)
    ensures Joined({}, r) == r
  {
    match r
    case None =>
    case Some((s, more)) => assert {} + more == more;
  }

  lemma JoinOne(ids: set<nat>, id: nat, r: Option<(Import, set<nat>)>)
    ensures Joined(ids, Joined({id}, r)) == Joined(ids + {id}, r)
  {
    match r
    case None =>
    case Some((s, more)) => assert ids + ({id} + more) == ids + {id} + more;
  }
}
