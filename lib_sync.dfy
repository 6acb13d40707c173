/**
 * The keyed-map sync bus: a bulk load that writes every row of the five
 * tables into a replicated map under its id, tagged with an internal-update
 * marker; table hooks that mirror local creates, updates and deletes into
 * the map; and a map observer that applies remote updates to the local
 * table, skipping local batches, marked values and values equal to the
 * stored row.
 */
module LibSync {
  import opened SyncTypes
  import opened LocalStore

  /** The field the bulk load adds to every value it writes. */
  const InternalUpdate: string := "_internalUpdate"

  /** The room joined when the caller names none. */
  const DefaultRoom: string := "abc"

  /** The name of the local persistence of the replicated document. */
  const PersistenceName: string := "lobechat-data-sync"

  /** The action a change batch reports for one key. */
  datatype Action = Add | Update | Delete

  /**
   * A change batch on a replicated map: its origin, the action per changed
   * key, and the value each changed key holds once the transaction is applied
   * (a changed key absent from `values` was removed). A local batch's values
   * are already in place.
   */
  datatype MapBatch = MapBatch(local: bool, keys: map<string, Action>, values: map<string, Record>)

  /** One action of the bus on its collaborators or its caller. */
  datatype Effect =
    | TableLoaded(table: TableKey)
    | InitCalled
    | ProviderCreated(room: string, password: Option<string>)
    | PersistenceCreated(name: string)

  // ---------------------------------------------------------------------
  // The internal-update marker

  /** The value the bulk load writes for `item`: the row plus the marker set to true. */
  function Mark(item: Record): (r: Record)
    ensures r.id == item.id
    ensures InternalUpdate in r.fields && r.fields[InternalUpdate] == Bool(true)
    ensures forall f :: f != InternalUpdate ==> (f in r.fields <==> f in item.fields)
    ensures forall f :: f in item.fields && f != InternalUpdate ==> r.fields[f] == item.fields[f]
  {
    Record(item.id, item.fields[InternalUpdate := Bool(true)])
  }

  /** The observer's marker test: the value carries a truthy marker field. */
  predicate IsMarked(v: Record) {
    InternalUpdate in v.fields && Truthy(v.fields[InternalUpdate])
  }

  function MarkAll(items: seq<Record>): seq<Record>
  {
    seq(|items|, i requires 0 <= i < |items| => Mark(items[i]))
  }

  /**
   * The map after the bulk load of table `rows`: every row under its id,
   * marked; every other key as it was.
   */
  function Preloaded(m: map<string, Record>, rows: map<string, Record>): (r: map<string, Record>)
    ensures r.Keys == m.Keys + rows.Keys
  {
    map k | k in m.Keys + rows.Keys :: if k in rows then Mark(rows[k]) else m[k]
  }

  /**
   * The bulk load stores each row of the table under its own id, as the row
   * with the marker set and every other field unchanged, and keeps every key
   * the table lacks.
   */
  lemma PreloadedRows(m: map<string, Record>, rows: map<string, Record>)
    requires KeyedById(rows)
    ensures forall k :: k in rows ==>
      var v := Preloaded(m, rows)[k];
      && v.id == k && IsMarked(v)
      && (forall f :: f != InternalUpdate ==> (f in v.fields <==> f in rows[k].fields))
      && (forall f :: f in rows[k].fields && f != InternalUpdate ==> v.fields[f] == rows[k].fields[f])
    ensures forall k :: k in m && k !in rows ==> Preloaded(m, rows)[k] == m[k]
  {
  }

  /** Every value the bulk load wrote is marked. */
  lemma PreloadedMarked(m: map<string, Record>, rows: map<string, Record>, k: string)
    requires k in rows
    ensures IsMarked(Preloaded(m, rows)[k])
  {
  }

  lemma MarkAllIds(items: seq<Record>)
    ensures IdsOf(MarkAll(items)) == IdsOf(items)
  {
    var r := MarkAll(items);
    forall k | k in IdsOf(r) ensures k in IdsOf(items) {
      var i :| 0 <= i < |r| && r[i].id == k;
      assert items[i].id == k;
    }
    forall k | k in IdsOf(items) ensures k in IdsOf(r) {
      var i :| 0 <= i < |items| && items[i].id == k;
      assert r[i].id == k;
    }
  }

  /**
   * Writing the marked rows of a listing one after another yields the
   * preloaded map, whatever order the listing has.
   */
  lemma MarkedPutIsPreloaded(m: map<string, Record>, items: seq<Record>, rows: map<string, Record>)
    requires ListsRows(items, rows)
    ensures PutAll(m, MarkAll(items)) == Preloaded(m, rows)
  {
    var marked := MarkAll(items);
    var r := PutAll(m, marked);
    MarkAllIds(items);
    forall k ensures (k in r <==> k in Preloaded(m, rows)) && (k in r ==> r[k] == Preloaded(m, rows)[k]) {
      PutAllAt(m, marked, k);
      if k in rows {
        var i := LastWithListed(marked, k);
        LastWithId(marked, k);
        assert items[i].id == k;
      }
    }
  }

  // ---------------------------------------------------------------------
  // Remote map changes

  /**
   * Whether the observer writes key `k` of a batch into the table: the key
   * is reported as updated, its map value is present and unmarked, the row
   * exists and differs from the map value.
   */
  predicate Writes(rows: map<string, Record>, m: map<string, Record>, keys: map<string, Action>, k: string) {
    && k in keys && keys[k] == Update
    && k in m && !IsMarked(m[k])
    && k in rows && rows[k] != m[k]
  }

  /** The table after the keys of `among` have been handled. */
  function Reconciled(rows: map<string, Record>, m: map<string, Record>, keys: map<string, Action>, among: set<string>): (r: map<string, Record>)
    ensures r.Keys == rows.Keys
  {
    map k | k in rows :: if k in among && Writes(rows, m, keys, k) then Merge(rows[k], m[k]) else rows[k]
  }

  /** The keys whose rows the observer updates. */
  function WrittenKeys(rows: map<string, Record>, m: map<string, Record>, keys: map<string, Action>): set<string>
  {
    set k | k in keys && Writes(rows, m, keys, k)
  }

  /** The keys whose map value is missing: reading the marker of such a value fails. */
  function MissingKeys(m: map<string, Record>, keys: map<string, Action>): set<string>
  {
    set k | k in keys && k !in m
  }

  /**
   * The written keys are exactly the rows the observer changes: each takes
   * the merge of the map value, every other row keeps its value, and no
   * written key is one whose map value is missing.
   */
  lemma ReconciledChangesOnlyWritten(rows: map<string, Record>, m: map<string, Record>, keys: map<string, Action>)
    ensures WrittenKeys(rows, m, keys) <= rows.Keys * keys.Keys
    ensures WrittenKeys(rows, m, keys) !! MissingKeys(m, keys)
    ensures forall k :: k in rows && k !in WrittenKeys(rows, m, keys) ==> Reconciled(rows, m, keys, keys.Keys)[k] == rows[k]
    ensures forall k :: k in WrittenKeys(rows, m, keys) ==>
      k in m && k in rows && Reconciled(rows, m, keys, keys.Keys)[k] == Merge(rows[k], m[k])
  {
  }

  /** The map once a remote batch's values are applied to `m`. */
  function ApplyBatch(m: map<string, Record>, batch: MapBatch): (r: map<string, Record>)
    ensures r.Keys == (m.Keys - batch.keys.Keys) + (batch.keys.Keys * batch.values.Keys)
  {
    map k | k in (m.Keys - batch.keys.Keys) + (batch.keys.Keys * batch.values.Keys) ::
      if k in batch.keys then batch.values[k] else m[k]
  }

  /**
   * A peer's value reaches the local row: a key the batch reports as updated,
   * whose new value is unmarked and differs from the stored row, is merged
   * from that value; keys the batch does not report keep their map value.
   */
  lemma RemoteUpdateReachesRow(rows: map<string, Record>, m: map<string, Record>, batch: MapBatch, k: string)
    requires k in batch.keys && batch.keys[k] == Update && k in batch.values
    requires !IsMarked(batch.values[k]) && k in rows && rows[k] != batch.values[k]
    ensures k in ApplyBatch(m, batch) && ApplyBatch(m, batch)[k] == batch.values[k]
    ensures Reconciled(rows, ApplyBatch(m, batch), batch.keys, batch.keys.Keys)[k] == Merge(rows[k], batch.values[k])
    ensures forall j :: j in m && j !in batch.keys ==> j in ApplyBatch(m, batch) && ApplyBatch(m, batch)[j] == m[j]
  {
  }

  /** The keys that fail are exactly the reported keys the peer removed from the map. */
  lemma RemovedKeysFail(m: map<string, Record>, batch: MapBatch)
    ensures MissingKeys(ApplyBatch(m, batch), batch.keys) == batch.keys.Keys - batch.values.Keys
  {
  }

  /**
   * A batch whose values all carry the marker, as a peer's own bulk load
   * writes them, leaves the local table as it was.
   */
  lemma MarkedRemoteValuesIgnored(rows: map<string, Record>, m: map<string, Record>, batch: MapBatch)
    requires forall k :: k in batch.values ==> IsMarked(batch.values[k])
    ensures Reconciled(rows, ApplyBatch(m, batch), batch.keys, batch.keys.Keys) == rows
  {
    var r := Reconciled(rows, ApplyBatch(m, batch), batch.keys, batch.keys.Keys);
    forall k | k in rows ensures r[k] == rows[k] {
      if k in batch.keys && k in batch.values {
        MarkedNeverWritten(rows, ApplyBatch(m, batch), batch.keys, batch.keys.Keys, k);
      }
    }
  }

  /** Handling one more key changes at most that key's row. */
  lemma ReconciledStep(rows: map<string, Record>, m: map<string, Record>, keys: map<string, Action>, done: set<string>, k: string)
    requires k !in done
    ensures Reconciled(rows, m, keys, done + {k})
         == if Writes(rows, m, keys, k)
            then Reconciled(rows, m, keys, done)[k := Merge(rows[k], m[k])]
            else Reconciled(rows, m, keys, done)
  {
  }

  /** Taking key `k` out of the keys still to handle adds it to a set exactly when it qualifies. */
  lemma SetStep(all: set<string>, rest: set<string>, k: string)
    requires k in rest
    ensures all - (rest - {k}) == (all - rest) + (if k in all then {k} else {})
  {
  }

  lemma MergeIdempotent(row: Record, changes: Record)
    ensures Merge(Merge(row, changes), changes) == Merge(row, changes)
  {
    assert row.fields + changes.fields + changes.fields == row.fields + changes.fields;
  }

  /** Handling the same batch twice leaves the table as handling it once. */
  lemma ReconcileIdempotent(rows: map<string, Record>, m: map<string, Record>, keys: map<string, Action>, among: set<string>)
    ensures Reconciled(Reconciled(rows, m, keys, among), m, keys, among) == Reconciled(rows, m, keys, among)
  {
    var once := Reconciled(rows, m, keys, among);
    var twice := Reconciled(once, m, keys, among);
    forall k | k in rows ensures twice[k] == once[k] {
      if k in among && Writes(rows, m, keys, k) {
        MergeIdempotent(rows[k], m[k]);
      }
    }
  }

  /** A value written by the bulk load, or any other marked value, is never applied. */
  lemma MarkedNeverWritten(rows: map<string, Record>, m: map<string, Record>, keys: map<string, Action>, among: set<string>, k: string)
    requires k in rows && k in m && IsMarked(m[k])
    ensures Reconciled(rows, m, keys, among)[k] == rows[k]
  {
  }

  /**
   * Loop suppression: right after the bulk load, no key of the table is
   * written back into it, whatever batch arrives.
   */
  lemma PreloadSuppressesEcho(m0: map<string, Record>, rows: map<string, Record>, keys: map<string, Action>, among: set<string>)
    ensures Reconciled(rows, Preloaded(m0, rows), keys, among) == rows
  {
    var r := Reconciled(rows, Preloaded(m0, rows), keys, among);
    forall k | k in rows ensures r[k] == rows[k] {
      PreloadedMarked(m0, rows, k);
      MarkedNeverWritten(rows, Preloaded(m0, rows), keys, among, k);
    }
  }

  /** Reported additions and deletions never touch the table. */
  lemma AddAndDeleteLeaveRow(rows: map<string, Record>, m: map<string, Record>, keys: map<string, Action>, among: set<string>, k: string)
    requires k in rows && k in keys && keys[k] != Update
    ensures Reconciled(rows, m, keys, among)[k] == rows[k]
  {
  }

  /** A map value equal to the stored row causes no write. */
  lemma EqualValueNotWritten(rows: map<string, Record>, m: map<string, Record>, keys: map<string, Action>, among: set<string>, k: string)
    requires k in rows && k in m && m[k] == rows[k]
    ensures Reconciled(rows, m, keys, among)[k] == rows[k]
    ensures k !in WrittenKeys(rows, m, keys)
  {
  }

  /**
   * A written key takes every field of the map value; fields the value lacks
   * keep their stored value. A value carrying every field of the row (and the
   * row's id) replaces it outright, so the next equal update is skipped.
   */
  lemma UpdateTakesMapValue(rows: map<string, Record>, m: map<string, Record>, keys: map<string, Action>, among: set<string>, k: string)
    requires k in among && Writes(rows, m, keys, k)
    ensures var r := Reconciled(rows, m, keys, among)[k];
      && r.id == rows[k].id
      && (forall f :: f in m[k].fields ==> f in r.fields && r.fields[f] == m[k].fields[f])
      && (forall f :: f in rows[k].fields && f !in m[k].fields ==> r.fields[f] == rows[k].fields[f])
      && (m[k].id == rows[k].id && rows[k].fields.Keys <= m[k].fields.Keys ==> r == m[k])
  {
    var r := Merge(rows[k], m[k]);
    if m[k].id == rows[k].id && rows[k].fields.Keys <= m[k].fields.Keys {
      assert r.fields == m[k].fields;
    }
  }

  /** The first `n` tables of the load order. */
  function TablesUpTo(n: nat): (r: set<TableKey>)
    requires n <= |SyncedTables|
    ensures forall t :: t in r <==> Position(t) < n
  {
    if n == 0 then {}
    else
      PositionOf(n - 1);
      TablesUpTo(n - 1) + {SyncedTables[n - 1]}
  }

  /** The replicated maps after the bulk load of the first `n` tables of the load order. */
  function PreloadedUpTo(before: map<TableKey, map<string, Record>>, tables: map<TableKey, map<string, Record>>, n: nat)
    : (r: map<TableKey, map<string, Record>>)
    requires n <= |SyncedTables|
    requires forall t :: t in before && t in tables
    ensures forall t :: t in r
  {
    if n == 0 then before
    else
      var t := SyncedTables[n - 1];
      PreloadedUpTo(before, tables, n - 1)[t := Preloaded(before[t], tables[t])]
  }

  /** Tables not among the first `n` keep their map. */
  lemma {:induction false} PreloadedUpToBefore(before: map<TableKey, map<string, Record>>, tables: map<TableKey, map<string, Record>>,
                                               n: nat, t: TableKey)
    requires n <= Position(t)
    requires forall u :: u in before && u in tables
    ensures PreloadedUpTo(before, tables, n)[t] == before[t]
  {
    if n > 0 {
      PositionOf(n - 1);
      PreloadedUpToBefore(before, tables, n - 1, t);
    }
  }

  /** Each of the first `n` tables has its preloaded map. */
  lemma {:induction false} PreloadedUpToEach(before: map<TableKey, map<string, Record>>, tables: map<TableKey, map<string, Record>>,
                                             n: nat, t: TableKey)
    requires n <= |SyncedTables|
    requires forall u :: u in before && u in tables
    requires Position(t) < n
    ensures PreloadedUpTo(before, tables, n)[t] == Preloaded(before[t], tables[t])
  {
    if Position(t) < n - 1 {
      PositionOf(n - 1);
      PreloadedUpToEach(before, tables, n - 1, t);
    }
  }

  /** The room the provider joins: the given name unless it is missing or empty. */
  function ChannelName(name: Option<string>): (r: string)
    ensures name.Some? && name.value != "" ==> r == name.value
    ensures name.None? || name.value == "" ==> r == DefaultRoom
  {
    match name
    case Some(n) => if n != "" then n else DefaultRoom
    case None => DefaultRoom
  }

  /** What start reports after its bulk load: the optional init callback, then the provider and the persistence. */
  function StartEffects(name: Option<string>, password: Option<string>, hasOnInit: bool): seq<Effect> {
    LoadedEffects(|SyncedTables|)
    + (if hasOnInit then [InitCalled] else [])
    + [ProviderCreated(ChannelName(name), password), PersistenceCreated(PersistenceName)]
  }

  /** The completion of the loads of the first `n` tables of the load order. */
  function LoadedEffects(n: nat): (r: seq<Effect>)
    requires n <= |SyncedTables|
    ensures |r| == n
  {
    if n == 0 then [] else LoadedEffects(n - 1) + [TableLoaded(SyncedTables[n - 1])]
  }

  /** The `k`-th load completed is that of the `k`-th table of the load order. */
  lemma {:induction false} LoadedEffectsAt(n: nat, k: nat)
    requires k < n <= |SyncedTables|
    ensures LoadedEffects(n)[k] == TableLoaded(SyncedTables[k])
  {
    if k < n - 1 {
      LoadedEffectsAt(n - 1, k);
    }
  }

  /**
   * Start loads every table exactly once, and every load comes before the
   * init callback and the provider.
   */
  lemma StartLoadsFirst(name: Option<string>, password: Option<string>, hasOnInit: bool)
    ensures var es := StartEffects(name, password, hasOnInit);
      && (forall t :: exists i :: 0 <= i < |es| && es[i] == TableLoaded(t))
      && (forall i, j :: 0 <= i < j < |es| && es[i].TableLoaded? && es[j].TableLoaded? ==> es[i].table != es[j].table)
      && (forall i, j :: 0 <= i < |es| && 0 <= j < |es| && es[i].TableLoaded? && !es[j].TableLoaded? ==> i < j)
      && (hasOnInit <==> exists i :: 0 <= i < |es| && es[i] == InitCalled)
      && es[|es| - 2] == ProviderCreated(ChannelName(name), password)
  {
    var loads := LoadedEffects(|SyncedTables|);
    var tail := (if hasOnInit then [InitCalled] else [])
      + [ProviderCreated(ChannelName(name), password), PersistenceCreated(PersistenceName)];
    var es := StartEffects(name, password, hasOnInit);
    AppendAssoc(loads, if hasOnInit then [InitCalled] else [],
                [ProviderCreated(ChannelName(name), password), PersistenceCreated(PersistenceName)]);
    assert es == loads + tail;
    forall i | 0 <= i < |loads| ensures loads[i] == TableLoaded(SyncedTables[i]) {
      LoadedEffectsAt(|SyncedTables|, i);
    }
    assert forall i :: 0 <= i < |tail| ==> !tail[i].TableLoaded?;
    forall i | 0 <= i < |loads| ensures es[i] == loads[i] {
    }
    forall i | |loads| <= i < |es| ensures es[i] == tail[i - |loads|] && !es[i].TableLoaded? {
    }
    forall t ensures es[Position(t)] == TableLoaded(t) {
    }
    forall i, j | 0 <= i < j < |loads| ensures loads[i].table != loads[j].table {
      PositionOf(i);
      PositionOf(j);
    }
    if hasOnInit {
      assert es[|loads|] == InitCalled;
    } else {
      assert forall i :: 0 <= i < |tail| ==> tail[i] != InitCalled;
    }
  }

  // ---------------------------------------------------------------------
  // The bus

  class SyncBus {
    /** The local tables the bus reads and writes. */
    const db: LocalDB
    /** The replicated map of each table. */
    var maps: map<TableKey, map<string, Record>>
    /** The tables whose create, update and delete hooks are installed. */
    var hooked: set<TableKey>
    /** The tables whose map observer is installed. */
    var observed: set<TableKey>
    /** Everything start has done, in order. */
    var trace: seq<Effect>

    ghost predicate Valid()
      reads this, db
    {
      db.Valid() && (forall t :: t in maps)
    }

    constructor (db: LocalDB)
      requires db.Valid()
      ensures Valid()
      ensures this.db == db && hooked == {} && observed == {} && trace == []
      ensures forall t :: maps[t] == map[]
    {
      this.db := db;
      SyncedTablesExactlyOnce();
      maps := map t | t in SyncedTables :: map[];
      hooked := {};
      observed := {};
      trace := [];
    }

    /**
     * Bulk-loads the five tables, then calls the init callback if given, then
     * creates the provider for the chosen room and the local persistence.
     */
    method StartDataSync(name: Option<string>, password: Option<string>, hasOnInit: bool)
      requires Valid()
      modifies this`maps, this`hooked, this`observed, this`trace
      ensures Valid()
      ensures forall t :: maps[t] == Preloaded(old(maps)[t], db.tables[t])
      ensures forall t :: t in hooked && t in observed
      ensures trace == old(trace) + StartEffects(name, password, hasOnInit)
    {
      LoadAll();
      ghost var loads := LoadedEffects(|SyncedTables|);
      var init := if hasOnInit then [InitCalled] else [];
      var created := [ProviderCreated(ChannelName(name), password), PersistenceCreated(PersistenceName)];
      trace := trace + init;
      trace := trace + created;
      AppendAssoc(old(trace), loads, init);
      AppendAssoc(old(trace), loads + init, created);
    }

    /** Bulk-loads the five tables, one after another, in the load order. */
    method LoadAll()
      requires Valid()
      modifies this`maps, this`hooked, this`observed, this`trace
      ensures Valid()
      ensures forall t :: maps[t] == Preloaded(old(maps)[t], db.tables[t])
      ensures forall t :: t in hooked && t in observed
      ensures trace == old(trace) + LoadedEffects(|SyncedTables|)
    {
      for i := 0 to |SyncedTables|
        invariant Valid()
        invariant maps == PreloadedUpTo(old(maps), db.tables, i)
        invariant hooked == old(hooked) + TablesUpTo(i) && observed == old(observed) + TablesUpTo(i)
        invariant trace == old(trace) + LoadedEffects(i)
      {
        LoadStep(old(maps), i);
        AppendAssoc(old(trace), LoadedEffects(i), [TableLoaded(SyncedTables[i])]);
      }
      forall t ensures maps[t] == Preloaded(old(maps)[t], db.tables[t]) {
        PreloadedUpToEach(old(maps), db.tables, |SyncedTables|, t);
      }
    }

    /** Loads table `i` of the load order: the step of the bulk load. */
    method LoadStep(ghost before: map<TableKey, map<string, Record>>, i: nat)
      requires Valid() && i < |SyncedTables| && (forall t :: t in before)
      requires maps == PreloadedUpTo(before, db.tables, i)
      modifies this`maps, this`hooked, this`observed, this`trace
      ensures Valid()
      ensures maps == PreloadedUpTo(before, db.tables, i + 1)
      ensures hooked == old(hooked) + {SyncedTables[i]} && observed == old(observed) + {SyncedTables[i]}
      ensures trace == old(trace) + [TableLoaded(SyncedTables[i])]
    {
      var t := SyncedTables[i];
      PositionOf(i);
      PreloadedUpToBefore(before, db.tables, i, t);
      LoadDataFromDBtoYjs(t);
    }

    /** Writes `item` under `key` in the map of table `t`, marked as an internal update. */
    method InternalUpdateYMap(t: TableKey, key: string, item: Record)
      requires Valid()
      modifies this`maps
      ensures Valid()
      ensures maps == old(maps)[t := old(maps)[t][key := Mark(item)]]
    {
      maps := maps[t := maps[t][key := Mark(item)]];
    }

    /**
     * Writes every row of table `t` into its map, marked, then installs the
     * table's hooks and the map's observer.
     */
    method LoadDataFromDBtoYjs(t: TableKey)
      requires Valid()
      modifies this`maps, this`hooked, this`observed, this`trace
      ensures Valid()
      ensures maps == old(maps)[t := Preloaded(old(maps)[t], db.tables[t])]
      ensures hooked == old(hooked) + {t} && observed == old(observed) + {t}
      ensures trace == old(trace) + [TableLoaded(t)]
    {
      var items := db.ToArray(t);
      MarkedPutIsPreloaded(maps[t], items, db.tables[t]);
      SetAllMarked(t, items);
      hooked := hooked + {t};
      observed := observed + {t};
      trace := trace + [TableLoaded(t)];
    }

    /** Writes each of `items` into the map of table `t` under its id, marked, one after another. */
    method SetAllMarked(t: TableKey, items: seq<Record>)
      requires Valid()
      modifies this`maps
      ensures Valid()
      ensures maps == old(maps)[t := PutAll(old(maps)[t], MarkAll(items))]
    {
      ghost var m0 := maps[t];
      ghost var marked := MarkAll(items);
      assert maps == old(maps)[t := PutAll(m0, marked[..0])];
      for i := 0 to |items|
        invariant Valid()
        invariant maps == old(maps)[t := PutAll(m0, marked[..i])]
      {
        PutAllSnoc(m0, marked, i);
        InternalUpdateYMap(t, items[i].id, items[i]);
      }
      assert marked[..|items|] == marked;
    }

    /** The `creating` hook of table `t`: mirror the new row into the map. */
    method Creating(t: TableKey, key: string, item: Record)
      requires Valid()
      modifies this`maps
      ensures Valid()
      ensures maps == if t in hooked then old(maps)[t := old(maps)[t][key := item]] else old(maps)
    {
      if t in hooked {
        maps := maps[t := maps[t][key := item]];
      }
    }

    /** The `updating` hook of table `t`: set the map entry to the modifications the hook receives. */
    method Updating(t: TableKey, key: string, changes: Record)
      requires Valid()
      modifies this`maps
      ensures Valid()
      ensures maps == if t in hooked then old(maps)[t := old(maps)[t][key := changes]] else old(maps)
    {
      if t in hooked {
        maps := maps[t := maps[t][key := changes]];
      }
    }

    /** The `deleting` hook of table `t`: remove the map entry. */
    method Deleting(t: TableKey, key: string)
      requires Valid()
      modifies this`maps
      ensures Valid()
      ensures maps == if t in hooked then old(maps)[t := old(maps)[t] - {key}] else old(maps)
    {
      if t in hooked {
        maps := maps[t := maps[t] - {key}];
      }
    }

    /**
     * A change batch on table `t`'s map. A remote batch first leaves the map
     * as the peer's transaction made it; then the table's observer, once
     * installed, handles the batch.
     */
    method DeliverMapBatch(t: TableKey, batch: MapBatch) returns (updated: set<string>, failed: set<string>)
      requires Valid()
      modifies this`maps, db
      ensures Valid()
      ensures maps == if batch.local then old(maps) else old(maps)[t := ApplyBatch(old(maps)[t], batch)]
      ensures batch.local || t !in observed ==> db.tables == old(db.tables) && updated == {} && failed == {}
      ensures !batch.local && t in observed ==>
        && db.tables == old(db.tables)[t := Reconciled(old(db.tables)[t], maps[t], batch.keys, batch.keys.Keys)]
        && updated == WrittenKeys(old(db.tables)[t], maps[t], batch.keys)
        && failed == MissingKeys(maps[t], batch.keys)
    {
      updated, failed := {}, {};
      if !batch.local {
        maps := maps[t := ApplyBatch(maps[t], batch)];
        if t in observed {
          updated, failed := ObserveMapChange(t, batch);
        }
      }
    }

    /**
     * The observer of table `t`'s map handling a change batch. A local batch
     * is ignored. For a remote one, each changed key is handled on its own:
     * a missing map value fails, a marked value is skipped, and an `update`
     * whose map value differs from the stored row is merged into the row.
     * Returns the keys written and the keys that failed.
     */
    method ObserveMapChange(t: TableKey, batch: MapBatch) returns (updated: set<string>, failed: set<string>)
      requires Valid() && t in observed
      modifies db
      ensures Valid()
      ensures batch.local ==> db.tables == old(db.tables) && updated == {} && failed == {}
      ensures !batch.local ==>
        && db.tables == old(db.tables)[t := Reconciled(old(db.tables)[t], maps[t], batch.keys, batch.keys.Keys)]
        && updated == WrittenKeys(old(db.tables)[t], maps[t], batch.keys)
        && failed == MissingKeys(maps[t], batch.keys)
    {
      updated, failed := {}, {};
      if batch.local {
        return;
      }
      var m := maps[t];
      ghost var rows := db.tables[t];
      var rest := batch.keys.Keys;
      assert batch.keys.Keys - rest == {};
      assert Reconciled(rows, m, batch.keys, {}) == rows;
      while rest != {}
        invariant rest <= batch.keys.Keys
        invariant db.Valid()
        invariant db.tables == old(db.tables)[t := Reconciled(rows, m, batch.keys, batch.keys.Keys - rest)]
        invariant updated == WrittenKeys(rows, m, batch.keys) - rest
        invariant failed == MissingKeys(m, batch.keys) - rest
        decreases rest
      {
        var k :| k in rest;
        ghost var done := batch.keys.Keys - rest;
        var wrote, missing := ReconcileKey(t, m, batch.keys, k, rows, done);
        UpdateTwice(old(db.tables), t, Reconciled(rows, m, batch.keys, done), Reconciled(rows, m, batch.keys, done + {k}));
        SetStep(batch.keys.Keys, rest, k);
        SetStep(WrittenKeys(rows, m, batch.keys), rest, k);
        SetStep(MissingKeys(m, batch.keys), rest, k);
        if wrote {
          updated := updated + {k};
        }
        if missing {
          failed := failed + {k};
        }
        rest := rest - {k};
      }
      assert batch.keys.Keys - rest == batch.keys.Keys;
    }

    /**
     * The observer's handling of key `k` of a remote batch: a missing map
     * value fails, a marked value is skipped, and an `update` whose map value
     * differs from the stored row is merged into the row.
     */
    method ReconcileKey(t: TableKey, m: map<string, Record>, keys: map<string, Action>, k: string,
                        ghost rows: map<string, Record>, ghost done: set<string>)
      returns (wrote: bool, missing: bool)
      requires db.Valid() && k in keys && k !in done
      requires db.tables[t] == Reconciled(rows, m, keys, done)
      modifies db
      ensures db.Valid()
      ensures db.tables == old(db.tables)[t := Reconciled(rows, m, keys, done + {k})]
      ensures wrote <==> Writes(rows, m, keys, k)
      ensures missing <==> k !in m
    {
      ghost var partial := Reconciled(rows, m, keys, done);
      ReconciledStep(rows, m, keys, done, k);
      assert k in rows ==> partial[k] == rows[k];
      wrote, missing := false, false;
      if k !in m {
        missing := true;
      } else if !IsMarked(m[k]) && keys[k] == Update {
        var current := db.Get(t, k);
        if current != Some(m[k]) {
          var n := db.Update(t, k, m[k]);
          if n == 1 {
            assert Writes(rows, m, keys, k);
            UpdateTwice(old(db.tables), t, partial, partial[k := Merge(rows[k], m[k])]);
            wrote := true;
          }
        }
      }
      if !wrote {
        assert !Writes(rows, m, keys, k);
        UpdateSame(old(db.tables), t, partial);
      }
    }
  }
}
