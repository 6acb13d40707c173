/**
 * The local table store both sync buses write into: each synchronized table
 * is a map from primary key to row. Only the operations the buses call are
 * modelled: listing a table, bulk put, get and update.
 */
module LocalStore {
  import opened SyncTypes

  /** Every row is stored under its own id, the table's primary key. */
  ghost predicate KeyedById(rows: map<string, Record>) {
    forall k :: k in rows ==> rows[k].id == k
  }

  /** The ids of a list of rows. */
  function IdsOf(items: seq<Record>): set<string> {
    set i | 0 <= i < |items| :: items[i].id
  }

  /** `items` lists the rows of a table: each row once, as stored. */
  ghost predicate ListsRows(items: seq<Record>, rows: map<string, Record>) {
    && IdsOf(items) == rows.Keys
    && (forall i :: 0 <= i < |items| ==> items[i].id in rows && rows[items[i].id] == items[i])
    && (forall i, j :: 0 <= i < j < |items| ==> items[i].id != items[j].id)
  }

  /** Upserts `items` one after another by id, as a bulk put does. */
  function PutAll(rows: map<string, Record>, items: seq<Record>): map<string, Record>
    decreases |items|
  {
    if items == [] then rows
    else PutAll(rows, items[..|items| - 1])[items[|items| - 1].id := items[|items| - 1]]
  }

  /** Extending a bulk put by one row upserts that row. */
  lemma PutAllSnoc(m: map<string, Record>, items: seq<Record>, i: nat)
    requires i < |items|
    ensures PutAll(m, items[..i + 1]) == PutAll(m, items[..i])[items[i].id := items[i]]
  {
    assert items[..i + 1][..i] == items[..i];
  }

  /** The last row of `items` whose id is `k`: the one a bulk put leaves behind. */
  function LastWith(items: seq<Record>, k: string): Record
    requires k in IdsOf(items)
    decreases |items|
  {
    var n := |items|;
    if items[n - 1].id == k then items[n - 1]
    else
      assert k in IdsOf(items[..n - 1]) by {
        var i :| 0 <= i < n && items[i].id == k;
        assert items[..n - 1][i] == items[i];
      }
      LastWith(items[..n - 1], k)
  }

  lemma IdsOfSnoc(items: seq<Record>, r: Record)
    ensures IdsOf(items + [r]) == IdsOf(items) + {r.id}
  {
    var s := items + [r];
    forall k | k in IdsOf(s) ensures k in IdsOf(items) + {r.id} {
      var i :| 0 <= i < |s| && s[i].id == k;
      if i < |items| { assert items[i] == s[i]; }
    }
    forall k | k in IdsOf(items) ensures k in IdsOf(s) {
      var i :| 0 <= i < |items| && items[i].id == k;
      assert s[i] == items[i];
    }
    assert s[|items|] == r;
  }

  /**
   * A bulk put is an upsert: it adds every listed id, keeps every other row,
   * and leaves under each listed id the last row carrying it.
   */
  lemma {:induction false} PutAllAt(rows: map<string, Record>, items: seq<Record>, k: string)
    ensures k in PutAll(rows, items) <==> k in rows || k in IdsOf(items)
    ensures k in IdsOf(items) ==> PutAll(rows, items)[k] == LastWith(items, k)
    ensures k !in IdsOf(items) && k in rows ==> PutAll(rows, items)[k] == rows[k]
    decreases |items|
  {
    if items != [] {
      var n := |items|;
      var init := items[..n - 1];
      assert items == init + [items[n - 1]];
      IdsOfSnoc(init, items[n - 1]);
      PutAllAt(rows, init, k);
    }
  }

  /** Putting the same rows twice leaves the table as putting them once. */
  lemma PutAllIdempotent(rows: map<string, Record>, items: seq<Record>)
    ensures PutAll(PutAll(rows, items), items) == PutAll(rows, items)
  {
    var once := PutAll(rows, items);
    var twice := PutAll(once, items);
    forall k ensures (k in twice <==> k in once) && (k in once ==> twice[k] == once[k]) {
      PutAllAt(rows, items, k);
      PutAllAt(once, items, k);
    }
    assert twice.Keys == once.Keys;
  }

  /** A bulk put keeps every row under its own id. */
  lemma PutAllKeyedById(rows: map<string, Record>, items: seq<Record>)
    requires KeyedById(rows)
    ensures KeyedById(PutAll(rows, items))
  {
    forall k | k in PutAll(rows, items) ensures PutAll(rows, items)[k].id == k {
      PutAllAt(rows, items, k);
      if k in IdsOf(items) { LastWithId(items, k); }
    }
  }

  lemma {:induction false} LastWithId(items: seq<Record>, k: string)
    requires k in IdsOf(items)
    ensures LastWith(items, k).id == k
    decreases |items|
  {
    var n := |items|;
    if items[n - 1].id != k {
      assert k in IdsOf(items[..n - 1]) by {
        var i :| 0 <= i < n && items[i].id == k;
        assert items[..n - 1][i] == items[i];
      }
      LastWithId(items[..n - 1], k);
    }
  }

  /** The row a bulk put leaves under `k` is one of the rows it was given. */
  lemma {:induction false} LastWithListed(items: seq<Record>, k: string) returns (i: nat)
    requires k in IdsOf(items)
    ensures i < |items| && items[i] == LastWith(items, k)
    decreases |items|
  {
    var n := |items|;
    if items[n - 1].id == k {
      i := n - 1;
    } else {
      assert k in IdsOf(items[..n - 1]) by {
        var j :| 0 <= j < n && items[j].id == k;
        assert items[..n - 1][j] == items[j];
      }
      i := LastWithListed(items[..n - 1], k);
      assert items[..n - 1][i] == items[i];
    }
  }

  /**
   * An in-place update of `row` by `changes`: the fields `changes` carries
   * overwrite those of the row, the row's other fields and its primary key stay.
   */
  function Merge(row: Record, changes: Record): (r: Record)
    ensures r.id == row.id
    ensures r.fields.Keys == row.fields.Keys + changes.fields.Keys
    ensures forall f :: f in changes.fields ==> r.fields[f] == changes.fields[f]
    ensures forall f :: f in row.fields && f !in changes.fields ==> r.fields[f] == row.fields[f]
  {
    Record(row.id, row.fields + changes.fields)
  }

  /** The local database: one keyed table per synchronized table. */
  class LocalDB {
    var tables: map<TableKey, map<string, Record>>

    ghost predicate Valid()
      reads this
    {
      forall t :: t in tables && KeyedById(tables[t])
    }

    constructor (initial: map<TableKey, map<string, Record>>)
      requires forall t :: t in initial && KeyedById(initial[t])
      ensures Valid() && tables == initial
    {
      tables := initial;
    }

    /** Lists every row of table `t`, each once. */
    method ToArray(t: TableKey) returns (items: seq<Record>)
      requires Valid()
      ensures ListsRows(items, tables[t])
    {
      var rows := tables[t];
      var rest := rows.Keys;
      items := [];
      while rest != {}
        invariant rest <= rows.Keys
        invariant IdsOf(items) == rows.Keys - rest
        invariant forall i :: 0 <= i < |items| ==> items[i].id in rows && rows[items[i].id] == items[i]
        invariant forall i, j :: 0 <= i < j < |items| ==> items[i].id != items[j].id
        decreases rest
      {
        var k :| k in rest;
        IdsOfSnoc(items, rows[k]);
        items := items + [rows[k]];
        rest := rest - {k};
      }
    }

    /** Upserts `items` into table `t` by id, one after another. */
    method BulkPut(t: TableKey, items: seq<Record>)
      requires Valid()
      modifies this
      ensures Valid()
      ensures tables == old(tables)[t := PutAll(old(tables)[t], items)]
    {
      for i := 0 to |items|
        invariant tables == old(tables)[t := PutAll(old(tables)[t], items[..i])]
        invariant Valid()
      {
        PutAllSnoc(old(tables)[t], items, i);
        PutAllKeyedById(old(tables)[t], items[..i + 1]);
        tables := tables[t := tables[t][items[i].id := items[i]]];
      }
      assert items[..|items|] == items;
    }

    /** The row of table `t` stored under `id`, if any. */
    function Get(t: TableKey, id: string): (r: Option<Record>)
      reads this
      requires Valid()
      ensures r.Some? <==> id in tables[t]
      ensures r.Some? ==> r.value == tables[t][id] && r.value.id == id
    {
      if id in tables[t] then Some(tables[t][id]) else None
    }

    /**
     * Merges `changes` into the row stored under `id`; a missing row is left
     * missing. Returns the number of rows updated.
     */
    method Update(t: TableKey, id: string, changes: Record) returns (updated: nat)
      requires Valid()
      modifies this
      ensures Valid()
      ensures updated == if id in old(tables)[t] then 1 else 0
      ensures tables == if id in old(tables)[t]
                        then old(tables)[t := old(tables)[t][id := Merge(old(tables)[t][id], changes)]]
                        else old(tables)
    {
      if id in tables[t] {
        tables := tables[t := tables[t][id := Merge(tables[t][id], changes)]];
        updated := 1;
      } else {
        updated := 0;
      }
    }
  }
}
