/**
 * The array-based sync bus: a single transport provider that start and
 * reconnect replace, a status machine driven by the transport's `status` and
 * `synced` notifications, a bulk load that pushes every table into a
 * replicated array in batches of 50, per-table observers that upsert remote
 * additions into the local table, and the mapping of awareness states to
 * presence records.
 *
 * Everything the bus does to its collaborators (the transport, the replicated
 * arrays, the local tables and the caller's callbacks) is recorded, in order,
 * in the bus's `trace`.
 */
module CoreSync {
  import opened SyncTypes
  import opened LocalStore

  /** The most rows one push into a replicated array carries. */
  const BatchSize: nat := 50

  /** The signaling server used when the caller names none. */
  const DefaultSignaling: string := "wss://y-webrtc-signaling.lobehub.com"

  datatype Channel = Channel(name: string, password: Option<string>)

  /**
   * What a caller passes to start sync. The three flags say whether the
   * optional status, table-event and awareness callbacks were supplied.
   */
  datatype Params = Params(
    channel: Channel,
    user: SyncUser,
    signaling: Option<string>,
    hasStatusCallback: bool,
    hasEventCallback: bool,
    hasAwarenessCallback: bool)

  /** A transport provider; its serial number tells providers apart. */
  datatype Provider = Provider(serial: nat, room: string, password: Option<string>, signaling: seq<string>)

  /** One entry of the transport's awareness states. */
  datatype AwarenessState = AwarenessState(clientID: int, user: SyncUser)

  /** A presence record handed to the awareness callback. */
  datatype Presence = Presence(user: SyncUser, clientID: int, current: bool)

  /**
   * A change batch on a replicated array: its origin, how many items it
   * added, and the array's contents once the transaction is applied (a local
   * batch's contents are already in place).
   */
  datatype ArrayBatch = ArrayBatch(local: bool, added: nat, after: seq<Record>)

  /** One action of the bus on its collaborators. */
  datatype Effect =
    | ProviderCreated(provider: Provider)
    | ProviderDestroyed(serial: nat)
    | ProviderDisconnected(serial: nat)
    | PresencePublished(clientID: int, user: SyncUser)
    | Pushed(table: TableKey, items: seq<Record>)
    /** A bulk put of `items` into table `table` is called. */
    | PutIssued(table: TableKey, items: seq<Record>)
    /** A bulk put of `items` into table `table` has completed: the rows are stored. */
    | TablePut(table: TableKey, items: seq<Record>)
    | StatusChanged(status: SyncStatus)
    | TableEvent(table: TableKey)
    | AwarenessChanged(records: seq<Presence>)

  function Min(a: int, b: int): int {
    if a < b then a else b
  }

  // ---------------------------------------------------------------------
  // Callbacks and transport effects

  function SignalingOf(p: Params): string {
    match p.signaling
    case Some(s) => s
    case None => DefaultSignaling
  }

  /** The provider `connect` builds for `p`: room, password and signaling taken from `p`. */
  function ProviderFor(serial: nat, p: Params): Provider {
    Provider(serial, p.channel.name, p.channel.password, [SignalingOf(p)])
  }

  function StatusOut(p: Params, s: SyncStatus): seq<Effect> {
    if p.hasStatusCallback then [StatusChanged(s)] else []
  }

  function EventOut(p: Params, t: TableKey): seq<Effect> {
    if p.hasEventCallback then [TableEvent(t)] else []
  }

  function AwarenessOut(p: Params, records: seq<Presence>): seq<Effect> {
    if p.hasAwarenessCallback then [AwarenessChanged(records)] else []
  }

  /** What `connect` does once the provider exists: publish the local state, report the local presence. */
  function ConnectEffects(created: Provider, clientID: int, p: Params): seq<Effect> {
    [ProviderCreated(created), PresencePublished(clientID, p.user)]
    + AwarenessOut(p, [Presence(p.user, clientID, true)])
  }

  function DestroyEffects(provider: Option<Provider>): seq<Effect> {
    match provider
    case Some(q) => [ProviderDestroyed(q.serial)]
    case None => []
  }

  function SerialsOf(provider: Option<Provider>): set<nat> {
    match provider
    case Some(q) => {q.serial}
    case None => {}
  }

  /** The live providers after one more effect. */
  function LiveStep(live: set<nat>, e: Effect): set<nat> {
    match e
    case ProviderCreated(q) => live + {q.serial}
    case ProviderDestroyed(s) => live - {s}
    case _ => live
  }

  /** The serials of the providers a trace created and has not destroyed. */
  ghost function Live(trace: seq<Effect>): set<nat>
    decreases |trace|
  {
    if trace == [] then {} else LiveStep(Live(trace[..|trace| - 1]), trace[|trace| - 1])
  }

  ghost predicate Quiet(more: seq<Effect>) {
    forall i :: 0 <= i < |more| ==> !more[i].ProviderCreated? && !more[i].ProviderDestroyed?
  }

  lemma LiveSnoc(trace: seq<Effect>, e: Effect)
    ensures Live(trace + [e]) == LiveStep(Live(trace), e)
  {
    assert (trace + [e])[..|trace|] == trace;
  }

  /** Effects other than creating and destroying providers leave the live set alone. */
  lemma {:induction false} LiveQuiet(trace: seq<Effect>, more: seq<Effect>)
    requires Quiet(more)
    ensures Live(trace + more) == Live(trace)
    decreases |more|
  {
    if more != [] {
      var m := |more|;
      assert trace + more == (trace + more[..m - 1]) + [more[m - 1]];
      assert !more[m - 1].ProviderCreated? && !more[m - 1].ProviderDestroyed?;
      assert Quiet(more[..m - 1]) by {
        forall i | 0 <= i < m - 1 ensures !more[i].ProviderCreated? && !more[i].ProviderDestroyed? {
        }
        assert forall i :: 0 <= i < m - 1 ==> more[..m - 1][i] == more[i];
      }
      LiveSnoc(trace + more[..m - 1], more[m - 1]);
      LiveQuiet(trace, more[..m - 1]);
    } else {
      assert trace + more == trace;
    }
  }

  // ---------------------------------------------------------------------
  // Batching of the bulk load

  /** Math.ceil(n / 50). */
  function BatchCount(n: nat): nat {
    (n + BatchSize - 1) / BatchSize
  }

  function Flatten<T>(bs: seq<seq<T>>): seq<T> {
    if bs == [] then [] else bs[0] + Flatten(bs[1..])
  }

  /** The consecutive batches of at most 50 rows a table's rows are pushed in. */
  function Batches<T>(items: seq<T>): seq<seq<T>>
    decreases |items|
  {
    if |items| == 0 then []
    else if |items| <= BatchSize then [items]
    else [items[..BatchSize]] + Batches(items[BatchSize..])
  }

  /** There are ceil(n/50) batches. */
  lemma {:induction false} BatchesLength<T>(items: seq<T>)
    ensures |Batches(items)| == BatchCount(|items|)
    decreases |items|
  {
    if |items| > BatchSize {
      BatchesLength(items[BatchSize..]);
    }
  }

  /**
   * The batches are ceil(n/50) in number, each non-empty and at most 50
   * long, and together they are the rows in order.
   */
  lemma {:induction false} BatchesShape<T>(items: seq<T>)
    ensures |Batches(items)| == BatchCount(|items|)
    ensures Flatten(Batches(items)) == items
    ensures forall i :: 0 <= i < |Batches(items)| ==> 0 < |Batches(items)[i]| <= BatchSize
    decreases |items|
  {
    BatchesLength(items);
    var r := Batches(items);
    if |items| > BatchSize {
      var rest := items[BatchSize..];
      BatchesShape(rest);
      assert r[0] == items[..BatchSize] && r[1..] == Batches(rest);
      assert items[..BatchSize] + rest == items;
      forall i | 0 <= i < |r| ensures 0 < |r[i]| <= BatchSize {
        if i > 0 {
          assert r[i] == Batches(rest)[i - 1];
        }
      }
    } else if |items| > 0 {
      assert r[1..] == [];
      assert Flatten(r) == items + Flatten([]);
    }
  }

  /** Batch `i` is the slice `items[50 i .. min(50 i + 50, n)]` the loop pushes. */
  lemma {:induction false} BatchAt<T>(items: seq<T>, i: nat)
    requires i < BatchCount(|items|)
    ensures i * BatchSize < |items| && i < |Batches(items)|
    ensures Batches(items)[i] == items[i * BatchSize .. Min(i * BatchSize + BatchSize, |items|)]
    decreases |items|
  {
    BatchesLength(items);
    if i > 0 {
      assert |items| > BatchSize;
      var rest := items[BatchSize..];
      BatchAt(rest, i - 1);
      assert Batches(items)[i] == Batches(rest)[i - 1];
      var a := (i - 1) * BatchSize;
      var b := Min(a + BatchSize, |rest|);
      assert i * BatchSize == BatchSize + a;
      assert Min(i * BatchSize + BatchSize, |items|) == BatchSize + b;
      SliceOfDrop(items, BatchSize, a, b);
    }
  }

  lemma SliceOfDrop<T>(s: seq<T>, d: nat, a: nat, b: nat)
    requires d <= |s| && a <= b <= |s| - d
    ensures s[d..][a..b] == s[d + a .. d + b]
  {
  }

  /** Appending batch `i` to the rows of the first `i` batches gives the rows of the first `i + 1`. */
  lemma BatchStep<T>(items: seq<T>, i: nat)
    requires i < BatchCount(|items|)
    ensures i * BatchSize < |items| && i < |Batches(items)|
    ensures Batches(items)[i] == items[i * BatchSize .. Min(i * BatchSize + BatchSize, |items|)]
    ensures items[..Min(i * BatchSize, |items|)] + Batches(items)[i] == items[..Min((i + 1) * BatchSize, |items|)]
  {
    BatchAt(items, i);
    var a := i * BatchSize;
    var b := Min(a + BatchSize, |items|);
    assert (i + 1) * BatchSize == a + BatchSize;
    SliceJoin(items, a, b);
  }

  lemma SliceJoin<T>(s: seq<T>, a: nat, b: nat)
    requires a <= b <= |s|
    ensures s[..a] + s[a..b] == s[..b]
  {
    var l := s[..a] + s[a..b];
    assert |l| == b;
    forall k | 0 <= k < b ensures l[k] == s[k] {
      if k < a { assert l[k] == s[..a][k]; } else { assert l[k] == s[a..b][k - a]; }
    }
  }

  /** The batches together reach the end of the rows. */
  lemma BatchesCover<T>(items: seq<T>)
    ensures items[..Min(BatchCount(|items|) * BatchSize, |items|)] == items
  {
    var n := |items|;
    var k := BatchCount(n);
    assert k * BatchSize >= n by {
      assert (n + BatchSize - 1) % BatchSize < BatchSize;
      assert k * BatchSize == n + BatchSize - 1 - (n + BatchSize - 1) % BatchSize;
    }
  }

  /** The pushes of `batches` into the replicated array of table `t`, in order. */
  function Pushes(t: TableKey, batches: seq<seq<Record>>): seq<Effect>
  {
    seq(|batches|, k requires 0 <= k < |batches| => Pushed(t, batches[k]))
  }

  lemma PushesSnoc(t: TableKey, batches: seq<seq<Record>>, i: nat)
    requires i < |batches|
    ensures Pushes(t, batches[..i + 1]) == Pushes(t, batches[..i]) + [Pushed(t, batches[i])]
  {
    assert batches[..i + 1][..i] == batches[..i];
  }

  /** A table pushes no batch exactly when it is empty. */
  lemma EmptyTablePushesNothing(t: TableKey, items: seq<Record>)
    ensures Pushes(t, Batches(items)) == [] <==> items == []
  {
    BatchesLength(items);
    if items != [] {
      assert |Batches(items)| == BatchCount(|items|) > 0;
      assert |Pushes(t, Batches(items))| > 0;
    }
  }

  /** The pushes of the bulk load of the first `n` tables of the load order, table after table. */
  function BulkPushes(loaded: map<TableKey, seq<Record>>, n: nat): seq<Effect>
    requires n <= |SyncedTables|
    requires forall t :: t in loaded
  {
    if n == 0 then []
    else BulkPushes(loaded, n - 1) + Pushes(SyncedTables[n - 1], Batches(loaded[SyncedTables[n - 1]]))
  }

  /** Loading a table the first `n` do not include leaves their pushes as they were. */
  lemma {:induction false} BulkPushesFrame(loaded: map<TableKey, seq<Record>>, n: nat, t: TableKey, items: seq<Record>)
    requires n <= Position(t)
    requires forall u :: u in loaded
    ensures BulkPushes(loaded[t := items], n) == BulkPushes(loaded, n)
  {
    if n > 0 {
      var u := SyncedTables[n - 1];
      PositionOf(n - 1);
      assert u != t;
      assert loaded[t := items][u] == loaded[u];
      BulkPushesFrame(loaded, n - 1, t, items);
    }
  }

  /** Loading table `i` of the load order appends its pushes to those of the tables before it. */
  lemma BulkPushesStep(loaded: map<TableKey, seq<Record>>, i: nat, items: seq<Record>)
    requires i < |SyncedTables|
    requires forall t :: t in loaded
    ensures BulkPushes(loaded[SyncedTables[i] := items], i + 1)
         == BulkPushes(loaded, i) + Pushes(SyncedTables[i], Batches(items))
  {
    PositionOf(i);
    BulkPushesFrame(loaded, i, SyncedTables[i], items);
  }

  lemma {:induction false} BulkPushesQuiet(loaded: map<TableKey, seq<Record>>, n: nat)
    requires n <= |SyncedTables|
    requires forall t :: t in loaded
    ensures Quiet(BulkPushes(loaded, n))
  {
    if n > 0 {
      BulkPushesQuiet(loaded, n - 1);
    }
  }

  /** The rows loaded for each of the first `n` tables of the load order list that table. */
  ghost predicate ListedUpTo(loaded: map<TableKey, seq<Record>>, tables: map<TableKey, map<string, Record>>, n: nat)
    requires n <= |SyncedTables|
    requires forall t :: t in loaded && t in tables
  {
    n == 0 || (ListedUpTo(loaded, tables, n - 1) && ListsRows(loaded[SyncedTables[n - 1]], tables[SyncedTables[n - 1]]))
  }

  /** Loading a table the first `n` do not include leaves their listings as they were. */
  lemma {:induction false} ListedUpToFrame(loaded: map<TableKey, seq<Record>>, tables: map<TableKey, map<string, Record>>,
                                           n: nat, t: TableKey, items: seq<Record>)
    requires n <= Position(t)
    requires forall u :: u in loaded && u in tables
    ensures ListedUpTo(loaded[t := items], tables, n) == ListedUpTo(loaded, tables, n)
  {
    if n > 0 {
      PositionOf(n - 1);
      assert loaded[t := items][SyncedTables[n - 1]] == loaded[SyncedTables[n - 1]];
      ListedUpToFrame(loaded, tables, n - 1, t, items);
    }
  }

  /** When all of the first `n` tables are listed, so is each of them. */
  lemma {:induction false} ListedUpToEach(loaded: map<TableKey, seq<Record>>, tables: map<TableKey, map<string, Record>>, n: nat, t: TableKey)
    requires n <= |SyncedTables|
    requires forall u :: u in loaded && u in tables
    requires ListedUpTo(loaded, tables, n) && Position(t) < n
    ensures ListsRows(loaded[t], tables[t])
  {
    if Position(t) < n - 1 {
      ListedUpToEach(loaded, tables, n - 1, t);
    }
  }

  /** The replicated arrays after the rows of the first `n` tables of the load order were appended. */
  function GrownUpTo(before: map<TableKey, seq<Record>>, loaded: map<TableKey, seq<Record>>, n: nat): map<TableKey, seq<Record>>
    requires n <= |SyncedTables|
    requires forall t :: t in before && t in loaded
  {
    if n == 0 then before
    else
      var t := SyncedTables[n - 1];
      GrownUpTo(before, loaded, n - 1)[t := before[t] + loaded[t]]
  }

  /** Tables not among the first `n` are untouched, and every table stays in the map. */
  lemma {:induction false} GrownUpToBefore(before: map<TableKey, seq<Record>>, loaded: map<TableKey, seq<Record>>, n: nat, t: TableKey)
    requires n <= Position(t)
    requires forall u :: u in before && u in loaded
    ensures forall u :: u in GrownUpTo(before, loaded, n)
    ensures GrownUpTo(before, loaded, n)[t] == before[t]
  {
    if n > 0 {
      PositionOf(n - 1);
      GrownUpToBefore(before, loaded, n - 1, t);
    }
  }

  /** Changing what a table the first `n` do not include loaded leaves their arrays as they were. */
  lemma {:induction false} GrownUpToFrame(before: map<TableKey, seq<Record>>, loaded: map<TableKey, seq<Record>>,
                                          n: nat, t: TableKey, items: seq<Record>)
    requires n <= Position(t)
    requires forall u :: u in before && u in loaded
    ensures GrownUpTo(before, loaded[t := items], n) == GrownUpTo(before, loaded, n)
  {
    if n > 0 {
      PositionOf(n - 1);
      assert loaded[t := items][SyncedTables[n - 1]] == loaded[SyncedTables[n - 1]];
      GrownUpToFrame(before, loaded, n - 1, t, items);
    }
  }

  /** After all five loads, every array is its old contents followed by the rows loaded for it. */
  lemma {:induction false} GrownUpToEach(before: map<TableKey, seq<Record>>, loaded: map<TableKey, seq<Record>>, n: nat, t: TableKey)
    requires n <= |SyncedTables|
    requires forall u :: u in before && u in loaded
    requires Position(t) < n
    ensures t in GrownUpTo(before, loaded, n) && GrownUpTo(before, loaded, n)[t] == before[t] + loaded[t]
  {
    if Position(t) < n - 1 {
      PositionOf(n - 1);
      GrownUpToEach(before, loaded, n - 1, t);
    }
  }

  /** A status report leaves the live providers alone. */
  lemma StatusKeepsLive(trace: seq<Effect>, p: Params, s: SyncStatus)
    ensures Live(trace + StatusOut(p, s)) == Live(trace)
  {
    LiveQuiet(trace, StatusOut(p, s));
  }

  /** The bulk load creates and destroys no provider. */
  lemma BulkLoadKeepsLive(trace: seq<Effect>, loaded: map<TableKey, seq<Record>>)
    requires forall t :: t in loaded
    ensures Live(trace + BulkPushes(loaded, |SyncedTables|)) == Live(trace)
  {
    BulkPushesQuiet(loaded, |SyncedTables|);
    LiveQuiet(trace, BulkPushes(loaded, |SyncedTables|));
  }

  // ---------------------------------------------------------------------
  // Remote change batches

  function Repeat(e: Effect, n: nat): seq<Effect> {
    seq(n, _ => e)
  }

  lemma RepeatSnoc(e: Effect, n: nat)
    ensures Repeat(e, n + 1) == Repeat(e, n) + [e]
  {
    assert Repeat(e, n + 1)[..n] == Repeat(e, n);
  }

  /** The table after one observer has handled a remote batch that added `added` items. */
  function Upserted(rows: map<string, Record>, contents: seq<Record>, added: nat): map<string, Record> {
    if added == 0 then rows else PutAll(rows, contents)
  }

  /**
   * Handling the same remote batch twice leaves the table as handling it once;
   * rows whose id is not in the array keep their value, and every element of
   * the array is stored under its id.
   */
  lemma UpsertedIdempotent(rows: map<string, Record>, contents: seq<Record>, added: nat)
    ensures Upserted(Upserted(rows, contents, added), contents, added) == Upserted(rows, contents, added)
    ensures added > 0 ==> forall k :: k in IdsOf(contents) ==> k in Upserted(rows, contents, added)
    ensures added > 0 ==> forall k :: k in rows && k !in IdsOf(contents) ==>
      k in Upserted(rows, contents, added) && Upserted(rows, contents, added)[k] == rows[k]
  {
    if added > 0 {
      PutAllIdempotent(rows, contents);
      forall k | k in rows || k in IdsOf(contents)
        ensures k in PutAll(rows, contents)
        ensures k in rows && k !in IdsOf(contents) ==> PutAll(rows, contents)[k] == rows[k]
      {
        PutAllAt(rows, contents, k);
      }
    }
  }

  /**
   * What one observer installation does for a remote batch: it calls one bulk
   * put of the whole array per added item, reports `syncing`, waits for the
   * puts to complete, reports `synced` and emits one table event.
   */
  function ObserverEffects(q: Params, t: TableKey, contents: seq<Record>, added: nat): seq<Effect> {
    Repeat(PutIssued(t, contents), added) + StatusOut(q, Syncing) + Repeat(TablePut(t, contents), added)
    + StatusOut(q, Synced) + EventOut(q, t)
  }

  /** The observer's trace, built up step by step, is its effects appended to the trace before it. */
  lemma ObserverTrace(pre: seq<Effect>, q: Params, t: TableKey, contents: seq<Record>, added: nat)
    ensures pre + Repeat(PutIssued(t, contents), added) + StatusOut(q, Syncing) + Repeat(TablePut(t, contents), added)
              + (StatusOut(q, Synced) + EventOut(q, t))
         == pre + ObserverEffects(q, t, contents, added)
  {
    var r1, s1, r2 := Repeat(PutIssued(t, contents), added), StatusOut(q, Syncing), Repeat(TablePut(t, contents), added);
    var s3, s4 := StatusOut(q, Synced), EventOut(q, t);
    AppendAssoc(pre + r1 + s1 + r2, s3, s4);
    AppendAssoc(pre, r1 + s1 + r2 + s3, s4);
    AppendAssoc(pre, r1 + s1 + r2, s3);
    AppendAssoc(pre, r1 + s1, r2);
    AppendAssoc(pre, r1, s1);
  }

  lemma QuietAppend(a: seq<Effect>, b: seq<Effect>)
    requires Quiet(a) && Quiet(b)
    ensures Quiet(a + b)
  {
    forall i | 0 <= i < |a + b| ensures !(a + b)[i].ProviderCreated? && !(a + b)[i].ProviderDestroyed? {
      if i >= |a| {
        assert (a + b)[i] == b[i - |a|];
      }
    }
  }

  lemma ObserverEffectsQuiet(q: Params, t: TableKey, contents: seq<Record>, added: nat)
    ensures Quiet(ObserverEffects(q, t, contents, added))
  {
    var r1, s1, r2 := Repeat(PutIssued(t, contents), added), StatusOut(q, Syncing), Repeat(TablePut(t, contents), added);
    var s3, s4 := StatusOut(q, Synced), EventOut(q, t);
    QuietAppend(r1, s1);
    QuietAppend(r1 + s1, r2);
    QuietAppend(r1 + s1 + r2, s3);
    QuietAppend(r1 + s1 + r2 + s3, s4);
  }

  /** Handling a remote batch creates and destroys no provider. */
  lemma ObserverKeepsLive(trace: seq<Effect>, q: Params, t: TableKey, contents: seq<Record>, added: nat)
    ensures Live(trace + ObserverEffects(q, t, contents, added)) == Live(trace)
  {
    ObserverEffectsQuiet(q, t, contents, added);
    LiveQuiet(trace, ObserverEffects(q, t, contents, added));
  }

  function CountEvents(es: seq<Effect>, t: TableKey): nat {
    if es == [] then 0 else (if es[0] == TableEvent(t) then 1 else 0) + CountEvents(es[1..], t)
  }

  lemma {:induction false} CountEventsAppend(a: seq<Effect>, b: seq<Effect>, t: TableKey)
    ensures CountEvents(a + b, t) == CountEvents(a, t) + CountEvents(b, t)
    decreases |a|
  {
    if a != [] {
      assert (a + b)[0] == a[0];
      assert (a + b)[1..] == a[1..] + b;
      CountEventsAppend(a[1..], b, t);
    } else {
      assert a + b == b;
    }
  }

  lemma {:induction false} RepeatHasNoEvents(e: Effect, n: nat, t: TableKey)
    requires !e.TableEvent?
    ensures CountEvents(Repeat(e, n), t) == 0
  {
    if n > 0 {
      RepeatHasNoEvents(e, n - 1, t);
      RepeatSnoc(e, n - 1);
      CountEventsAppend(Repeat(e, n - 1), [e], t);
    }
  }

  /**
   * One observer installation yields one table event for its table, however
   * many items the batch added, and none for any other table.
   */
  lemma RemoteBatchEmitsOneEvent(q: Params, t: TableKey, contents: seq<Record>, added: nat, u: TableKey)
    ensures CountEvents(ObserverEffects(q, t, contents, added), u)
         == if q.hasEventCallback && u == t then 1 else 0
  {
    var r1, s1, r2 := Repeat(PutIssued(t, contents), added), StatusOut(q, Syncing), Repeat(TablePut(t, contents), added);
    var s3, s4 := StatusOut(q, Synced), EventOut(q, t);
    RepeatHasNoEvents(PutIssued(t, contents), added, u);
    RepeatHasNoEvents(TablePut(t, contents), added, u);
    CountEventsAppend(r1, s1, u);
    CountEventsAppend(r1 + s1, r2, u);
    CountEventsAppend(r1 + s1 + r2, s3, u);
    CountEventsAppend(r1 + s1 + r2 + s3, s4, u);
    CountEventsSingle(StatusChanged(Syncing), u);
    CountEventsSingle(StatusChanged(Synced), u);
    CountEventsSingle(TableEvent(t), u);
  }

  lemma CountEventsSingle(e: Effect, u: TableKey)
    ensures CountEvents([e], u) == if e == TableEvent(u) then 1 else 0
  {
    assert [e][1..] == [];
  }

  /**
   * With a status callback, every bulk put is called before `syncing`, and
   * every put completes between `syncing` and `synced`.
   */
  lemma StatusBracketsWrites(q: Params, t: TableKey, contents: seq<Record>, added: nat)
    requires q.hasStatusCallback
    ensures var es := ObserverEffects(q, t, contents, added);
      && |es| == 2 * added + 2 + |EventOut(q, t)|
      && (forall i :: 0 <= i < added ==> es[i] == PutIssued(t, contents))
      && es[added] == StatusChanged(Syncing)
      && (forall i :: added < i <= 2 * added ==> es[i] == TablePut(t, contents))
      && es[2 * added + 1] == StatusChanged(Synced)
      && (forall i :: 0 <= i < |es| && es[i].PutIssued? ==> i < added)
      && (forall i :: 0 <= i < |es| && es[i].TablePut? ==> added < i < 2 * added + 1)
  {
    var es := ObserverEffects(q, t, contents, added);
    var r1, r2 := Repeat(PutIssued(t, contents), added), Repeat(TablePut(t, contents), added);
    forall i | 0 <= i < added ensures es[i] == PutIssued(t, contents) {
      assert es[i] == r1[i];
    }
    forall i | added < i <= 2 * added ensures es[i] == TablePut(t, contents) {
      assert es[i] == r2[i - added - 1];
    }
  }

  /**
   * What every installation of the observers does for one remote batch, in
   * the order they were installed.
   */
  function DeliveryEffects(obs: seq<Params>, t: TableKey, contents: seq<Record>, added: nat): seq<Effect>
    decreases |obs|
  {
    if obs == [] then []
    else DeliveryEffects(obs[..|obs| - 1], t, contents, added) + ObserverEffects(obs[|obs| - 1], t, contents, added)
  }

  lemma DeliveryEffectsSnoc(obs: seq<Params>, i: nat, t: TableKey, contents: seq<Record>, added: nat)
    requires i < |obs|
    ensures DeliveryEffects(obs[..i + 1], t, contents, added)
         == DeliveryEffects(obs[..i], t, contents, added) + ObserverEffects(obs[i], t, contents, added)
  {
    assert obs[..i + 1][..i] == obs[..i];
  }

  /** The number of installations that captured a table-event callback. */
  function EventInstallations(obs: seq<Params>): nat
    decreases |obs|
  {
    if obs == [] then 0
    else EventInstallations(obs[..|obs| - 1]) + (if obs[|obs| - 1].hasEventCallback then 1 else 0)
  }

  /**
   * A remote batch on table `t` yields one table event per installation that
   * has an event callback, and none for any other table.
   */
  lemma {:induction false} BatchEventsPerInstallation(obs: seq<Params>, t: TableKey, contents: seq<Record>, added: nat, u: TableKey)
    ensures CountEvents(DeliveryEffects(obs, t, contents, added), u) == if u == t then EventInstallations(obs) else 0
    decreases |obs|
  {
    if obs != [] {
      var init := obs[..|obs| - 1];
      BatchEventsPerInstallation(init, t, contents, added, u);
      RemoteBatchEmitsOneEvent(obs[|obs| - 1], t, contents, added, u);
      CountEventsAppend(DeliveryEffects(init, t, contents, added), ObserverEffects(obs[|obs| - 1], t, contents, added), u);
    }
  }

  // ---------------------------------------------------------------------
  // Awareness

  /** Maps every awareness state to a presence record, flagging the local client as current. */
  function PresenceList(states: seq<AwarenessState>, localID: int): seq<Presence> {
    if states == [] then []
    else [Presence(states[0].user, states[0].clientID, states[0].clientID == localID)]
         + PresenceList(states[1..], localID)
  }

  /** One presence record per awareness state, carrying its user and clientID, current iff it is the local client. */
  lemma {:induction false} PresenceListAt(states: seq<AwarenessState>, localID: int, i: nat)
    requires i < |states|
    ensures |PresenceList(states, localID)| == |states|
    ensures var r := PresenceList(states, localID)[i];
      r.user == states[i].user && r.clientID == states[i].clientID && (r.current <==> states[i].clientID == localID)
    decreases |states|
  {
    if i > 0 {
      PresenceListAt(states[1..], localID, i - 1);
    } else if |states| > 1 {
      PresenceListAt(states[1..], localID, 0);
    }
  }

  function CountCurrent(records: seq<Presence>): nat {
    if records == [] then 0 else (if records[0].current then 1 else 0) + CountCurrent(records[1..])
  }

  function CountClient(states: seq<AwarenessState>, id: int): nat {
    if states == [] then 0 else (if states[0].clientID == id then 1 else 0) + CountClient(states[1..], id)
  }

  ghost predicate DistinctClients(states: seq<AwarenessState>) {
    forall i, j :: 0 <= i < j < |states| ==> states[i].clientID != states[j].clientID
  }

  /** As many records are current as there are states of the local client. */
  lemma {:induction false} CurrentCountsLocalStates(states: seq<AwarenessState>, localID: int)
    ensures CountCurrent(PresenceList(states, localID)) == CountClient(states, localID)
    decreases |states|
  {
    if states != [] {
      CurrentCountsLocalStates(states[1..], localID);
    }
  }

  lemma {:induction false} DistinctCountAtMostOne(states: seq<AwarenessState>, id: int)
    requires DistinctClients(states)
    ensures CountClient(states, id) == if exists i :: 0 <= i < |states| && states[i].clientID == id then 1 else 0
    decreases |states|
  {
    if states != [] {
      var rest := states[1..];
      assert DistinctClients(rest) by {
        forall i, j | 0 <= i < j < |rest| ensures rest[i].clientID != rest[j].clientID {
          assert rest[i] == states[i + 1] && rest[j] == states[j + 1];
        }
      }
      DistinctCountAtMostOne(rest, id);
      if states[0].clientID == id {
        forall i | 0 <= i < |rest| ensures rest[i].clientID != id {
          assert rest[i] == states[i + 1];
        }
      } else {
        if exists i :: 0 <= i < |states| && states[i].clientID == id {
          var i :| 0 <= i < |states| && states[i].clientID == id;
          assert rest[i - 1] == states[i];
        }
        if exists i :: 0 <= i < |rest| && rest[i].clientID == id {
          var i :| 0 <= i < |rest| && rest[i].clientID == id;
          assert states[i + 1] == rest[i];
        }
      }
    }
  }

  /**
   * When every peer has its own clientID and the local client is among the
   * states, exactly one presence record is current.
   */
  lemma ExactlyOneCurrent(states: seq<AwarenessState>, localID: int)
    requires DistinctClients(states)
    requires exists i :: 0 <= i < |states| && states[i].clientID == localID
    ensures CountCurrent(PresenceList(states, localID)) == 1
  {
    CurrentCountsLocalStates(states, localID);
    DistinctCountAtMostOne(states, localID);
  }

  // ---------------------------------------------------------------------
  // The bus

  class SyncBus {
    /** The local tables the bus reads and writes. */
    const db: LocalDB
    /** The awareness client id of this device (the replicated document's). */
    const clientID: int
    /** The module-level provider slot. */
    var provider: Option<Provider>
    /** The parameters the current provider's handlers were built with. */
    var params: Option<Params>
    var nextSerial: nat
    /** One entry per installation of the table observers, holding the callbacks it captured. */
    var observers: seq<Params>
    /** The replicated array of each table. */
    var arrays: map<TableKey, seq<Record>>
    /** Everything the bus has done to its collaborators, in order. */
    var trace: seq<Effect>

    ghost predicate Valid()
      reads this, db
    {
      && db.Valid()
      && (forall t :: t in arrays)
      && (provider.Some? <==> params.Some?)
      && (provider.Some? ==> provider.value.serial < nextSerial)
    }

    /** At most one provider is live: the one in the slot. */
    ghost predicate SingleProvider()
      reads this
    {
      Live(trace) == SerialsOf(provider)
    }

    constructor (db: LocalDB, clientID: int)
      requires db.Valid()
      ensures Valid() && SingleProvider()
      ensures this.db == db && this.clientID == clientID
      ensures provider == None && observers == [] && trace == []
      ensures forall t :: arrays[t] == []
    {
      this.db := db;
      this.clientID := clientID;
      provider := None;
      params := None;
      nextSerial := 0;
      observers := [];
      arrays := map t | t in SyncedTables :: [];
      trace := [];
      SyncedTablesExactlyOnce();
    }

    /**
     * Builds a new provider for `p`, publishes the local awareness state and
     * reports the local client alone as present. It destroys nothing.
     */
    method Connect(p: Params) returns (created: Provider)
      requires Valid()
      modifies this`provider, this`params, this`nextSerial, this`trace
      ensures Valid()
      ensures created == ProviderFor(old(nextSerial), p) && nextSerial == old(nextSerial) + 1
      ensures provider == Some(created) && params == Some(p)
      ensures trace == old(trace) + ConnectEffects(created, clientID, p)
      ensures Live(trace) == old(Live(trace)) + {created.serial}
    {
      created := ProviderFor(nextSerial, p);
      nextSerial := nextSerial + 1;
      provider := Some(created);
      params := Some(p);
      var rest := [PresencePublished(clientID, p.user)] + AwarenessOut(p, [Presence(p.user, clientID, true)]);
      LiveSnoc(trace, ProviderCreated(created));
      LiveQuiet(trace + [ProviderCreated(created)], rest);
      assert trace + [ProviderCreated(created)] + rest == trace + ConnectEffects(created, clientID, p);
      trace := trace + ConnectEffects(created, clientID, p);
    }

    /** Destroys the provider in the slot, if any, then connects anew with `p`. */
    method StartDataSync(p: Params) returns (created: Provider)
      requires Valid()
      modifies this`provider, this`params, this`nextSerial, this`trace
      ensures Valid()
      ensures created == ProviderFor(old(nextSerial), p) && nextSerial == old(nextSerial) + 1
      ensures provider == Some(created) && params == Some(p)
      ensures trace == old(trace) + DestroyEffects(old(provider)) + ConnectEffects(created, clientID, p)
      ensures Live(trace) == old(Live(trace)) - SerialsOf(old(provider)) + {created.serial}
      ensures old(SingleProvider()) ==> SingleProvider()
    {
      created := Replace(p);
    }

    /** Reconnects with the same parameters: destroy the provider in the slot, connect again. */
    method Reconnect(p: Params) returns (created: Provider)
      requires Valid()
      modifies this`provider, this`params, this`nextSerial, this`trace
      ensures Valid()
      ensures created == ProviderFor(old(nextSerial), p) && nextSerial == old(nextSerial) + 1
      ensures provider == Some(created) && params == Some(p)
      ensures trace == old(trace) + DestroyEffects(old(provider)) + ConnectEffects(created, clientID, p)
      ensures Live(trace) == old(Live(trace)) - SerialsOf(old(provider)) + {created.serial}
      ensures old(SingleProvider()) ==> SingleProvider()
    {
      created := Replace(p);
    }

    /** The shared body of start and reconnect. */
    method Replace(p: Params) returns (created: Provider)
      requires Valid()
      modifies this`provider, this`params, this`nextSerial, this`trace
      ensures Valid()
      ensures created == ProviderFor(old(nextSerial), p) && nextSerial == old(nextSerial) + 1
      ensures provider == Some(created) && params == Some(p)
      ensures trace == old(trace) + DestroyEffects(old(provider)) + ConnectEffects(created, clientID, p)
      ensures Live(trace) == old(Live(trace)) - SerialsOf(old(provider)) + {created.serial}
      ensures old(SingleProvider()) ==> SingleProvider() && created.serial !in old(Live(trace))
    {
      if provider.Some? {
        LiveSnoc(trace, ProviderDestroyed(provider.value.serial));
        trace := trace + [ProviderDestroyed(provider.value.serial)];
      }
      created := Connect(p);
    }

    /** The transport's `status` notification: on connect, install the observers and report `ready`. */
    method OnStatus(connected: bool)
      requires Valid() && params.Some?
      modifies this`observers, this`trace
      ensures Valid()
      ensures observers == if connected then old(observers) + [params.value] else old(observers)
      ensures trace == old(trace) + (if connected then StatusOut(params.value, Ready) else [])
      ensures Live(trace) == old(Live(trace))
    {
      if connected {
        InitObserve(params.value);
        LiveQuiet(trace, StatusOut(params.value, Ready));
        trace := trace + StatusOut(params.value, Ready);
      }
    }

    /** Subscribes one observer, capturing `p`'s callbacks, on the array of every table. */
    method InitObserve(p: Params)
      modifies this`observers
      ensures observers == old(observers) + [p]
    {
      observers := observers + [p];
    }

    /**
     * The transport's `synced` notification. When synced: `syncing`, the bulk
     * load of all five tables, `synced`. Otherwise: no status; disconnect,
     * destroy and reconnect with the same parameters. Returns the rows read
     * per table (empty when not synced).
     */
    method OnSynced(synced: bool) returns (loaded: map<TableKey, seq<Record>>)
      requires Valid() && provider.Some?
      modifies this`provider, this`params, this`nextSerial, this`trace, this`arrays
      ensures Valid()
      ensures synced ==>
        && provider == old(provider) && params == old(params) && nextSerial == old(nextSerial)
        && (forall t :: t in loaded && ListsRows(loaded[t], db.tables[t]) && arrays[t] == old(arrays[t]) + loaded[t])
        && trace == old(trace) + StatusOut(params.value, Syncing) + BulkPushes(loaded, |SyncedTables|)
                                + StatusOut(params.value, Synced)
        && Live(trace) == old(Live(trace))
      ensures !synced ==>
        && loaded == map[] && arrays == old(arrays) && params == old(params)
        && provider == Some(ProviderFor(old(nextSerial), params.value)) && nextSerial == old(nextSerial) + 1
        && trace == old(trace) + [ProviderDisconnected(old(provider).value.serial)]
                                + DestroyEffects(old(provider)) + ConnectEffects(provider.value, clientID, params.value)
      ensures old(SingleProvider()) ==> SingleProvider()
    {
      if synced {
        loaded := LoadSynced(params.value);
      } else {
        loaded := map[];
        LiveSnoc(trace, ProviderDisconnected(provider.value.serial));
        trace := trace + [ProviderDisconnected(provider.value.serial)];
        var _ := Reconnect(params.value);
      }
    }

    /** The synced branch: report syncing, bulk-load every table, report synced. */
    method LoadSynced(p: Params) returns (loaded: map<TableKey, seq<Record>>)
      requires Valid()
      modifies this`trace, this`arrays
      ensures Valid()
      ensures forall t :: t in loaded && ListsRows(loaded[t], db.tables[t]) && arrays[t] == old(arrays[t]) + loaded[t]
      ensures trace == old(trace) + StatusOut(p, Syncing) + BulkPushes(loaded, |SyncedTables|) + StatusOut(p, Synced)
      ensures Live(trace) == old(Live(trace))
    {
      StatusKeepsLive(trace, p, Syncing);
      trace := trace + StatusOut(p, Syncing);
      ghost var mid := trace;
      loaded := InitSync();
      BulkLoadKeepsLive(mid, loaded);
      StatusKeepsLive(trace, p, Synced);
      trace := trace + StatusOut(p, Synced);
    }

    /** Bulk-loads the five tables, one after another. */
    method InitSync() returns (loaded: map<TableKey, seq<Record>>)
      requires Valid()
      modifies this`trace, this`arrays
      ensures Valid()
      ensures forall t :: t in loaded && ListsRows(loaded[t], db.tables[t]) && arrays[t] == old(arrays[t]) + loaded[t]
      ensures trace == old(trace) + BulkPushes(loaded, |SyncedTables|)
    {
      loaded := map t | t in SyncedTables :: [];
      forall t ensures t in loaded {
        assert SyncedTables[Position(t)] == t;
      }
      for i := 0 to |SyncedTables|
        invariant Valid()
        invariant forall t :: t in loaded
        invariant ListedUpTo(loaded, db.tables, i)
        invariant arrays == GrownUpTo(old(arrays), loaded, i)
        invariant trace == old(trace) + BulkPushes(loaded, i)
      {
        var t := SyncedTables[i];
        PositionOf(i);
        ghost var done := BulkPushes(loaded, i);
        GrownUpToBefore(old(arrays), loaded, i, t);
        var items := LoadDataFromDBtoYjs(t);
        BulkPushesStep(loaded, i, items);
        ListedUpToFrame(loaded, db.tables, i, t, items);
        GrownUpToFrame(old(arrays), loaded, i, t, items);
        AppendAssoc(old(trace), done, Pushes(t, Batches(items)));
        loaded := loaded[t := items];
      }
      forall t ensures ListsRows(loaded[t], db.tables[t]) && arrays[t] == old(arrays)[t] + loaded[t] {
        ListedUpToEach(loaded, db.tables, |SyncedTables|, t);
        GrownUpToEach(old(arrays), loaded, |SyncedTables|, t);
      }
    }

    /**
     * Pushes every row of table `t` into its replicated array, in batches of
     * at most 50. Returns the rows read.
     */
    method LoadDataFromDBtoYjs(t: TableKey) returns (items: seq<Record>)
      requires Valid()
      modifies this`trace, this`arrays
      ensures Valid()
      ensures ListsRows(items, db.tables[t])
      ensures arrays == old(arrays)[t := old(arrays)[t] + items]
      ensures trace == old(trace) + Pushes(t, Batches(items))
    {
      items := db.ToArray(t);
      PushBatches(t, items);
    }

    /** Pushes `items` into the replicated array of table `t`, in consecutive batches of at most 50. */
    method PushBatches(t: TableKey, items: seq<Record>)
      requires Valid()
      modifies this`trace, this`arrays
      ensures Valid()
      ensures arrays == old(arrays)[t := old(arrays)[t] + items]
      ensures trace == old(trace) + Pushes(t, Batches(items))
    {
      var totalBatches := BatchCount(|items|);
      ghost var batches := Batches(items);
      BatchesLength(items);
      assert old(arrays)[t] + items[..Min(0, |items|)] == old(arrays)[t];
      assert arrays == old(arrays)[t := old(arrays)[t]];
      for i := 0 to totalBatches
        invariant arrays == old(arrays)[t := old(arrays)[t] + items[..Min(i * BatchSize, |items|)]]
        invariant trace == old(trace) + Pushes(t, batches[..i])
      {
        BatchStep(items, i);
        PushesSnoc(t, batches, i);
        var start := i * BatchSize;
        var end := start + BatchSize;
        var batchItems := items[start..Min(end, |items|)];
        assert arrays[t] + batchItems == old(arrays)[t] + items[..Min(end, |items|)];
        UpdateTwice(old(arrays), t, arrays[t], arrays[t] + batchItems);
        arrays := arrays[t := arrays[t] + batchItems];
        assert batchItems == batches[i];
        AppendAssoc(old(trace), Pushes(t, batches[..i]), [Pushed(t, batches[i])]);
        trace := trace + [Pushed(t, batchItems)];
      }
      BatchesCover(items);
      assert batches[..totalBatches] == batches;
    }

    /**
     * A change batch on table `t`'s array. A remote batch first leaves the
     * array as the peer's transaction made it; then every installation of the
     * observers handles the batch, in the order they were installed (each
     * ignores a local batch). The table is upserted once however many
     * installations there are, since the upsert is idempotent.
     */
    method DeliverArrayBatch(t: TableKey, batch: ArrayBatch)
      requires Valid()
      modifies this`trace, this`arrays, db
      ensures Valid()
      ensures batch.local ==> arrays == old(arrays) && db.tables == old(db.tables) && trace == old(trace)
      ensures !batch.local ==>
        && arrays == old(arrays)[t := batch.after]
        && db.tables == old(db.tables)[t := if observers == [] then old(db.tables)[t]
                                            else Upserted(old(db.tables)[t], batch.after, batch.added)]
        && trace == old(trace) + DeliveryEffects(observers, t, batch.after, batch.added)
      ensures Live(trace) == old(Live(trace))
    {
      if batch.local {
        return;
      }
      arrays := arrays[t := batch.after];
      DeliverToAll(t, batch);
    }

    /** Every installation of the observers handles a remote batch, in the order they were installed. */
    method DeliverToAll(t: TableKey, batch: ArrayBatch)
      requires Valid() && !batch.local && arrays[t] == batch.after
      modifies this`trace, db
      ensures Valid()
      ensures db.tables == old(db.tables)[t := if observers == [] then old(db.tables)[t]
                                               else Upserted(old(db.tables)[t], batch.after, batch.added)]
      ensures trace == old(trace) + DeliveryEffects(observers, t, batch.after, batch.added)
      ensures Live(trace) == old(Live(trace))
    {
      ghost var rows := db.tables[t];
      ghost var up := Upserted(rows, batch.after, batch.added);
      assert observers[..0] == [];
      for i := 0 to |observers|
        invariant Valid()
        invariant i == 0 ==> db.tables == old(db.tables)
        invariant i > 0 ==> db.tables == old(db.tables)[t := up]
        invariant trace == old(trace) + DeliveryEffects(observers[..i], t, batch.after, batch.added)
        invariant Live(trace) == old(Live(trace))
      {
        DeliveryEffectsSnoc(observers, i, t, batch.after, batch.added);
        DeliverTo(t, batch, i, rows);
        if i > 0 {
          UpdateTwice(old(db.tables), t, up, up);
        }
        AppendAssoc(old(trace), DeliveryEffects(observers[..i], t, batch.after, batch.added),
                    ObserverEffects(observers[i], t, batch.after, batch.added));
      }
      if observers == [] {
        UpdateSame(old(db.tables), t, rows);
      }
      assert observers[..|observers|] == observers;
    }

    /** Installation `i` handles a remote batch: the step of `DeliverArrayBatch`. */
    method DeliverTo(t: TableKey, batch: ArrayBatch, i: nat, ghost rows: map<string, Record>)
      requires Valid() && !batch.local && i < |observers| && arrays[t] == batch.after
      requires db.tables[t] == rows || db.tables[t] == Upserted(rows, batch.after, batch.added)
      modifies this`trace, db
      ensures Valid()
      ensures db.tables == old(db.tables)[t := Upserted(rows, batch.after, batch.added)]
      ensures trace == old(trace) + ObserverEffects(observers[i], t, batch.after, batch.added)
      ensures Live(trace) == old(Live(trace))
    {
      UpsertedIdempotent(rows, batch.after, batch.added);
      ObserveArrayChange(t, i, batch);
      ObserverKeepsLive(old(trace), observers[i], t, batch.after, batch.added);
    }

    /**
     * Observer `which`, on table `t`, handling a change batch. A local batch
     * is ignored. For a remote one it calls one bulk put of the array's whole
     * contents per added item, reports `syncing`, lets the puts complete,
     * reports `synced` and emits one table event.
     */
    method ObserveArrayChange(t: TableKey, which: nat, batch: ArrayBatch)
      requires Valid() && which < |observers|
      modifies this`trace, db
      ensures Valid()
      ensures batch.local ==> db.tables == old(db.tables) && trace == old(trace)
      ensures !batch.local ==>
        && db.tables == old(db.tables)[t := Upserted(old(db.tables)[t], arrays[t], batch.added)]
        && trace == old(trace) + ObserverEffects(observers[which], t, arrays[t], batch.added)
    {
      if batch.local {
        return;
      }
      var q := observers[which];
      var contents := arrays[t];
      IssuePuts(t, contents, batch.added);
      trace := trace + StatusOut(q, Syncing);
      CompletePuts(t, contents, batch.added);
      ObserverTrace(old(trace), q, t, contents, batch.added);
      trace := trace + (StatusOut(q, Synced) + EventOut(q, t));
    }

    /**
     * The `n` bulk puts of `contents` into table `t` complete, one after
     * another; the table becomes the upsert of the array.
     */
    method CompletePuts(t: TableKey, contents: seq<Record>, n: nat)
      requires Valid()
      modifies this`trace, db
      ensures Valid()
      ensures db.tables == old(db.tables)[t := Upserted(old(db.tables)[t], contents, n)]
      ensures trace == old(trace) + Repeat(TablePut(t, contents), n)
    {
      ghost var rows := db.tables[t];
      assert old(trace) + Repeat(TablePut(t, contents), 0) == old(trace);
      var i := 0;
      while i < n
        invariant 0 <= i <= n
        invariant db.Valid()
        invariant i == 0 ==> db.tables == old(db.tables)
        invariant i > 0 ==> db.tables == old(db.tables)[t := PutAll(rows, contents)]
        invariant trace == old(trace) + Repeat(TablePut(t, contents), i)
      {
        if i > 0 {
          PutAllIdempotent(rows, contents);
          UpdateTwice(old(db.tables), t, PutAll(rows, contents), PutAll(rows, contents));
        }
        db.BulkPut(t, contents);
        RepeatSnoc(TablePut(t, contents), i);
        AppendAssoc(old(trace), Repeat(TablePut(t, contents), i), [TablePut(t, contents)]);
        trace := trace + [TablePut(t, contents)];
        i := i + 1;
      }
      if n == 0 {
        UpdateSame(old(db.tables), t, rows);
      }
    }

    /** Calls `n` bulk puts of `contents` into table `t`, one per added item, without waiting for them. */
    method IssuePuts(t: TableKey, contents: seq<Record>, n: nat)
      requires Valid()
      modifies this`trace
      ensures Valid()
      ensures trace == old(trace) + Repeat(PutIssued(t, contents), n)
    {
      assert old(trace) + Repeat(PutIssued(t, contents), 0) == old(trace);
      for i := 0 to n
        invariant trace == old(trace) + Repeat(PutIssued(t, contents), i)
      {
        RepeatSnoc(PutIssued(t, contents), i);
        AppendAssoc(old(trace), Repeat(PutIssued(t, contents), i), [PutIssued(t, contents)]);
        trace := trace + [PutIssued(t, contents)];
      }
    }

    /** The awareness `change` notification: report every state as a presence record. */
    method OnAwarenessChange(states: seq<AwarenessState>)
      requires Valid() && params.Some?
      modifies this`trace
      ensures trace == old(trace) + AwarenessOut(params.value, PresenceList(states, clientID))
      ensures Live(trace) == old(Live(trace))
    {
      LiveQuiet(trace, AwarenessOut(params.value, PresenceList(states, clientID)));
      trace := trace + AwarenessOut(params.value, PresenceList(states, clientID));
    }
  }
}
