/**
 * Values shared by both versions of the sync bus: the synchronized tables,
 * table rows, sync statuses and the identity a device broadcasts.
 */
module SyncTypes {

  datatype Option<T> = None | Some(value: T)

  /** The five tables kept in sync. */
  datatype TableKey = Sessions | SessionGroups | Topics | Messages | Plugins

  /** The tables the bulk load walks, in the order the source lists them. */
  const SyncedTables: seq<TableKey> := [Sessions, SessionGroups, Topics, Messages, Plugins]

  /** The place of table `t` in the bulk-load order. */
  function Position(t: TableKey): (k: nat)
    ensures k < |SyncedTables| && SyncedTables[k] == t
  {
    match t
    case Sessions => 0
    case SessionGroups => 1
    case Topics => 2
    case Messages => 3
    case Plugins => 4
  }

  /** Each place of the bulk-load order holds the table whose position it is. */
  lemma PositionOf(k: nat)
    requires k < |SyncedTables|
    ensures Position(SyncedTables[k]) == k
  {
    if k == 0 {
    } else if k == 1 {
    } else if k == 2 {
    } else if k == 3 {
    } else {
    }
  }

  /** A scalar stored in a field of a row. */
  datatype Val = Null | Bool(b: bool) | Num(n: int) | Str(s: string)

  /** JavaScript truthiness of a present field value. */
  predicate Truthy(v: Val) {
    match v
    case Null => false
    case Bool(b) => b
    case Num(n) => n != 0
    case Str(s) => s != ""
  }

  /** A row of a synchronized table: its primary key and its other fields. */
  datatype Record = Record(id: string, fields: map<string, Val>)

  /** The statuses surfaced through the status callback. */
  datatype SyncStatus = Ready | Syncing | Synced

  /** The identity of a device, broadcast as its presence payload. */
  datatype SyncUser = SyncUser(
    id: string,
    name: Option<string>,
    device: Option<string>,
    os: Option<string>,
    browser: Option<string>,
    isMobile: bool)

  /** Regrouping a concatenation, for traces extended step by step. */
  lemma AppendAssoc<T>(a: seq<T>, b: seq<T>, c: seq<T>)
    ensures (a + b) + c == a + (b + c)
  {
  }

  /** Updating a key to the value it already has changes nothing. */
  lemma UpdateSame<K, V>(m: map<K, V>, k: K, v: V)
    requires k in m && m[k] == v
    ensures m[k := v] == m
  {
  }

  /** A second update of the same key overrides the first. */
  lemma UpdateTwice<K, V>(m: map<K, V>, k: K, v: V, w: V)
    ensures m[k := v][k := w] == m[k := w]
  {
  }

  /** Every table is listed once in the bulk-load order. */
  lemma SyncedTablesExactlyOnce()
    ensures |SyncedTables| == 5
    ensures forall t :: t in SyncedTables
    ensures forall i, j :: 0 <= i < j < |SyncedTables| ==> SyncedTables[i] != SyncedTables[j]
  {
    forall t ensures t in SyncedTables {
      match t
      case Sessions => assert SyncedTables[0] == t;
      case SessionGroups => assert SyncedTables[1] == t;
      case Topics => assert SyncedTables[2] == t;
      case Messages => assert SyncedTables[3] == t;
      case Plugins => assert SyncedTables[4] == t;
    }
    forall i, j | 0 <= i < j < |SyncedTables|
      ensures SyncedTables[i] != SyncedTables[j]
    {
      if i == 0 {
      } else if i == 1 {
      } else if i == 2 {
      } else {
        assert i == 3 && j == 4;
      }
    }
  }
}
