/** The storage ops of a Durable Object, the bytes they hold, and the store they act on. */
module Storage {

  import opened Options

  type Byte = b: int | 0 <= b < 256

  /** Keys and values as the bytes the host holds. */
  type Key = seq<Byte>
  type Blob = seq<Byte>

  datatype StorageOp =
    | Get(keys: seq<Key>)
    | List(start: Option<Key>, startAfter: Option<Key>, end: Option<Key>, prefix: Option<Key>,
           reverse: bool, limit: Option<nat>)
    | Write(puts: seq<(Key, Blob)>, deletes: seq<Key>, deleteAll: bool)
    | GetAlarm
    | SetAlarm(at: Option<int>)

  datatype StorageResult =
    | Values(values: seq<Option<Blob>>)
    | Entries(entries: seq<(Key, Blob)>)
    | Written(deleted: nat)
    | Alarm(at: Option<int>)
    | Error(message: string)

  /** The ops that change the store: the object stops when the host fails one of them. */
  predicate Writes(op: StorageOp) {
    op.Write? || op.SetAlarm?
  }

  function KeyBytes(keys: seq<Key>): nat {
    if keys == [] then 0 else |keys[0]| + KeyBytes(keys[1..])
  }

  function PutBytes(puts: seq<(Key, Blob)>): nat {
    if puts == [] then 0 else |puts[0].0| + |puts[0].1| + PutBytes(puts[1..])
  }

  /** The bytes that an unended op adds to the backlog. */
  function OpBytes(op: StorageOp): nat {
    match op
    case Get(keys) => KeyBytes(keys)
    case Write(puts, deletes, _) => PutBytes(puts) + KeyBytes(deletes)
    case List(_, _, _, _, _, _) => 0
    case GetAlarm => 0
    case SetAlarm(_) => 0
  }

  datatype Store = Store(entries: map<Key, Blob>, alarm: Option<int>)

  function PutAll<K, V>(entries: map<K, V>, puts: seq<(K, V)>): map<K, V> {
    if puts == [] then entries
    else PutAll(entries, puts[..|puts| - 1])[puts[|puts| - 1].0 := puts[|puts| - 1].1]
  }

  /** What an op leaves of the store when the host performs it. */
  function Apply(store: Store, op: StorageOp): Store {
    match op
    case Write(puts, deletes, deleteAll) =>
      var kept := if deleteAll then map[] else store.entries - (set key | key in deletes);
      store.(entries := PutAll(kept, puts))
    case SetAlarm(at) => store.(alarm := at)
    case _ => store
  }
}
