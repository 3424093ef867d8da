/**
 `storage.transaction` of a Durable Object: its puts and deletes are kept in an overlay and
 go out in one write when the closure ends. The reference is the same calls made directly
 on a store, one after the other. The store may change between the calls of a transaction,
 by the writes of other events: `stores[i]` is what it is at the i-th call.
 */
module Transaction {
  import opened Storage

  /** A JavaScript value: undefined can be stored, a value that does not clone cannot. */
  datatype Value = Undefined | Data(blob: Blob) | Uncloneable

  type Stored = v: Value | !v.Uncloneable? witness Undefined

  type Entries = map<Key, Stored>

  datatype TxnOp =
    | GetOne(key: Key)
    | GetMany(keys: seq<Key>)
    | Put(entries: seq<(Key, Value)>)
    | DeleteOne(key: Key)
    | DeleteMany(keys: seq<Key>)
    | Rollback

  datatype Result =
    | One(value: Stored)
    | Many(found: Entries)
    | Count(deleted: nat)
    | Any(some: bool)
    | Done
    | CloneError

  // ---- the reference: the calls made directly on a store ----

  function Lookup(store: Entries, key: Key): Stored {
    if key in store then store[key] else Undefined
  }

  /** A get of several keys leaves out what is missing or undefined. */
  function Found(store: Entries, keys: seq<Key>): Entries {
    map key | key in keys && key in store && store[key] != Undefined :: store[key]
  }

  predicate Clones(entries: seq<(Key, Value)>) {
    forall i :: 0 <= i < |entries| ==> !entries[i].1.Uncloneable?
  }

  function PutEntries(store: Entries, entries: seq<(Key, Value)>): Entries
    requires Clones(entries)
  {
    if entries == [] then store
    else PutEntries(store, entries[..|entries| - 1])[entries[|entries| - 1].0 := entries[|entries| - 1].1]
  }

  function Drop(store: Entries, keys: seq<Key>): Entries {
    store - set key | key in keys
  }

  /** How many of the keys the host deletes: the distinct ones it has, whatever they hold. */
  function Deleted(store: Entries, keys: seq<Key>): nat {
    |set key | key in keys && key in store|
  }

  function Applied(store: Entries, op: TxnOp): Entries {
    match op
    case Put(entries) => if Clones(entries) then PutEntries(store, entries) else store
    case DeleteOne(key) => Drop(store, [key])
    case DeleteMany(keys) => Drop(store, keys)
    case _ => store
  }

  function AppliedAll(store: Entries, ops: seq<TxnOp>): Entries {
    if ops == [] then store else Applied(AppliedAll(store, ops[..|ops| - 1]), ops[|ops| - 1])
  }

  function Direct(store: Entries, op: TxnOp): Result {
    match op
    case GetOne(key) => One(Lookup(store, key))
    case GetMany(keys) => Many(Found(store, keys))
    case Put(entries) => if Clones(entries) then Done else CloneError
    case DeleteOne(key) => Any(Deleted(store, [key]) > 0)
    case DeleteMany(keys) => Count(Deleted(store, keys))
    case Rollback => Done
  }

  // ---- the overlay ----

  /** The store as the transaction sees it. */
  function View(store: Entries, puts: Entries, deletes: set<Key>): Entries {
    (store - deletes) + puts
  }

  /** The entries before the first that does not clone. */
  function ClonedPrefix(entries: seq<(Key, Value)>): (prefix: seq<(Key, Value)>)
    ensures Clones(prefix) && prefix <= entries
    ensures Clones(entries) ==> prefix == entries
    ensures |prefix| < |entries| ==> entries[|prefix|].1.Uncloneable?
  {
    if entries == [] || entries[0].1.Uncloneable? then []
    else [entries[0]] + ClonedPrefix(entries[1..])
  }

  /** The one write of a transaction, performed in the two orders a host may choose. */
  function DeletesFirst(store: Entries, puts: Entries, deletes: set<Key>): Entries {
    (store - deletes) + puts
  }

  function PutsFirst(store: Entries, puts: Entries, deletes: set<Key>): Entries {
    (store + puts) - deletes
  }

  lemma OrderDoesNotMatter(store: Entries, puts: Entries, deletes: set<Key>)
    ensures puts.Keys !! deletes ==> PutsFirst(store, puts, deletes) == DeletesFirst(store, puts, deletes)
    ensures (forall other: Entries :: PutsFirst(other, puts, deletes) == DeletesFirst(other, puts, deletes))
        ==> puts.Keys !! deletes
  {
    if !(puts.Keys !! deletes) {
      var key :| key in puts && key in deletes;
      assert key in DeletesFirst(map[], puts, deletes) && key !in PutsFirst(map[], puts, deletes);
    }
  }

  /** A put changes the view as it changes a store. */
  lemma ViewPut(store: Entries, puts: Entries, deletes: set<Key>, key: Key, value: Stored)
    ensures View(store, puts[key := value], deletes - {key}) == View(store, puts, deletes)[key := value]
  {
  }

  lemma ViewDelete(store: Entries, puts: Entries, deletes: set<Key>, key: Key)
    ensures View(store, puts - {key}, deletes + {key}) == View(store, puts, deletes) - {key}
  {
  }

  /** A put that fails on a value that does not clone keeps the entries before it; a direct
      put keeps none. The two agree on every view exactly when all the values clone, or the
      first one does not. */
  predicate Clean(entries: seq<(Key, Value)>) {
    Clones(entries) || entries[0].1.Uncloneable?
  }

  lemma {:induction false} PutHasLast(store: Entries, entries: seq<(Key, Value)>)
    requires Clones(entries) && entries != []
    ensures entries[|entries| - 1].0 in PutEntries(store, entries)
  {
    var before := PutEntries(store, entries[..|entries| - 1]);
    assert PutEntries(store, entries) == before[entries[|entries| - 1].0 := entries[|entries| - 1].1];
  }

  lemma PartialPut(entries: seq<(Key, Value)>)
    ensures (forall view: Entries :: PutEntries(view, ClonedPrefix(entries)) == Applied(view, Put(entries))) <==> Clean(entries)
  {
    if !Clean(entries) {
      PutHasLast(map[], ClonedPrefix(entries));
      assert PutEntries(map[], ClonedPrefix(entries)) != Applied(map[], Put(entries));
    }
  }

  /** What a call does to the overlay: all of it, but of a put only the entries in front of the
      first that does not clone. */
  function Cut(op: TxnOp): TxnOp { if op.Put? then Put(ClonedPrefix(op.entries)) else op }

  function CutAll(ops: seq<TxnOp>): (r: seq<TxnOp>)
    ensures |r| == |ops| && forall i :: 0 <= i < |ops| ==> r[i] == Cut(ops[i])
  {
    seq(|ops|, i requires 0 <= i < |ops| => Cut(ops[i]))
  }

  /** The count of a delete leaves out the keys that hold undefined. */
  function TxnDeleted(view: Entries, keys: seq<Key>): nat {
    |Found(view, keys)|
  }

  function HoldUndefined(view: Entries, keys: seq<Key>): set<Key> {
    set key | key in keys && key in view && view[key] == Undefined
  }

  /** It is short of the direct count by exactly those keys, so the two agree when none of
      the keys holds undefined. */
  lemma DeleteCount(view: Entries, keys: seq<Key>)
    ensures Deleted(view, keys) == TxnDeleted(view, keys) + |HoldUndefined(view, keys)|
    ensures Deleted(view, keys) == TxnDeleted(view, keys) <==> HoldUndefined(view, keys) == {}
  {
    var all := set key | key in keys && key in view;
    assert all == Found(view, keys).Keys + HoldUndefined(view, keys);
    assert |Found(view, keys)| == |Found(view, keys).Keys|;
  }

  lemma DeleteAny(view: Entries, key: Key)
    ensures (TxnDeleted(view, [key]) > 0) == (Deleted(view, [key]) > 0) <==> HoldUndefined(view, [key]) == {}
    ensures TxnDeleted(view, [key]) > 0 <==> Lookup(view, key) != Undefined
  {
    DeleteCount(view, [key]);
    var all := set k | k in [key] && k in view;
    assert all <= {key};
    if HoldUndefined(view, [key]) != {} {
      assert HoldUndefined(view, [key]) == {key};
      assert Found(view, [key]) == map[];
    }
    if Lookup(view, key) != Undefined { assert key in Found(view, [key]); }
  }

  function DeletedKeys(op: TxnOp): seq<Key> {
    match op
    case DeleteOne(key) => [key]
    case DeleteMany(keys) => keys
    case _ => []
  }

  /** The answer is the one of the direct call, but for a delete of a key that holds undefined:
      that key is not counted, and is not there for a delete of it alone. */
  ghost predicate Agrees(result: Result, store: Entries, op: TxnOp) {
    && (result == Direct(store, op) <==> HoldUndefined(store, DeletedKeys(op)) == {})
    && (op.DeleteOne? ==> result == Any(Lookup(store, op.key) != Undefined))
    && (op.DeleteMany? ==> result.Count? && result.deleted + |HoldUndefined(store, op.keys)| == Deleted(store, op.keys))
  }

  lemma FoundNext(view: Entries, keys: seq<Key>, i: nat)
    requires i < |keys|
    ensures var value := Lookup(view, keys[i]);
      Found(view, keys[..i + 1]) == if value != Undefined then Found(view, keys[..i])[keys[i] := value] else Found(view, keys[..i])
  {
    assert keys[..i + 1] == keys[..i] + [keys[i]];
  }

  lemma DropNext(view: Entries, keys: seq<Key>, i: nat)
    requires i < |keys|
    ensures Drop(view, keys[..i + 1]) == Drop(Drop(view, keys[..i]), [keys[i]])
  {
    assert keys[..i + 1] == keys[..i] + [keys[i]];
  }

  class Txn {
    var puts: Entries
    var deletes: set<Key>
    var rolledBack: bool

    predicate Valid()
      reads this
    {
      puts.Keys !! deletes
    }

    constructor ()
      ensures Valid() && puts == map[] && deletes == {} && !rolledBack
    {
      puts, deletes, rolledBack := map[], {}, false;
    }

    method Get(store: Entries, key: Key) returns (value: Stored)
      requires Valid()
      ensures value == Lookup(View(store, puts, deletes), key)
    {
      if key in puts || key in deletes {
        value := if key in puts then puts[key] else Undefined;
      } else {
        value := Lookup(store, key);
      }
    }

    /** The keys that the overlay says nothing of. */
    method Missing(keys: seq<Key>) returns (missing: seq<Key>)
      ensures forall key :: key in missing <==> key in keys && key !in puts && key !in deletes
    {
      missing := [];
      var i := 0;
      while i < |keys|
        invariant 0 <= i <= |keys|
        invariant forall key :: key in missing <==> key in keys[..i] && key !in puts && key !in deletes
      {
        if keys[i] !in puts && keys[i] !in deletes { missing := missing + [keys[i]]; }
        i := i + 1;
      }
      assert keys[..i] == keys;
    }

    method GetAll(store: Entries, keys: seq<Key>) returns (found: Entries)
      requires Valid()
      ensures found == Found(View(store, puts, deletes), keys)
    {
      var missing := Missing(keys);
      var stored := Found(store, missing);
      ghost var view := View(store, puts, deletes);
      found := map[];
      var i := 0;
      while i < |keys|
        invariant 0 <= i <= |keys|
        invariant found == Found(view, keys[..i])
      {
        var key := keys[i];
        var value := if key in puts then puts[key] else if key in stored then stored[key] else Undefined;
        assert value == Lookup(view, key);
        FoundNext(view, keys, i);
        if value != Undefined { found := found[key := value]; }
        i := i + 1;
      }
      assert keys[..i] == keys;
    }

    method PutAll(entries: seq<(Key, Value)>) returns (ok: bool)
      requires Valid()
      modifies `puts, `deletes
      ensures Valid() && ok == Clones(entries)
      ensures forall store: Entries ::
        View(store, puts, deletes) == PutEntries(View(store, old(puts), old(deletes)), ClonedPrefix(entries))
    {
      var i := 0;
      while i < |entries|
        invariant 0 <= i <= |entries| && Valid()
        invariant Clones(entries[..i]) && entries[..i] <= ClonedPrefix(entries)
        invariant forall store: Entries ::
          View(store, puts, deletes) == PutEntries(View(store, old(puts), old(deletes)), entries[..i])
      {
        var (key, value) := entries[i];
        if value.Uncloneable? {
          assert ClonedPrefix(entries) == entries[..i];
          return false;
        }
        ghost var puts0, deletes0 := puts, deletes;
        puts := puts[key := value];
        deletes := deletes - {key};
        assert entries[..i + 1][..i] == entries[..i];
        forall store: Entries
          ensures View(store, puts, deletes) == PutEntries(View(store, old(puts), old(deletes)), entries[..i + 1])
        {
          ViewPut(store, puts0, deletes0, key, value);
        }
        i := i + 1;
      }
      assert entries[..i] == entries;
      ok := true;
    }

    method DeleteAll(store: Entries, keys: seq<Key>) returns (count: nat)
      requires Valid()
      modifies `puts, `deletes
      ensures Valid() && count == TxnDeleted(View(store, old(puts), old(deletes)), keys)
      ensures forall other: Entries ::
        View(other, puts, deletes) == Drop(View(other, old(puts), old(deletes)), keys)
    {
      var stored := GetAll(store, keys);
      var i := 0;
      while i < |keys|
        invariant 0 <= i <= |keys| && Valid()
        invariant forall other: Entries ::
          View(other, puts, deletes) == Drop(View(other, old(puts), old(deletes)), keys[..i])
      {
        ghost var puts0, deletes0 := puts, deletes;
        puts := puts - {keys[i]};
        deletes := deletes + {keys[i]};
        forall other: Entries
          ensures View(other, puts, deletes) == Drop(View(other, old(puts), old(deletes)), keys[..i + 1])
        {
          ViewDelete(other, puts0, deletes0, keys[i]);
          DropNext(View(other, old(puts), old(deletes)), keys, i);
        }
        i := i + 1;
      }
      assert keys[..i] == keys;
      count := |stored|;
    }

    method PerformPut(entries: seq<(Key, Value)>) returns (result: Result)
      requires Valid()
      modifies `puts, `deletes
      ensures Valid() && result == if Clones(entries) then Done else CloneError
      ensures forall other: Entries ::
        View(other, puts, deletes) == Applied(View(other, old(puts), old(deletes)), Cut(Put(entries)))
    {
      var ok := PutAll(entries);
      result := if ok then Done else CloneError;
    }

    method PerformDelete(store: Entries, key: Key) returns (result: Result)
      requires Valid()
      modifies `puts, `deletes
      ensures Valid() && Agrees(result, View(store, old(puts), old(deletes)), DeleteOne(key))
      ensures forall other: Entries ::
        View(other, puts, deletes) == Applied(View(other, old(puts), old(deletes)), DeleteOne(key))
    {
      DeleteAny(View(store, puts, deletes), key);
      var count := DeleteAll(store, [key]);
      result := Any(count > 0);
    }

    method PerformDeleteMany(store: Entries, keys: seq<Key>) returns (result: Result)
      requires Valid()
      modifies `puts, `deletes
      ensures Valid() && Agrees(result, View(store, old(puts), old(deletes)), DeleteMany(keys))
      ensures forall other: Entries ::
        View(other, puts, deletes) == Applied(View(other, old(puts), old(deletes)), DeleteMany(keys))
    {
      DeleteCount(View(store, puts, deletes), keys);
      var count := DeleteAll(store, keys);
      result := Count(count);
    }

    /** One call of the closure. */
    method Perform(store: Entries, op: TxnOp) returns (result: Result)
      requires Valid()
      modifies this
      ensures Valid() && rolledBack == (old(rolledBack) || op.Rollback?)
      ensures forall other: Entries ::
        View(other, puts, deletes) == Applied(View(other, old(puts), old(deletes)), Cut(op))
      ensures Agrees(result, View(store, old(puts), old(deletes)), op)
    {
      match op {
        case GetOne(key) =>
          var value := Get(store, key);
          result := One(value);
        case GetMany(keys) =>
          var found := GetAll(store, keys);
          result := Many(found);
        case Put(entries) => result := PerformPut(entries);
        case DeleteOne(key) => result := PerformDelete(store, key);
        case DeleteMany(keys) => result := PerformDeleteMany(store, keys);
        case Rollback =>
          rolledBack := true;
          result := Done;
      }
    }

    /** The end of the closure: one write, or none. */
    method Commit(ending: Ending) returns (written: Written)
      requires Valid()
      ensures ending.Throws? || rolledBack ==> written.NoWrite?
      ensures written.NoWrite? ==> ending.Throws? || rolledBack || (puts == map[] && deletes == {})
      ensures written.OneWrite? ==> written == OneWrite(puts, deletes) && (puts != map[] || deletes != {})
      ensures written.OneWrite? ==> forall store: Entries ::
        DeletesFirst(store, puts, deletes) == PutsFirst(store, puts, deletes) == View(store, puts, deletes)
    {
      if ending.Returns? && !rolledBack && (puts != map[] || deletes != {}) {
        written := OneWrite(puts, deletes);
        forall store: Entries
          ensures DeletesFirst(store, puts, deletes) == PutsFirst(store, puts, deletes) == View(store, puts, deletes)
        {
          OrderDoesNotMatter(store, puts, deletes);
        }
      } else {
        written := NoWrite;
      }
    }
  }

  // ---- whole transactions ----

  datatype Ending = Returns | Throws

  datatype Written = NoWrite | OneWrite(puts: Entries, deletes: set<Key>)

  predicate AllClean(ops: seq<TxnOp>) {
    forall i :: 0 <= i < |ops| && ops[i].Put? ==> Clean(ops[i].entries)
  }

  /** The calls of the closure, each awaited, and the end of the transaction. Every answer is
      that of the direct call on the store with the earlier calls applied to it, puts cut where
      a value did not clone, but for a delete of undefined; and the one write, whichever half
      the host applies first, gives the store all of them. */
  method RunTransaction(stores: seq<Entries>, ops: seq<TxnOp>, ending: Ending)
    returns (results: seq<Result>, written: Written)
    requires |stores| == |ops|
    ensures |results| == |ops|
    ensures forall i :: 0 <= i < |ops| ==> Agrees(results[i], AppliedAll(stores[i], CutAll(ops)[..i]), ops[i])
    ensures ending.Throws? || Rollback in ops ==> written.NoWrite?
    ensures written.NoWrite? ==>
      ending.Throws? || Rollback in ops || forall store: Entries :: AppliedAll(store, CutAll(ops)) == store
    ensures written.OneWrite? ==> (written.puts != map[] || written.deletes != {}) && written.puts.Keys !! written.deletes
    ensures written.OneWrite? ==> forall store: Entries ::
      DeletesFirst(store, written.puts, written.deletes) == PutsFirst(store, written.puts, written.deletes)
        == AppliedAll(store, CutAll(ops))
  {
    var txn := new Txn();
    results := RunCalls(txn, stores, ops);
    written := txn.Commit(ending);
    assert forall store: Entries :: View(store, map[], {}) == store;
  }

  /** Where every put is clean nothing is cut that a direct call would keep, so the transaction
      is the same calls made directly. */
  lemma {:induction false} CleanIsWhole(store: Entries, ops: seq<TxnOp>)
    requires AllClean(ops)
    ensures AppliedAll(store, CutAll(ops)) == AppliedAll(store, ops)
  {
    if ops != [] {
      var n := |ops| - 1;
      CleanIsWhole(store, ops[..n]);
      assert CutAll(ops)[..n] == CutAll(ops[..n]);
      if ops[n].Put? { PartialPut(ops[n].entries); }
    }
  }

  /** What the closure sees is the store with its calls so far applied to it. */
  ghost predicate Shows(puts: Entries, deletes: set<Key>, ops: seq<TxnOp>) {
    forall store: Entries :: View(store, puts, deletes) == AppliedAll(store, ops)
  }

  ghost predicate AllAgree(results: seq<Result>, stores: seq<Entries>, ops: seq<TxnOp>) {
    && |results| <= |stores| == |ops|
    && forall i :: 0 <= i < |results| ==> Agrees(results[i], AppliedAll(stores[i], CutAll(ops)[..i]), ops[i])
  }

  lemma AppliedNext(store: Entries, ops: seq<TxnOp>, i: nat)
    requires i < |ops|
    ensures AppliedAll(store, ops[..i + 1]) == Applied(AppliedAll(store, ops[..i]), ops[i])
  {
    assert ops[..i + 1][..i] == ops[..i];
  }

  lemma ShowsNext(puts: Entries, deletes: set<Key>, puts1: Entries, deletes1: set<Key>, ops: seq<TxnOp>, i: nat)
    requires i < |ops| && Shows(puts, deletes, ops[..i])
    requires forall store: Entries :: View(store, puts1, deletes1) == Applied(View(store, puts, deletes), ops[i])
    ensures Shows(puts1, deletes1, ops[..i + 1])
  {
    forall store: Entries ensures View(store, puts1, deletes1) == AppliedAll(store, ops[..i + 1]) {
      AppliedNext(store, ops, i);
    }
  }

  method RunCall(txn: Txn, store: Entries, ops: seq<TxnOp>, i: nat) returns (result: Result)
    requires i < |ops| && txn.Valid() && Shows(txn.puts, txn.deletes, CutAll(ops)[..i])
    modifies txn
    ensures txn.Valid() && txn.rolledBack == (old(txn.rolledBack) || ops[i].Rollback?)
    ensures Shows(txn.puts, txn.deletes, CutAll(ops)[..i + 1])
    ensures Agrees(result, AppliedAll(store, CutAll(ops)[..i]), ops[i])
  {
    ghost var puts, deletes := txn.puts, txn.deletes;
    result := txn.Perform(store, ops[i]);
    ShowsNext(puts, deletes, txn.puts, txn.deletes, CutAll(ops), i);
  }

  lemma RollbackNext(ops: seq<TxnOp>, i: nat)
    requires i < |ops|
    ensures Rollback in ops[..i + 1] <==> Rollback in ops[..i] || ops[i].Rollback?
  {
    assert ops[..i + 1] == ops[..i] + [ops[i]];
  }

  lemma AgreesNext(results: seq<Result>, stores: seq<Entries>, ops: seq<TxnOp>, result: Result)
    requires AllAgree(results, stores, ops) && |results| < |ops|
    requires Agrees(result, AppliedAll(stores[|results|], CutAll(ops)[..|results|]), ops[|results|])
    ensures AllAgree(results + [result], stores, ops)
  {
    hide Agrees, AppliedAll;
  }

  method RunCalls(txn: Txn, stores: seq<Entries>, ops: seq<TxnOp>) returns (results: seq<Result>)
    requires |stores| == |ops| && txn.Valid() && txn.puts == map[] && txn.deletes == {} && !txn.rolledBack
    modifies txn
    ensures |results| == |ops| && txn.Valid()
    ensures txn.rolledBack <==> Rollback in ops
    ensures Shows(txn.puts, txn.deletes, CutAll(ops)) && AllAgree(results, stores, ops)
  {
    results := [];
    var i := 0;
    assert Shows(map[], {}, CutAll(ops)[..0]) && AllAgree(results, stores, ops);
    hide Shows, AllAgree, Agrees, AppliedAll;
    while i < |ops|
      invariant 0 <= i <= |ops| == |stores| && |results| == i && txn.Valid()
      invariant txn.rolledBack <==> Rollback in ops[..i]
      invariant Shows(txn.puts, txn.deletes, CutAll(ops)[..i]) && AllAgree(results, stores, ops)
    {
      var result := RunCall(txn, stores[i], ops, i);
      RollbackNext(ops, i);
      AgreesNext(results, stores, ops, result);
      results := results + [result];
      i := i + 1;
    }
    assert ops[..i] == ops && CutAll(ops)[..i] == CutAll(ops);
  }
}
