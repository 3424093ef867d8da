/** The decisions of the isolate pool over a snapshot of it: what an owner that asks gets,
    what is reclaimed, and which cached context is reused, swept, kept or evicted. */
module PoolPolicy {
  import opened Options

  type Instant = int

  datatype IsolateLoad = IsolateLoad(owner: string, hasCapacity: bool, idleSince: Option<Instant>)

  datatype Limits = Limits(maxIsolates: nat, maxPerOwner: Option<nat>, overcommit: bool)

  datatype PoolLoad = PoolLoad(isolates: seq<IsolateLoad>, limits: Limits)

  datatype Refusal = OwnerAtLimit | PoolFull

  datatype Acquire =
    | Reuse(index: nat)
    | Build
    | Evict(index: nat)
    | Overcommit
    | Refuse(refusal: Refusal)

  predicate Usable(isolate: IsolateLoad, owner: string) {
    isolate.owner == owner && isolate.hasCapacity
  }

  function FirstUsable(isolates: seq<IsolateLoad>, owner: string): (index: nat)
    ensures index <= |isolates|
    ensures index < |isolates| ==> Usable(isolates[index], owner)
    ensures forall i :: 0 <= i < index ==> !Usable(isolates[i], owner)
  {
    if isolates == [] || Usable(isolates[0], owner) then 0 else 1 + FirstUsable(isolates[1..], owner)
  }

  function Owned(isolates: seq<IsolateLoad>, owner: string): nat {
    if isolates == [] then 0
    else Owned(isolates[..|isolates| - 1], owner) + if isolates[|isolates| - 1].owner == owner then 1 else 0
  }

  predicate AtLimit(load: PoolLoad, owner: string) {
    load.limits.maxPerOwner.Some? && Owned(load.isolates, owner) >= load.limits.maxPerOwner.value
  }

  function CountIdle(isolates: seq<IsolateLoad>): nat {
    if isolates == [] then 0
    else CountIdle(isolates[..|isolates| - 1]) + if isolates[|isolates| - 1].idleSince.Some? then 1 else 0
  }

  /** The idle isolate with the smallest time, the first of several; the length if none is idle. */
  function OldestIdle(isolates: seq<IsolateLoad>): (index: nat)
    ensures index <= |isolates|
    ensures index == |isolates| ==> forall i :: 0 <= i < |isolates| ==> isolates[i].idleSince.None?
    ensures index < |isolates| ==> isolates[index].idleSince.Some?
    ensures index < |isolates| ==> forall i :: 0 <= i < |isolates| && isolates[i].idleSince.Some? ==>
      isolates[index].idleSince.value < isolates[i].idleSince.value
      || (isolates[index].idleSince.value == isolates[i].idleSince.value && index <= i)
  {
    if isolates == [] then 0
    else
      var n := |isolates| - 1;
      var before := OldestIdle(isolates[..n]);
      if before == n then (if isolates[n].idleSince.Some? then n else n + 1)
      else if isolates[n].idleSince.Some? && isolates[n].idleSince.value < isolates[before].idleSince.value then n
      else before
  }

  /** The choice for `owner`. Each outcome comes with when it is made, both ways. */
  function Choose(load: PoolLoad, owner: string): (choice: Acquire)
    ensures choice.Reuse? <==> exists i :: 0 <= i < |load.isolates| && Usable(load.isolates[i], owner)
    ensures choice.Reuse? ==> choice.index < |load.isolates| && Usable(load.isolates[choice.index], owner)
    ensures choice == Refuse(OwnerAtLimit) <==> !choice.Reuse? && AtLimit(load, owner)
    ensures choice.Build? <==> !choice.Reuse? && !AtLimit(load, owner) && |load.isolates| < load.limits.maxIsolates
    ensures choice.Evict? ==>
      && |load.isolates| >= load.limits.maxIsolates && !AtLimit(load, owner)
      && choice.index < |load.isolates| && load.isolates[choice.index].idleSince.Some?
      && forall i :: 0 <= i < |load.isolates| && load.isolates[i].idleSince.Some? ==>
           load.isolates[choice.index].idleSince.value <= load.isolates[i].idleSince.value
    ensures choice.Overcommit? || choice == Refuse(PoolFull) ==>
      && |load.isolates| >= load.limits.maxIsolates && !AtLimit(load, owner)
      && (forall i :: 0 <= i < |load.isolates| ==> load.isolates[i].idleSince.None?)
      && (choice.Overcommit? <==> load.limits.overcommit)
  {
    var usable := FirstUsable(load.isolates, owner);
    if usable < |load.isolates| then Reuse(usable)
    else if AtLimit(load, owner) then Refuse(OwnerAtLimit)
    else if |load.isolates| < load.limits.maxIsolates then Build
    else
      var idle := OldestIdle(load.isolates);
      if idle < |load.isolates| then Evict(idle)
      else if load.limits.overcommit then Overcommit
      else Refuse(PoolFull)
  }

  predicate Increasing(indices: seq<nat>) {
    forall i, j :: 0 <= i < j < |indices| ==> indices[i] < indices[j]
  }

  function Excess(load: PoolLoad): nat {
    if |load.isolates| > load.limits.maxIsolates then |load.isolates| - load.limits.maxIsolates else 0
  }

  /** The first `most` idle isolates. */
  function FirstIdle(isolates: seq<IsolateLoad>, most: nat): (indices: seq<nat>)
    ensures Increasing(indices)
    ensures forall i :: 0 <= i < |indices| ==> indices[i] < |isolates| && isolates[indices[i]].idleSince.Some?
    ensures |indices| == if CountIdle(isolates) < most then CountIdle(isolates) else most
    ensures |indices| < most ==> forall i :: 0 <= i < |isolates| && isolates[i].idleSince.Some? ==> i in indices
    ensures forall i, k :: 0 <= i < |isolates| && isolates[i].idleSince.Some? && i !in indices && 0 <= k < |indices| ==> indices[k] < i
  {
    if isolates == [] then []
    else
      var n := |isolates| - 1;
      var before := FirstIdle(isolates[..n], most);
      if isolates[n].idleSince.Some? && |before| < most then before + [n] else before
  }

  /** What is dropped past the ceiling. */
  function Reclaimed(load: PoolLoad): seq<nat> {
    FirstIdle(load.isolates, Excess(load))
  }

  // ---- contexts ----

  datatype ContextKey = ContextKey(worker: string, version: int, env: Option<int>)

  /** The first cached context of the wanted key that has a request left. */
  function WarmHit(cached: seq<(ContextKey, nat)>, wanted: ContextKey, maxReuses: nat): (index: nat)
    ensures index <= |cached|
    ensures index < |cached| ==> cached[index].0 == wanted && cached[index].1 < maxReuses
    ensures forall i :: 0 <= i < index ==> !(cached[i].0 == wanted && cached[i].1 < maxReuses)
  {
    if cached == [] || (cached[0].0 == wanted && cached[0].1 < maxReuses) then 0
    else 1 + WarmHit(cached[1..], wanted, maxReuses)
  }

  predicate Superseded(cached: ContextKey, wanted: ContextKey) {
    if cached.worker != wanted.worker then false
    else if cached.version != wanted.version then cached.version < wanted.version
    else
      match (cached.env, wanted.env)
      case (Some(old_), Some(new_)) => old_ < new_
      case (old_, new_) => old_ != new_
  }

  predicate KeepContext(reuses: nat, maxReuses: nat, maxCached: nat) {
    maxCached > 0 && reuses < maxReuses
  }

  /** In a full cache, the entry with the smallest time; the length if there is room. */
  function CacheEvict(lastUsed: seq<Instant>, maxCached: nat): (index: nat)
    ensures index <= |lastUsed|
    ensures index < |lastUsed| <==> |lastUsed| >= maxCached && |lastUsed| > 0
    ensures index < |lastUsed| ==> forall i :: 0 <= i < |lastUsed| ==> lastUsed[index] <= lastUsed[i]
  {
    if |lastUsed| < maxCached then |lastUsed| else Oldest(lastUsed)
  }

  function Oldest(lastUsed: seq<Instant>): (index: nat)
    ensures lastUsed == [] ==> index == 0
    ensures lastUsed != [] ==> index < |lastUsed| && forall i :: 0 <= i < |lastUsed| ==> lastUsed[index] <= lastUsed[i]
  {
    if |lastUsed| <= 1 then 0
    else
      var n := |lastUsed| - 1;
      var before := Oldest(lastUsed[..n]);
      if lastUsed[n] < lastUsed[before] then n else before
  }

  /** A context is kept exactly when a later warm hit of its key can take it. */
  lemma KeptIsTakeable(key: ContextKey, reuses: nat, maxReuses: nat, maxCached: nat)
    ensures KeepContext(reuses, maxReuses, maxCached) <==> maxCached > 0 && WarmHit([(key, reuses)], key, maxReuses) == 0
  {
  }

  /** A superseded key has the wanted worker and no newer version, and is not the wanted key. */
  lemma SupersededIsOlder(cached: ContextKey, wanted: ContextKey)
    requires Superseded(cached, wanted)
    ensures cached.worker == wanted.worker && cached != wanted && cached.version <= wanted.version
  {
  }

  /** It is no order: two deployments replace each other exactly when they are of one
      version, one with the time of its environment and one without. */
  lemma ReplaceEachOther(a: ContextKey, b: ContextKey)
    ensures Superseded(a, b) && Superseded(b, a)
       <==> a.worker == b.worker && a.version == b.version && a.env.Some? != b.env.Some?
  {
  }

  /** Each deployment supersedes the one before it. */
  predicate Chain(keys: seq<ContextKey>) {
    forall i :: 0 <= i < |keys| - 1 ==> Superseded(keys[i], keys[i + 1])
  }

  lemma {:induction false} ChainGoesUp(keys: seq<ContextKey>, i: nat)
    requires Chain(keys) && i < |keys|
    ensures keys[i].worker == keys[0].worker && keys[0].version <= keys[i].version
  {
    if i > 0 { ChainGoesUp(keys, i - 1); }
  }

  /** It does not carry over a chain, of whatever length: the first of a chain is not superseded
      by the last exactly when the whole chain is of one version and its ends have no times, or
      times that do not grow. A chain that reaches a newer version always carries over, and so
      does one in which every deployment has a time. */
  lemma SupersededChain(keys: seq<ContextKey>)
    requires Chain(keys) && |keys| >= 2
    ensures var first, last := keys[0], keys[|keys| - 1];
      !Superseded(first, last) <==>
        && (forall i :: 0 <= i < |keys| ==> keys[i].version == first.version)
        && ((first.env.None? && last.env.None?)
            || (first.env.Some? && last.env.Some? && first.env.value >= last.env.value))
    ensures (forall i :: 0 <= i < |keys| ==> keys[i].env.Some?) ==> Superseded(keys[0], keys[|keys| - 1])
  {
    var n := |keys| - 1;
    forall i | 0 <= i < |keys|
      ensures keys[i].worker == keys[0].worker && keys[0].version <= keys[i].version <= keys[n].version
    {
      ChainGoesUp(keys, i);
      ChainEndsHigh(keys, i);
    }
    if forall i :: 0 <= i < |keys| ==> keys[i].env.Some? { TimedChain(keys, n); }
  }

  lemma {:induction false} ChainEndsHigh(keys: seq<ContextKey>, i: nat)
    requires Chain(keys) && i < |keys|
    ensures keys[i].version <= keys[|keys| - 1].version
    decreases |keys| - i
  {
    if i < |keys| - 1 { ChainEndsHigh(keys, i + 1); }
  }

  lemma {:induction false} TimedChain(keys: seq<ContextKey>, i: nat)
    requires Chain(keys) && 0 < i < |keys| && (forall k :: 0 <= k < |keys| ==> keys[k].env.Some?)
    ensures Superseded(keys[0], keys[i])
  {
    if i > 1 { TimedChain(keys, i - 1); }
  }

  /** Such a chain can come back to where it began: two deployments of one version, one with a
      time and one without, drop each other's contexts for as long as both are asked for. */
  lemma ChainInACircle(worker: string, version: int, time: int)
    ensures var timed, untimed := ContextKey(worker, version, Some(time)), ContextKey(worker, version, None);
      Chain([timed, untimed, timed]) && !Superseded(timed, timed)
  {
  }
}
