/**
 The isolate pool of one thread, performing the choices of `PoolPolicy`: requests start and
 end in any order, each on an isolate of its owner. `PoolState` is the pool between two
 requests; `ThreadLocalPool` performs the steps on its isolates in place.
 */
module Pool {
  import opened Options
  import opened PoolPolicy

  /** `lastUsed` is what the pool keeps, the time its last request began; `ended` is when its
      last request ended, which it does not keep. */
  datatype Iso = Iso(id: nat, owner: string, active: nat, lastUsed: Instant, ended: Instant)

  /** A request that runs, by its owner and the isolate it has a slot of. */
  datatype Slot = Slot(owner: string, iso: nat)

  datatype Config = Config(limits: Limits, maxConcurrent: nat)

  datatype PoolState = PoolState(isolates: seq<Iso>, next: nat, running: multiset<Slot>)

  const EMPTY := PoolState([], 0, multiset{})

  function LoadOf(iso: Iso, maxConcurrent: nat): IsolateLoad {
    IsolateLoad(iso.owner, iso.active < maxConcurrent, if iso.active == 0 then Some(iso.lastUsed) else None)
  }

  function Loads(isolates: seq<Iso>, maxConcurrent: nat): (loads: seq<IsolateLoad>)
    ensures |loads| == |isolates|
    ensures forall i :: 0 <= i < |isolates| ==> loads[i] == LoadOf(isolates[i], maxConcurrent)
  {
    if isolates == [] then []
    else Loads(isolates[..|isolates| - 1], maxConcurrent) + [LoadOf(isolates[|isolates| - 1], maxConcurrent)]
  }

  function RemoveAt<T>(s: seq<T>, i: nat): seq<T>
    requires i < |s|
  {
    s[..i] + s[i + 1..]
  }

  function ChoiceFor(c: Config, isolates: seq<Iso>, owner: string): Acquire {
    Choose(PoolLoad(Loads(isolates, c.maxConcurrent), c.limits), owner)
  }

  function Built(p: PoolState, isolates: seq<Iso>, owner: string, now: Instant): PoolState {
    PoolState(isolates + [Iso(p.next, owner, 1, now, now)], p.next + 1, p.running + multiset{Slot(owner, p.next)})
  }

  /** `acquire`: a slot of an isolate of the owner, or the pool as it was. */
  function Start(c: Config, p: PoolState, owner: string, now: Instant): PoolState {
    Performed(p, ChoiceFor(c, p.isolates, owner), owner, now)
  }

  predicate InRange(choice: Acquire, n: nat) {
    choice.Reuse? || choice.Evict? ==> choice.index < n
  }

  function Performed(p: PoolState, choice: Acquire, owner: string, now: Instant): PoolState
    requires InRange(choice, |p.isolates|)
  {
    match choice
    case Reuse(i) =>
      var iso := p.isolates[i];
      p.(isolates := p.isolates[i := iso.(active := iso.active + 1)], running := p.running + multiset{Slot(owner, iso.id)})
    case Build => Built(p, p.isolates, owner, now)
    case Evict(i) => Built(p, RemoveAt(p.isolates, i), owner, now)
    case Overcommit => Built(p, p.isolates, owner, now)
    case Refuse(_) => p
  }

  /** The reclaim loop: drops the chosen indices, the last one first. */
  function DropAll(isolates: seq<Iso>, indices: seq<nat>): seq<Iso>
    requires Increasing(indices) && (forall i :: 0 <= i < |indices| ==> indices[i] < |isolates|)
    decreases |indices|
  {
    if indices == [] then isolates
    else DropAll(RemoveAt(isolates, indices[|indices| - 1]), indices[..|indices| - 1])
  }

  function Reclaim(c: Config, isolates: seq<Iso>): seq<Iso> {
    DropAll(isolates, Reclaimed(PoolLoad(Loads(isolates, c.maxConcurrent), c.limits)))
  }

  function IndexOf(isolates: seq<Iso>, id: nat): (i: nat)
    ensures i <= |isolates|
    ensures i < |isolates| ==> isolates[i].id == id
    ensures forall j :: 0 <= j < i ==> isolates[j].id != id
  {
    if isolates == [] || isolates[0].id == id then 0 else 1 + IndexOf(isolates[1..], id)
  }

  function Left(iso: Iso, now: Instant): Iso
    requires iso.active > 0
  {
    iso.(active := iso.active - 1, ended := now)
  }

  /** `release_to_local_pool`, for a request that runs. */
  function Finish(c: Config, p: PoolState, slot: Slot, now: Instant): PoolState {
    var i := IndexOf(p.isolates, slot.iso);
    if slot !in p.running || i == |p.isolates| || p.isolates[i].active == 0 then p
    else
      var iso := p.isolates[i];
      p.(isolates := Reclaim(c, p.isolates[i := Left(iso, now)]), running := p.running - multiset{slot})
  }

  /** The bookkeeping of a request that has its slot: the isolate was last used now. */
  function Touch(p: PoolState, id: nat, now: Instant): PoolState {
    var i := IndexOf(p.isolates, id);
    if i == |p.isolates| then p else p.(isolates := p.isolates[i := p.isolates[i].(lastUsed := now)])
  }

  /** The pool, the clock, and the requests that have a slot and have not begun yet: a request
      notes the time on its isolate in a step of its own, after it got its slot. */
  datatype Run = Run(pool: PoolState, clock: Instant, arriving: multiset<Slot>)

  const START := Run(EMPTY, 0, multiset{})

  datatype Step =
    | Tick(amount: nat)
    | Request(owner: string)
    | Begin(slot: Slot)
    | End(slot: Slot)

  function Do(c: Config, r: Run, step: Step): Run {
    match step
    case Tick(amount) => r.(clock := r.clock + amount)
    case Request(owner) =>
      var pool := Start(c, r.pool, owner, r.clock);
      r.(pool := pool, arriving := r.arriving + (pool.running - r.pool.running))
    case Begin(slot) =>
      if slot in r.arriving then r.(pool := Touch(r.pool, slot.iso, r.clock), arriving := r.arriving - multiset{slot}) else r
    case End(slot) =>
      if r.arriving[slot] < r.pool.running[slot] then r.(pool := Finish(c, r.pool, slot, r.clock)) else r
  }

  function DoAll(c: Config, r: Run, steps: seq<Step>): Run
    decreases |steps|
  {
    if steps == [] then r else DoAll(c, Do(c, r, steps[0]), steps[1..])
  }

  // ---- counting ----

  function CountOwner(isolates: seq<Iso>, owner: string): nat {
    if isolates == [] then 0
    else CountOwner(isolates[..|isolates| - 1], owner) + if isolates[|isolates| - 1].owner == owner then 1 else 0
  }

  function InUse(isolates: seq<Iso>): nat {
    if isolates == [] then 0
    else InUse(isolates[..|isolates| - 1]) + if isolates[|isolates| - 1].active > 0 then 1 else 0
  }

  lemma {:induction false} CountAppend(a: seq<Iso>, b: seq<Iso>, owner: string)
    ensures CountOwner(a + b, owner) == CountOwner(a, owner) + CountOwner(b, owner)
    ensures InUse(a + b) == InUse(a) + InUse(b)
    decreases |b|
  {
    if b == [] { assert a + b == a; } else {
      assert (a + b)[..|a + b| - 1] == a + b[..|b| - 1];
      CountAppend(a, b[..|b| - 1], owner);
    }
  }

  lemma CountOne(iso: Iso, owner: string)
    ensures CountOwner([iso], owner) == if iso.owner == owner then 1 else 0
    ensures InUse([iso]) == if iso.active > 0 then 1 else 0
  {
    assert [iso][..0] == [];
  }

  lemma CountRemove(isolates: seq<Iso>, i: nat, owner: string)
    requires i < |isolates|
    ensures CountOwner(RemoveAt(isolates, i), owner) == CountOwner(isolates, owner) - if isolates[i].owner == owner then 1 else 0
    ensures InUse(RemoveAt(isolates, i)) == InUse(isolates) - if isolates[i].active > 0 then 1 else 0
  {
    assert isolates == isolates[..i] + ([isolates[i]] + isolates[i + 1..]);
    CountAppend(isolates[..i], [isolates[i]] + isolates[i + 1..], owner);
    CountAppend([isolates[i]], isolates[i + 1..], owner);
    CountAppend(isolates[..i], isolates[i + 1..], owner);
    CountOne(isolates[i], owner);
  }

  lemma CountUpdate(isolates: seq<Iso>, i: nat, iso: Iso, owner: string)
    requires i < |isolates| && iso.owner == isolates[i].owner
    ensures CountOwner(isolates[i := iso], owner) == CountOwner(isolates, owner)
    ensures InUse(isolates[i := iso]) == InUse(isolates) - (if isolates[i].active > 0 then 1 else 0) + (if iso.active > 0 then 1 else 0)
  {
    var updated := isolates[i := iso];
    assert RemoveAt(updated, i) == RemoveAt(isolates, i);
    CountRemove(isolates, i, owner);
    CountRemove(updated, i, owner);
  }

  /** The policy counts what the pool holds. */
  lemma {:induction false} LoadsCount(isolates: seq<Iso>, maxConcurrent: nat, owner: string)
    ensures Owned(Loads(isolates, maxConcurrent), owner) == CountOwner(isolates, owner)
    ensures CountIdle(Loads(isolates, maxConcurrent)) + InUse(isolates) == |isolates|
  {
    if isolates != [] {
      var n := |isolates| - 1;
      LoadsCount(isolates[..n], maxConcurrent, owner);
      assert Loads(isolates, maxConcurrent)[..n] == Loads(isolates[..n], maxConcurrent);
    }
  }

  // ---- the reclaim loop drops exactly the chosen isolates ----

  /** The isolates whose index is not chosen, in order. */
  function Others(isolates: seq<Iso>, indices: seq<nat>): seq<Iso> {
    if isolates == [] then []
    else
      var n := |isolates| - 1;
      Others(isolates[..n], indices) + if n in indices then [] else [isolates[n]]
  }

  lemma {:induction false} OthersIgnoresLater(isolates: seq<Iso>, indices: seq<nat>, later: nat)
    requires later >= |isolates|
    ensures Others(isolates, indices + [later]) == Others(isolates, indices)
  {
    if isolates != [] { OthersIgnoresLater(isolates[..|isolates| - 1], indices, later); }
  }

  lemma {:induction false} OthersKeepsTail(isolates: seq<Iso>, indices: seq<nat>, i: nat)
    requires i < |isolates| && (forall k :: 0 <= k < |indices| ==> indices[k] < i)
    ensures Others(isolates, indices + [i]) == Others(RemoveAt(isolates, i), indices)
  {
    var n := |isolates| - 1;
    if i == n {
      assert RemoveAt(isolates, i) == isolates[..n];
      OthersIgnoresLater(isolates[..n], indices, i);
    } else {
      OthersKeepsTail(isolates[..n], indices, i);
      assert RemoveAt(isolates, i)[..n - 1] == RemoveAt(isolates[..n], i);
      assert RemoveAt(isolates, i)[n - 1] == isolates[n];
    }
  }

  lemma {:induction false} NoneDropped(isolates: seq<Iso>)
    ensures Others(isolates, []) == isolates
  {
    if isolates != [] { NoneDropped(isolates[..|isolates| - 1]); }
  }

  /** Removing by index from the back drops the chosen isolates and no other. */
  lemma {:induction false} DropsExactly(isolates: seq<Iso>, indices: seq<nat>)
    requires Increasing(indices) && (forall i :: 0 <= i < |indices| ==> indices[i] < |isolates|)
    ensures DropAll(isolates, indices) == Others(isolates, indices)
    decreases |indices|
  {
    if indices == [] {
      NoneDropped(isolates);
    } else {
      var n := |indices| - 1;
      assert indices == indices[..n] + [indices[n]];
      OthersKeepsTail(isolates, indices[..n], indices[n]);
      DropsExactly(RemoveAt(isolates, indices[n]), indices[..n]);
    }
  }

  // ---- what every run keeps ----

  ghost predicate Distinct(isolates: seq<Iso>, next: nat) {
    && (forall i :: 0 <= i < |isolates| ==> isolates[i].id < next)
    && (forall i, j :: 0 <= i < j < |isolates| ==> isolates[i].id != isolates[j].id)
  }

  ghost predicate Slotted(c: Config, isolates: seq<Iso>) {
    forall i :: 0 <= i < |isolates| ==> isolates[i].active <= c.maxConcurrent
  }

  ghost predicate OwnersBounded(c: Config, isolates: seq<Iso>) {
    c.limits.maxPerOwner.Some? ==> forall owner :: CountOwner(isolates, owner) <= c.limits.maxPerOwner.value
  }

  ghost predicate SizeBounded(c: Config, isolates: seq<Iso>) {
    && (|isolates| <= c.limits.maxIsolates || |isolates| <= InUse(isolates))
    && (!c.limits.overcommit ==> |isolates| <= c.limits.maxIsolates)
  }

  /** The slots of an isolate are its requests, all of its owner, and no request has lost
      its isolate. */
  ghost predicate Accounted(isolates: seq<Iso>, running: multiset<Slot>) {
    && (forall i :: 0 <= i < |isolates| ==> running[SlotOf(isolates[i])] == isolates[i].active)
    && (forall slot :: slot in running ==> Hosted(isolates, slot))
  }

  function SlotOf(iso: Iso): Slot { Slot(iso.owner, iso.id) }

  ghost predicate Hosted(isolates: seq<Iso>, slot: Slot) {
    exists i :: 0 <= i < |isolates| && SlotOf(isolates[i]) == slot
  }

  ghost predicate Inv(c: Config, p: PoolState) {
    && Distinct(p.isolates, p.next)
    && Slotted(c, p.isolates)
    && OwnersBounded(c, p.isolates)
    && SizeBounded(c, p.isolates)
    && Accounted(p.isolates, p.running)
  }

  /** All of `Inv` but the size. */
  ghost predicate Sound(c: Config, isolates: seq<Iso>, next: nat, running: multiset<Slot>) {
    Distinct(isolates, next) && Slotted(c, isolates) && OwnersBounded(c, isolates) && Accounted(isolates, running)
  }

  lemma RemoveAccounted(isolates: seq<Iso>, next: nat, running: multiset<Slot>, i: nat)
    requires Distinct(isolates, next) && Accounted(isolates, running) && i < |isolates| && isolates[i].active == 0
    ensures Distinct(RemoveAt(isolates, i), next) && Accounted(RemoveAt(isolates, i), running)
  {
    var rest := RemoveAt(isolates, i);
    assert forall j :: 0 <= j < |rest| ==> rest[j] == isolates[if j < i then j else j + 1];
    forall slot | slot in running ensures Hosted(rest, slot) {
      var j :| 0 <= j < |isolates| && SlotOf(isolates[j]) == slot;
      assert rest[if j < i then j else j - 1] == isolates[j];
    }
  }

  /** An idle isolate can go: no request loses its isolate, and as many are in use. */
  lemma RemoveIdle(c: Config, isolates: seq<Iso>, next: nat, running: multiset<Slot>, i: nat)
    requires Sound(c, isolates, next, running) && i < |isolates| && isolates[i].active == 0
    ensures Sound(c, RemoveAt(isolates, i), next, running) && InUse(RemoveAt(isolates, i)) == InUse(isolates)
  {
    RemoveAccounted(isolates, next, running, i);
    CountRemove(isolates, i, isolates[i].owner);
    forall owner ensures CountOwner(RemoveAt(isolates, i), owner) <= CountOwner(isolates, owner) {
      CountRemove(isolates, i, owner);
    }
  }

  lemma {:induction false} DropKeeps(c: Config, isolates: seq<Iso>, next: nat, running: multiset<Slot>, indices: seq<nat>)
    requires Sound(c, isolates, next, running)
    requires Increasing(indices) && (forall i :: 0 <= i < |indices| ==> indices[i] < |isolates| && isolates[indices[i]].active == 0)
    ensures Sound(c, DropAll(isolates, indices), next, running)
    ensures InUse(DropAll(isolates, indices)) == InUse(isolates) && |DropAll(isolates, indices)| == |isolates| - |indices|
    decreases |indices|
  {
    if indices != [] {
      var n := |indices| - 1;
      var rest := RemoveAt(isolates, indices[n]);
      RemoveIdle(c, isolates, next, running, indices[n]);
      assert forall i :: 0 <= i < n ==> rest[indices[i]] == isolates[indices[i]];
      DropKeeps(c, rest, next, running, indices[..n]);
    }
  }

  lemma ReclaimKeeps(c: Config, isolates: seq<Iso>, next: nat, running: multiset<Slot>)
    requires Sound(c, isolates, next, running)
    requires !c.limits.overcommit ==> |isolates| <= c.limits.maxIsolates
    ensures Sound(c, Reclaim(c, isolates), next, running) && SizeBounded(c, Reclaim(c, isolates))
  {
    var loads := Loads(isolates, c.maxConcurrent);
    var indices := Reclaimed(PoolLoad(loads, c.limits));
    LoadsCount(isolates, c.maxConcurrent, "");
    DropKeeps(c, isolates, next, running, indices);
  }

  lemma BuildAccounted(base: seq<Iso>, next: nat, running: multiset<Slot>, iso: Iso)
    requires Distinct(base, next) && Accounted(base, running) && iso.id == next && iso.active == 1
    ensures Distinct(base + [iso], next + 1)
    ensures Accounted(base + [iso], running + multiset{SlotOf(iso)})
  {
    var isolates := base + [iso];
    assert isolates[|base|] == iso;
    assert SlotOf(iso) !in running;
    forall slot | slot in running + multiset{SlotOf(iso)} ensures Hosted(isolates, slot) {
      if slot != SlotOf(iso) {
        var i :| 0 <= i < |base| && SlotOf(base[i]) == slot;
        assert isolates[i] == base[i];
      }
    }
  }

  lemma OwnersAfterBuild(c: Config, base: seq<Iso>, iso: Iso)
    requires OwnersBounded(c, base)
    requires c.limits.maxPerOwner.Some? ==> CountOwner(base, iso.owner) < c.limits.maxPerOwner.value
    ensures OwnersBounded(c, base + [iso])
  {
    forall owner | c.limits.maxPerOwner.Some? ensures CountOwner(base + [iso], owner) <= c.limits.maxPerOwner.value {
      CountAppend(base, [iso], owner);
      CountOne(iso, owner);
    }
  }

  lemma BuildKeeps(c: Config, p: PoolState, base: seq<Iso>, owner: string, now: Instant)
    requires Sound(c, base, p.next, p.running) && c.maxConcurrent >= 1
    requires c.limits.maxPerOwner.Some? ==> CountOwner(base, owner) < c.limits.maxPerOwner.value
    requires |base| < c.limits.maxIsolates || |base| == InUse(base)
    requires !c.limits.overcommit ==> |base| < c.limits.maxIsolates
    ensures Inv(c, Built(p, base, owner, now))
  {
    var iso := Iso(p.next, owner, 1, now, now);
    BuildAccounted(base, p.next, p.running, iso);
    OwnersAfterBuild(c, base, iso);
    CountAppend(base, [iso], owner);
    CountOne(iso, owner);
  }

  lemma UpdateAccounted(isolates: seq<Iso>, next: nat, running: multiset<Slot>, i: nat, iso: Iso)
    requires Distinct(isolates, next) && Accounted(isolates, running)
    requires i < |isolates| && SlotOf(iso) == SlotOf(isolates[i])
    ensures Distinct(isolates[i := iso], next)
    ensures Accounted(isolates[i := iso], running[SlotOf(iso) := iso.active])
  {
    var updated := isolates[i := iso];
    assert updated[i] == iso;
    forall slot | slot in running[SlotOf(iso) := iso.active] ensures Hosted(updated, slot) {
      if slot != SlotOf(iso) {
        var k :| 0 <= k < |isolates| && SlotOf(isolates[k]) == slot;
        assert updated[k] == isolates[k];
      }
    }
  }

  lemma OwnersAfterUpdate(c: Config, isolates: seq<Iso>, i: nat, iso: Iso)
    requires OwnersBounded(c, isolates) && i < |isolates| && iso.owner == isolates[i].owner
    ensures OwnersBounded(c, isolates[i := iso])
  {
    var updated := isolates[i := iso];
    forall owner | c.limits.maxPerOwner.Some? ensures CountOwner(updated, owner) <= c.limits.maxPerOwner.value {
      CountUpdate(isolates, i, iso, owner);
    }
  }

  lemma UpdateKeeps(c: Config, isolates: seq<Iso>, next: nat, running: multiset<Slot>, i: nat, iso: Iso)
    requires Sound(c, isolates, next, running) && i < |isolates| && iso.active <= c.maxConcurrent
    requires SlotOf(iso) == SlotOf(isolates[i])
    ensures Sound(c, isolates[i := iso], next, running[SlotOf(iso) := iso.active])
  {
    UpdateAccounted(isolates, next, running, i, iso);
    OwnersAfterUpdate(c, isolates, i, iso);
  }

  lemma TakeKeeps(c: Config, p: PoolState, i: nat)
    requires Inv(c, p) && i < |p.isolates| && p.isolates[i].active < c.maxConcurrent
    ensures var iso := p.isolates[i];
      Inv(c, p.(isolates := p.isolates[i := iso.(active := iso.active + 1)], running := p.running + multiset{SlotOf(iso)}))
  {
    var iso := p.isolates[i].(active := p.isolates[i].active + 1);
    UpdateKeeps(c, p.isolates, p.next, p.running, i, iso);
    CountUpdate(p.isolates, i, iso, iso.owner);
    assert p.running[SlotOf(iso) := iso.active] == p.running + multiset{SlotOf(iso)};
  }

  lemma ReuseKeeps(c: Config, p: PoolState, owner: string, now: Instant)
    requires Inv(c, p) && ChoiceFor(c, p.isolates, owner).Reuse?
    ensures Inv(c, Start(c, p, owner, now))
  {
    var i := ChoiceFor(c, p.isolates, owner).index;
    assert p.isolates[i].owner == owner && p.isolates[i].active < c.maxConcurrent;
    TakeKeeps(c, p, i);
  }

  lemma EvictKeeps(c: Config, p: PoolState, owner: string, now: Instant)
    requires Inv(c, p) && ChoiceFor(c, p.isolates, owner).Evict? && c.maxConcurrent >= 1
    ensures Inv(c, Start(c, p, owner, now))
  {
    var i := ChoiceFor(c, p.isolates, owner).index;
    LoadsCount(p.isolates, c.maxConcurrent, owner);
    RemoveIdle(c, p.isolates, p.next, p.running, i);
    CountRemove(p.isolates, i, owner);
    InUseAtMost(RemoveAt(p.isolates, i));
    BuildKeeps(c, p, RemoveAt(p.isolates, i), owner, now);
  }

  lemma StartKeeps(c: Config, p: PoolState, owner: string, now: Instant)
    requires Inv(c, p) && c.maxConcurrent >= 1
    ensures Inv(c, Start(c, p, owner, now))
  {
    hide Accounted, Distinct, Slotted;
    LoadsCount(p.isolates, c.maxConcurrent, owner);
    match ChoiceFor(c, p.isolates, owner)
    case Reuse(_) => ReuseKeeps(c, p, owner, now);
    case Build => BuildKeeps(c, p, p.isolates, owner, now);
    case Evict(_) => EvictKeeps(c, p, owner, now);
    case Overcommit =>
      NoneIdle(p.isolates);
      BuildKeeps(c, p, p.isolates, owner, now);
    case Refuse(_) =>
  }

  lemma {:induction false} NoneIdle(isolates: seq<Iso>)
    requires forall i :: 0 <= i < |isolates| ==> isolates[i].active > 0
    ensures InUse(isolates) == |isolates|
  {
    if isolates != [] { NoneIdle(isolates[..|isolates| - 1]); }
  }

  lemma FinishKeeps(c: Config, p: PoolState, slot: Slot, now: Instant)
    requires Inv(c, p)
    ensures Inv(c, Finish(c, p, slot, now))
  {
    var i := IndexOf(p.isolates, slot.iso);
    if slot in p.running && i < |p.isolates| && p.isolates[i].active > 0 {
      var iso := Left(p.isolates[i], now);
      var k :| 0 <= k < |p.isolates| && SlotOf(p.isolates[k]) == slot;
      UpdateKeeps(c, p.isolates, p.next, p.running, i, iso);
      assert p.running[SlotOf(iso) := iso.active] == p.running - multiset{slot};
      ReclaimKeeps(c, p.isolates[i := iso], p.next, p.running - multiset{slot});
    }
  }

  lemma TouchKeeps(c: Config, p: PoolState, id: nat, now: Instant)
    requires Inv(c, p)
    ensures Inv(c, Touch(p, id, now))
  {
    var i := IndexOf(p.isolates, id);
    if i < |p.isolates| {
      var iso := p.isolates[i].(lastUsed := now);
      UpdateKeeps(c, p.isolates, p.next, p.running, i, iso);
      CountUpdate(p.isolates, i, iso, "");
      assert p.running[SlotOf(iso) := iso.active] == p.running;
    }
  }

  // ---- times ----

  /** Nothing is later than now, and the last request of an idle isolate ended after it began. */
  ghost predicate Timed(isolates: seq<Iso>, clock: Instant) {
    forall i :: 0 <= i < |isolates| ==>
      && isolates[i].lastUsed <= clock && isolates[i].ended <= clock
      && (isolates[i].active == 0 ==> isolates[i].lastUsed <= isolates[i].ended)
  }

  lemma {:induction false} DropTimed(isolates: seq<Iso>, indices: seq<nat>, clock: Instant)
    requires Timed(isolates, clock)
    requires Increasing(indices) && (forall i :: 0 <= i < |indices| ==> indices[i] < |isolates|)
    ensures Timed(DropAll(isolates, indices), clock)
    decreases |indices|
  {
    if indices != [] {
      var n := |indices| - 1;
      var rest := RemoveAt(isolates, indices[n]);
      assert forall j :: 0 <= j < |rest| ==> rest[j] == isolates[if j < indices[n] then j else j + 1];
      DropTimed(rest, indices[..n], clock);
    }
  }

  lemma StartTimed(c: Config, p: PoolState, owner: string, now: Instant)
    requires Timed(p.isolates, now)
    ensures Timed(Start(c, p, owner, now).isolates, now)
  {
    var choice := ChoiceFor(c, p.isolates, owner);
    if choice.Evict? {
      var rest := RemoveAt(p.isolates, choice.index);
      assert forall j :: 0 <= j < |rest| ==> rest[j] == p.isolates[if j < choice.index then j else j + 1];
    }
  }

  lemma FinishTimed(c: Config, p: PoolState, slot: Slot, now: Instant)
    requires Timed(p.isolates, now)
    ensures Timed(Finish(c, p, slot, now).isolates, now)
  {
    var i := IndexOf(p.isolates, slot.iso);
    if slot in p.running && i < |p.isolates| && p.isolates[i].active > 0 {
      var isolates := p.isolates[i := Left(p.isolates[i], now)];
      DropTimed(isolates, Reclaimed(PoolLoad(Loads(isolates, c.maxConcurrent), c.limits)), now);
    }
  }

  /** A request that has yet to begin is on an isolate in use. */
  lemma TouchTimed(p: PoolState, slot: Slot, now: Instant)
    requires Timed(p.isolates, now) && Distinct(p.isolates, p.next) && Accounted(p.isolates, p.running) && slot in p.running
    ensures Timed(Touch(p, slot.iso, now).isolates, now)
  {
    var k :| 0 <= k < |p.isolates| && SlotOf(p.isolates[k]) == slot;
    assert IndexOf(p.isolates, slot.iso) == k;
  }

  lemma StartRuns(c: Config, p: PoolState, owner: string, now: Instant)
    ensures p.running <= Start(c, p, owner, now).running
  {
  }

  lemma FinishRuns(c: Config, p: PoolState, slot: Slot, now: Instant)
    ensures p.running - multiset{slot} <= Finish(c, p, slot, now).running
  {
  }

  // ---- over whole runs ----

  ghost predicate RunInv(c: Config, r: Run) {
    Inv(c, r.pool) && Timed(r.pool.isolates, r.clock) && r.arriving <= r.pool.running
  }

  lemma RequestKeeps(c: Config, r: Run, owner: string)
    requires RunInv(c, r) && c.maxConcurrent >= 1
    ensures RunInv(c, Do(c, r, Request(owner)))
  {
    hide Inv, Timed, Start;
    StartKeeps(c, r.pool, owner, r.clock);
    StartTimed(c, r.pool, owner, r.clock);
    StartRuns(c, r.pool, owner, r.clock);
  }

  lemma BeginKeeps(c: Config, r: Run, slot: Slot)
    requires RunInv(c, r)
    ensures RunInv(c, Do(c, r, Begin(slot)))
  {
    if slot in r.arriving {
      TouchKeeps(c, r.pool, slot.iso, r.clock);
      TouchTimed(r.pool, slot, r.clock);
      assert Touch(r.pool, slot.iso, r.clock).running == r.pool.running;
      hide Inv, Timed, Touch;
    }
  }

  lemma EndKeeps(c: Config, r: Run, slot: Slot)
    requires RunInv(c, r)
    ensures RunInv(c, Do(c, r, End(slot)))
  {
    hide Inv, Timed, Finish;
    FinishKeeps(c, r.pool, slot, r.clock);
    FinishTimed(c, r.pool, slot, r.clock);
    FinishRuns(c, r.pool, slot, r.clock);
  }

  lemma StepKeeps(c: Config, r: Run, step: Step)
    requires RunInv(c, r) && c.maxConcurrent >= 1
    ensures RunInv(c, Do(c, r, step))
  {
    match step
    case Tick(_) =>
    case Request(owner) => RequestKeeps(c, r, owner);
    case Begin(slot) => BeginKeeps(c, r, slot);
    case End(slot) => EndKeeps(c, r, slot);
  }

  lemma {:induction false} RunKeeps(c: Config, r: Run, steps: seq<Step>)
    requires RunInv(c, r) && c.maxConcurrent >= 1
    ensures RunInv(c, DoAll(c, r, steps))
    decreases |steps|
  {
    if steps != [] {
      StepKeeps(c, r, steps[0]);
      RunKeeps(c, Do(c, r, steps[0]), steps[1..]);
    }
  }

  /** After any requests of any owners: no owner is past its limit, the pool is past its
      ceiling only by isolates in use, and never without overcommit, no isolate has more
      requests than slots, and every request that runs still has an isolate of its owner. */
  lemma PoolOverRuns(c: Config, steps: seq<Step>)
    requires c.maxConcurrent >= 1
    ensures var p := DoAll(c, START, steps).pool;
      && (c.limits.maxPerOwner.Some? ==> forall owner :: CountOwner(p.isolates, owner) <= c.limits.maxPerOwner.value)
      && (|p.isolates| <= c.limits.maxIsolates || |p.isolates| == InUse(p.isolates))
      && (!c.limits.overcommit ==> |p.isolates| <= c.limits.maxIsolates)
      && (forall i :: 0 <= i < |p.isolates| ==> p.running[SlotOf(p.isolates[i])] == p.isolates[i].active <= c.maxConcurrent)
      && (forall slot :: slot in p.running ==> Hosted(p.isolates, slot))
  {
    assert RunInv(c, START);
    RunKeeps(c, START, steps);
    InUseAtMost(DoAll(c, START, steps).pool.isolates);
  }

  // ---- which isolate is evicted ----

  /** The last request of `a` ended no later than that of any idle isolate: `a` is the one
      that has been idle for longest. */
  predicate IdleForLongest(isolates: seq<Iso>, a: Iso) {
    forall i :: 0 <= i < |isolates| && isolates[i].active == 0 ==> a.ended <= isolates[i].ended
  }

  /** The last request of `b` began and ended while that of `a` still ran. */
  predicate Inside(b: Iso, a: Iso) {
    b.active == 0 && a.lastUsed <= b.lastUsed <= b.ended < a.ended
  }

  /** The pool evicts by the beginning of the last request. Over all runs the evicted isolate is
      the one idle for longest exactly when no idle isolate was used within the last use of
      the evicted one. */
  lemma EvictedIsIdleForLongest(c: Config, steps: seq<Step>, owner: string)
    requires c.maxConcurrent >= 1 && ChoiceFor(c, DoAll(c, START, steps).pool.isolates, owner).Evict?
    ensures var isolates := DoAll(c, START, steps).pool.isolates;
      var evicted := isolates[ChoiceFor(c, isolates, owner).index];
      IdleForLongest(isolates, evicted) <==> forall i :: 0 <= i < |isolates| ==> !Inside(isolates[i], evicted)
  {
    assert RunInv(c, START);
    RunKeeps(c, START, steps);
    var r := DoAll(c, START, steps);
    EvictedBeganFirst(c, r.pool.isolates, owner);
  }

  // ---- and a run in which it is not ----

  const TWO := Config(Limits(2, None, false), 1)
  const OF_A := Slot("a", 0)
  const OF_B := Slot("b", 1)

  ghost predicate Reached(c: Config, r: Run) { exists steps :: DoAll(c, START, steps) == r }

  lemma {:induction false} DoNext(c: Config, r: Run, steps: seq<Step>, step: Step)
    ensures DoAll(c, r, steps + [step]) == Do(c, DoAll(c, r, steps), step)
    decreases |steps|
  {
    if steps == [] {
      assert steps + [step] == [step] && [step][1..] == [];
    } else {
      assert (steps + [step])[1..] == steps[1..] + [step];
      DoNext(c, Do(c, r, steps[0]), steps[1..], step);
    }
  }

  lemma Go(c: Config, r: Run, step: Step, t: Run)
    requires Reached(c, r) && Do(c, r, step) == t
    ensures Reached(c, t)
  {
    var steps :| DoAll(c, START, steps) == r;
    DoNext(c, START, steps, step);
  }

  /** A request of an owner without an isolate, in a pool with room. */
  lemma BuildsOne(p: PoolState, owner: string, now: Instant)
    requires |p.isolates| < 2 && forall i :: 0 <= i < |p.isolates| ==> p.isolates[i].owner != owner
    ensures Start(TWO, p, owner, now) == Built(p, p.isolates, owner, now)
  {
    var loads := Loads(p.isolates, 1);
    assert forall i :: 0 <= i < |loads| ==> loads[i] == LoadOf(p.isolates[i], 1);
  }

  /** The end of the one request of an isolate, in a pool within its ceiling. */
  lemma EndsOne(p: PoolState, i: nat, now: Instant)
    requires i < |p.isolates| <= 2 && p.isolates[i].active == 1 && SlotOf(p.isolates[i]) in p.running
    requires forall j :: 0 <= j < |p.isolates| && j != i ==> p.isolates[j].id != p.isolates[i].id
    ensures Finish(TWO, p, SlotOf(p.isolates[i]), now) ==
      p.(isolates := p.isolates[i := Left(p.isolates[i], now)], running := p.running - multiset{SlotOf(p.isolates[i])})
  {
    assert IndexOf(p.isolates, p.isolates[i].id) == i;
    var isolates := p.isolates[i := Left(p.isolates[i], now)];
    assert Reclaimed(PoolLoad(Loads(isolates, 1), TWO.limits)) == [];
  }

  const FIRST := PoolState([Iso(0, "a", 1, 0, 0)], 1, multiset{OF_A})
  const BOTH := PoolState([Iso(0, "a", 1, 0, 0), Iso(1, "b", 1, 1, 1)], 2, multiset{OF_A, OF_B})
  const B_LEFT := PoolState([Iso(0, "a", 1, 0, 0), Iso(1, "b", 0, 1, 2)], 2, multiset{OF_A})
  const BOTH_LEFT := PoolState([Iso(0, "a", 0, 0, 3), Iso(1, "b", 0, 1, 2)], 2, multiset{})

  lemma BeginsA()
    ensures Reached(TWO, Run(FIRST, 0, multiset{}))
  {
    BuildsOne(EMPTY, "a", 0);
    assert Start(TWO, EMPTY, "a", 0) == FIRST && Touch(FIRST, 0, 0) == FIRST;
    assert DoAll(TWO, START, []) == START;
    hide Start, Touch, Finish;
    Go(TWO, START, Request("a"), Run(FIRST, 0, multiset{OF_A}));
    Go(TWO, Run(FIRST, 0, multiset{OF_A}), Begin(OF_A), Run(FIRST, 0, multiset{}));
  }

  lemma BeginsB()
    requires Reached(TWO, Run(FIRST, 0, multiset{}))
    ensures Reached(TWO, Run(BOTH, 1, multiset{}))
  {
    BuildsOne(FIRST, "b", 1);
    assert IndexOf(BOTH.isolates, 1) == 1;
    assert Start(TWO, FIRST, "b", 1) == BOTH && Touch(BOTH, 1, 1) == BOTH;
    assert BOTH.running - FIRST.running == multiset{OF_B};
    hide Start, Touch, Finish;
    Go(TWO, Run(FIRST, 0, multiset{}), Tick(1), Run(FIRST, 1, multiset{}));
    Go(TWO, Run(FIRST, 1, multiset{}), Request("b"), Run(BOTH, 1, multiset{OF_B}));
    Go(TWO, Run(BOTH, 1, multiset{OF_B}), Begin(OF_B), Run(BOTH, 1, multiset{}));
  }

  lemma EndsB()
    requires Reached(TWO, Run(BOTH, 1, multiset{}))
    ensures Reached(TWO, Run(B_LEFT, 2, multiset{}))
  {
    EndsOne(BOTH, 1, 2);
    assert BOTH.running - multiset{OF_B} == B_LEFT.running;
    assert Finish(TWO, BOTH, OF_B, 2) == B_LEFT;
    hide Start, Touch, Finish;
    Go(TWO, Run(BOTH, 1, multiset{}), Tick(1), Run(BOTH, 2, multiset{}));
    Go(TWO, Run(BOTH, 2, multiset{}), End(OF_B), Run(B_LEFT, 2, multiset{}));
  }

  lemma EndsA()
    requires Reached(TWO, Run(B_LEFT, 2, multiset{}))
    ensures Reached(TWO, Run(BOTH_LEFT, 3, multiset{}))
  {
    EndsOne(B_LEFT, 0, 3);
    assert B_LEFT.running - multiset{OF_A} == BOTH_LEFT.running;
    assert Finish(TWO, B_LEFT, OF_A, 3) == BOTH_LEFT;
    hide Start, Touch, Finish;
    Go(TWO, Run(B_LEFT, 2, multiset{}), Tick(1), Run(B_LEFT, 3, multiset{}));
    Go(TWO, Run(B_LEFT, 3, multiset{}), End(OF_A), Run(BOTH_LEFT, 3, multiset{}));
  }

  /** A pool of two in which a long request outlasts a short one: a third owner gets the place
      of the isolate that was in use until just now, and the one idle for longer stays. */
  lemma EvictsTheOneUsedLast() returns (r: Run)
    ensures Reached(TWO, r)
    ensures var isolates := r.pool.isolates;
      && ChoiceFor(TWO, isolates, "c") == Evict(0) && |isolates| == 2
      && isolates[1].active == 0 && isolates[1].ended < isolates[0].ended
      && !IdleForLongest(isolates, isolates[0])
  {
    BeginsA();
    BeginsB();
    EndsB();
    EndsA();
    r := Run(BOTH_LEFT, 3, multiset{});
    var loads := Loads(BOTH_LEFT.isolates, 1);
    assert loads[0] == IsolateLoad("a", true, Some(0)) && loads[1] == IsolateLoad("b", true, Some(1));
    assert ChoiceFor(TWO, BOTH_LEFT.isolates, "c").Evict?;
  }

  lemma EvictedBeganFirst(c: Config, isolates: seq<Iso>, owner: string)
    requires ChoiceFor(c, isolates, owner).Evict?
    ensures var evicted := isolates[ChoiceFor(c, isolates, owner).index];
      && evicted.active == 0
      && forall i :: 0 <= i < |isolates| && isolates[i].active == 0 ==> evicted.lastUsed <= isolates[i].lastUsed
  {
    var loads := Loads(isolates, c.maxConcurrent);
    assert forall i :: 0 <= i < |isolates| && isolates[i].active == 0 ==> loads[i].idleSince == Some(isolates[i].lastUsed);
  }

  lemma {:induction false} InUseAtMost(isolates: seq<Iso>)
    ensures InUse(isolates) <= |isolates|
  {
    if isolates != [] { InUseAtMost(isolates[..|isolates| - 1]); }
  }
}
