/**
 The pool of `Pool` performed in place, on isolates that its requests share: every method
 says which step of `Pool` it takes the pool through.
 */
module IsolatePool {
  import opened Options
  import opened PoolPolicy
  import opened Pool

  class TaggedIsolate {
    ghost const id: nat
    const owner: string
    const maxConcurrent: nat
    var active: nat
    var lastUsed: Instant
    ghost var ended: Instant

    constructor (ghost id: nat, owner: string, maxConcurrent: nat, now: Instant)
      ensures this.id == id && this.owner == owner && this.maxConcurrent == maxConcurrent
      ensures active == 0 && lastUsed == now && ended == now
    {
      this.id, this.owner, this.maxConcurrent := id, owner, maxConcurrent;
      active, lastUsed, ended := 0, now, now;
    }

    ghost function View(): Iso
      reads this
    {
      Iso(id, owner, active, lastUsed, ended)
    }

    /** The compare-and-exchange loop. A weak exchange fails `spurious` times for nothing,
        however many that is; a slot is taken exactly when one is free. */
    method TryAcquire(spurious: nat) returns (taken: bool)
      modifies `active
      ensures taken <==> old(active) < maxConcurrent
      ensures active == old(active) + if taken then 1 else 0
    {
      var left := spurious;
      while true
        invariant active == old(active)
        decreases left
      {
        var current := active;
        if current >= maxConcurrent { return false; }
        if left == 0 {
          active := current + 1;
          return true;
        }
        left := left - 1;
      }
    }

    method Release(ghost now: Instant)
      requires active > 0
      modifies `active, `ended
      ensures active == old(active) - 1 && ended == now
    {
      active := active - 1;
      ended := now;
    }

    /** A request that has its slot notes that it begins. */
    method Begin(now: Instant)
      modifies `lastUsed
      ensures View() == old(View()).(lastUsed := now)
    {
      lastUsed := now;
    }

    method Load() returns (load: IsolateLoad)
      ensures load == LoadOf(View(), maxConcurrent)
    {
      load := IsolateLoad(owner, active < maxConcurrent, if active == 0 then Some(lastUsed) else None);
    }
  }

  datatype Acquired = Granted(isolate: TaggedIsolate, cacheHit: bool) | Refused(refusal: Refusal)

  predicate AnswerTo(choice: PoolPolicy.Acquire, r: Acquired) {
    match choice
    case Refuse(refusal) => r == Refused(refusal)
    case Reuse(_) => r.Granted? && r.cacheHit
    case _ => r.Granted? && !r.cacheHit
  }

  lemma FoundAt(isolates: seq<Iso>, i: nat)
    requires i < |isolates| && forall j :: 0 <= j < i ==> isolates[j].id != isolates[i].id
    ensures IndexOf(isolates, isolates[i].id) == i
  {
  }

  lemma DropLast(isolates: seq<Iso>, indices: seq<nat>, n: nat)
    requires n < |indices| && Increasing(indices) && (forall i :: 0 <= i <= n ==> indices[i] < |isolates|)
    ensures Increasing(indices[..n]) && Increasing(indices[..n + 1])
    ensures forall i :: 0 <= i < n ==> indices[i] < |RemoveAt(isolates, indices[n])|
    ensures DropAll(isolates, indices[..n + 1]) == DropAll(RemoveAt(isolates, indices[n]), indices[..n])
  {
    assert indices[..n + 1][..n] == indices[..n];
  }

  function Taken(p: PoolState, i: nat): PoolState
    requires i < |p.isolates|
  {
    p.(isolates := p.isolates[i := p.isolates[i].(active := p.isolates[i].active + 1)],
       running := p.running + multiset{SlotOf(p.isolates[i])})
  }

  function Given(p: PoolState, i: nat, now: Instant): PoolState
    requires i < |p.isolates| && p.isolates[i].active > 0
  {
    p.(isolates := p.isolates[i := Left(p.isolates[i], now)],
       running := p.running - multiset{SlotOf(p.isolates[i])})
  }

  lemma FinishBy(c: Config, p: PoolState, i: nat, now: Instant)
    requires i < |p.isolates| && p.isolates[i].active > 0 && SlotOf(p.isolates[i]) in p.running
    requires forall j :: 0 <= j < i ==> p.isolates[j].id != p.isolates[i].id
    ensures Finish(c, p, SlotOf(p.isolates[i]), now) == Given(p, i, now).(isolates := Reclaim(c, Given(p, i, now).isolates))
  {
    FoundAt(p.isolates, i);
  }

  class ThreadLocalPool {
    const config: Config
    var isolates: seq<TaggedIsolate>
    ghost var next: nat
    ghost var running: multiset<Slot>

    constructor (config: Config)
      requires config.maxConcurrent >= 1
      ensures this.config == config && Valid() && View() == EMPTY
      ensures fresh(this)
    {
      this.config := config;
      isolates, next, running := [], 0, multiset{};
    }

    /** The isolates are apart and of this configuration. */
    ghost predicate Shape()
      reads this, isolates
    {
      && (forall i :: 0 <= i < |isolates| ==> isolates[i].maxConcurrent == config.maxConcurrent)
      && (forall i, j :: 0 <= i < j < |isolates| ==> isolates[i] != isolates[j])
    }

    /** And the pool is as every run of requests leaves it. */
    ghost predicate Valid()
      reads this, isolates
    {
      Shape() && config.maxConcurrent >= 1 && Inv(config, View())
    }

    ghost function Snapshot(): (s: seq<Iso>)
      reads this, isolates
      ensures |s| == |isolates|
      ensures forall i :: 0 <= i < |s| ==> s[i] == isolates[i].View()
    {
      seq(|isolates|, i requires 0 <= i < |isolates| reads this, isolates => isolates[i].View())
    }

    ghost function View(): PoolState
      reads this, isolates
    {
      PoolState(Snapshot(), next, running)
    }

    method Load() returns (load: PoolLoad)
      requires Shape()
      ensures load == PoolLoad(Loads(Snapshot(), config.maxConcurrent), config.limits)
    {
      var loads: seq<IsolateLoad> := [];
      for i := 0 to |isolates|
        invariant |loads| == i
        invariant forall k :: 0 <= k < i ==> loads[k] == LoadOf(isolates[k].View(), config.maxConcurrent)
      {
        var one := isolates[i].Load();
        loads := loads + [one];
      }
      assert loads == Loads(Snapshot(), config.maxConcurrent);
      load := PoolLoad(loads, config.limits);
    }

    /** A slot of the isolate at `index`; the exchange that the code asserts to succeed does. */
    method TakeSlot(isolate: TaggedIsolate, ghost index: nat, spurious: nat)
      requires Shape() && index < |isolates| && isolates[index] == isolate && isolate.active < config.maxConcurrent
      modifies `running, isolate`active
      ensures Shape() && View() == Taken(old(View()), index)
    {
      var taken := isolate.TryAcquire(spurious);
      assert taken;
      running := running + multiset{Slot(isolate.owner, isolate.id)};
    }

    method Remove(index: nat)
      requires Shape() && index < |isolates|
      modifies `isolates
      ensures Shape() && isolates == RemoveAt(old(isolates), index) && Snapshot() == RemoveAt(old(Snapshot()), index)
      ensures forall isolate :: isolate in old(isolates) && isolate != old(isolates)[index] ==> isolate in isolates
    {
      isolates := RemoveAt(isolates, index);
      assert forall i :: 0 <= i < |isolates| ==> isolates[i] == old(isolates)[if i < index then i else i + 1];
      forall isolate | isolate in old(isolates) && isolate != old(isolates)[index] ensures isolate in isolates {
        var i :| 0 <= i < |old(isolates)| && old(isolates)[i] == isolate;
        assert isolates[if i < index then i else i - 1] == isolate;
      }
    }

    method Decide(owner: string) returns (choice: PoolPolicy.Acquire)
      requires Shape()
      ensures choice == ChoiceFor(config, Snapshot(), owner)
      ensures InRange(choice, |isolates|)
      ensures choice.Reuse? ==> isolates[choice.index].owner == owner && isolates[choice.index].active < config.maxConcurrent
    {
      var load := Load();
      choice := Choose(load, owner);
    }

    /** What an owner gets is a slot of an isolate of its own, or the refusal of the policy. */
    method Acquire(owner: string, now: Instant, spurious: nat) returns (r: Acquired)
      requires Valid()
      modifies this, isolates
      ensures Valid() && View() == Start(config, old(View()), owner, now)
      ensures r.Granted? ==> r.isolate in isolates && r.isolate.owner == owner
      ensures r.Granted? ==> running == old(running) + multiset{Slot(owner, r.isolate.id)}
      ensures r.Granted? ==> if r.cacheHit then r.isolate in old(isolates) else fresh(r.isolate)
      ensures AnswerTo(ChoiceFor(config, old(Snapshot()), owner), r)
    {
      hide Inv, Performed, ChoiceFor, Choose;
      StartKeeps(config, View(), owner, now);
      var choice := Decide(owner);
      r := Perform(choice, owner, now, spurious);
    }

    method Perform(choice: PoolPolicy.Acquire, owner: string, now: Instant, spurious: nat) returns (r: Acquired)
      requires Shape() && config.maxConcurrent >= 1 && InRange(choice, |isolates|)
      requires choice.Reuse? ==> isolates[choice.index].owner == owner && isolates[choice.index].active < config.maxConcurrent
      modifies this, isolates
      ensures Shape() && View() == Performed(old(View()), choice, owner, now)
      ensures r.Granted? ==> r.isolate in isolates && r.isolate.owner == owner
      ensures r.Granted? ==> running == old(running) + multiset{Slot(owner, r.isolate.id)}
      ensures r.Granted? ==> if r.cacheHit then r.isolate in old(isolates) else fresh(r.isolate)
      ensures AnswerTo(choice, r)
    {
      match choice {
        case Reuse(index) =>
          var isolate := isolates[index];
          TakeSlot(isolate, index, spurious);
          r := Granted(isolate, true);
        case Build => r := Construct(owner, now, spurious);
        case Evict(index) =>
          Remove(index);
          r := Construct(owner, now, spurious);
        case Overcommit => r := Construct(owner, now, spurious);
        case Refuse(refusal) => r := Refused(refusal);
      }
    }

    /** A new isolate, whose first slot is the request's; the asserted exchange succeeds. */
    method Construct(owner: string, now: Instant, spurious: nat) returns (r: Acquired)
      requires Shape() && config.maxConcurrent >= 1
      modifies this
      ensures Shape() && View() == Built(old(View()), old(Snapshot()), owner, now)
      ensures r.Granted? && !r.cacheHit && fresh(r.isolate) && r.isolate.owner == owner && r.isolate.id == old(next)
      ensures isolates == old(isolates) + [r.isolate]
    {
      var isolate := new TaggedIsolate(next, owner, config.maxConcurrent, now);
      var taken := isolate.TryAcquire(spurious);
      assert taken;
      isolates := isolates + [isolate];
      running := running + multiset{Slot(owner, next)};
      next := next + 1;
      assert Snapshot() == old(Snapshot()) + [isolate.View()];
      r := Granted(isolate, false);
    }

    /** Idle isolates beyond the ceiling are removed, from the back, so that no index moves
        before it is used; an isolate in use stays. */
    method ReclaimIdle()
      requires Shape()
      modifies `isolates
      ensures Shape() && Snapshot() == Reclaim(config, old(Snapshot()))
      ensures forall isolate :: isolate in old(isolates) && isolate.active > 0 ==> isolate in isolates
    {
      hide Reclaimed, DropAll, Loads;
      var indices := IdleExcess();
      DropIndices(indices);
    }

    method IdleExcess() returns (indices: seq<nat>)
      requires Shape()
      ensures indices == Reclaimed(PoolLoad(Loads(Snapshot(), config.maxConcurrent), config.limits))
      ensures Increasing(indices)
      ensures forall i :: 0 <= i < |indices| ==> indices[i] < |isolates| && isolates[indices[i]].active == 0
    {
      var load := Load();
      indices := Reclaimed(load);
    }

    method DropIndices(indices: seq<nat>)
      requires Shape() && Increasing(indices)
      requires forall i :: 0 <= i < |indices| ==> indices[i] < |isolates| && isolates[indices[i]].active == 0
      modifies `isolates
      ensures Shape() && Snapshot() == DropAll(old(Snapshot()), indices)
      ensures forall isolate :: isolate in old(isolates) && isolate.active > 0 ==> isolate in isolates
    {
      ghost var before := Snapshot();
      var n: nat := |indices|;
      assert indices[..n] == indices;
      while n > 0
        invariant n <= |indices| && Shape() && Increasing(indices[..n])
        invariant forall i :: 0 <= i < n ==> indices[i] < |isolates| && isolates[indices[i]].active == 0
        invariant DropAll(Snapshot(), indices[..n]) == DropAll(before, indices)
        invariant forall isolate :: isolate in old(isolates) && isolate.active > 0 ==> isolate in isolates
      {
        n := n - 1;
        DropLast(Snapshot(), indices, n);
        Remove(indices[n]);
      }
    }

    /** A request that got its slot begins: the time is noted on its isolate. */
    method BeginOn(isolate: TaggedIsolate, now: Instant)
      requires Valid() && isolate in isolates && isolate.active > 0
      modifies isolate`lastUsed
      ensures Valid() && View() == Touch(old(View()), isolate.id, now)
    {
      hide Inv;
      ghost var i := PlaceOf(isolate);
      TouchKeeps(config, View(), isolate.id, now);
      FoundAt(Snapshot(), i);
      ghost var before := Snapshot();
      isolate.Begin(now);
      assert Snapshot() == before[i := isolate.View()];
    }

    /** A request ends: its slot goes back, then the pool is cut to its ceiling. */
    method ReleaseSlot(isolate: TaggedIsolate, ghost now: Instant)
      requires Valid() && isolate in isolates && isolate.active > 0
      modifies `isolates, `running, isolate`active, isolate`ended
      ensures Valid() && View() == Finish(config, old(View()), SlotOf(old(isolate.View())), now)
    {
      hide Inv, Finish, Given, Reclaim;
      ghost var i := PlaceOf(isolate);
      FinishKeeps(config, View(), SlotOf(isolate.View()), now);
      FinishBy(config, View(), i, now);
      GiveSlot(isolate, i, now);
      ReclaimIdle();
    }

    /** An isolate in use is in one place, and its slot is of a request that runs. */
    ghost method PlaceOf(isolate: TaggedIsolate) returns (i: nat)
      requires Valid() && isolate in isolates && isolate.active > 0
      ensures i < |isolates| && isolates[i] == isolate && SlotOf(Snapshot()[i]) in running
      ensures forall j :: 0 <= j < i ==> Snapshot()[j].id != Snapshot()[i].id
    {
      i :| i < |isolates| && isolates[i] == isolate;
      assert Snapshot()[i] == isolate.View();
    }

    method GiveSlot(isolate: TaggedIsolate, ghost index: nat, ghost now: Instant)
      requires Shape() && index < |isolates| && isolates[index] == isolate && isolate.active > 0
      modifies `running, isolate`active, isolate`ended
      ensures Shape() && View() == Given(old(View()), index, now)
    {
      isolate.Release(now);
      running := running - multiset{SlotOf(isolate.View())};
    }
  }
}
