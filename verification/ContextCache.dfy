/**
 The warm contexts of one isolate: a request takes the cached context of its own deployment
 or builds one, sweeps the ones its deployment replaced, and gives its context back if a
 later request may still use it. Requests overlap, so a context can come back to a cache
 that changed meanwhile.
 */
module ContextCache {
  import opened Options
  import opened PoolPolicy

  datatype Context = Context(id: nat, key: ContextKey, reuses: nat, lastUsed: Instant)

  /** A context that serves a request, and the key the request asked for. */
  datatype Use = Use(context: Context, wanted: ContextKey)

  datatype Bounds = Bounds(maxCached: nat, maxReuses: nat)

  /** `dropped` is every context that is gone, `served` the contexts requests ran in. */
  datatype State = State(cached: seq<Context>, inUse: seq<Use>, dropped: seq<Context>, next: nat, served: multiset<nat>)

  const EMPTY := State([], [], [], 0, multiset{})

  function SwapRemove(s: seq<Context>, i: nat): (r: seq<Context>)
    requires i < |s|
    ensures |r| == |s| - 1
  {
    if i == |s| - 1 then s[..i] else s[..|s| - 1][i := s[|s| - 1]]
  }

  function Keys(cached: seq<Context>): (keys: seq<(ContextKey, nat)>)
    ensures |keys| == |cached|
    ensures forall i :: 0 <= i < |cached| ==> keys[i] == (cached[i].key, cached[i].reuses)
  {
    seq(|cached|, i requires 0 <= i < |cached| => (cached[i].key, cached[i].reuses))
  }

  function LastUsed(cached: seq<Context>): (times: seq<Instant>)
    ensures |times| == |cached|
    ensures forall i :: 0 <= i < |cached| ==> times[i] == cached[i].lastUsed
  {
    seq(|cached|, i requires 0 <= i < |cached| => cached[i].lastUsed)
  }

  /** The sweep from `i` on: what stays, and what goes in the order it is met. */
  function Sweep(cached: seq<Context>, i: nat, wanted: ContextKey): (r: (seq<Context>, seq<Context>))
    requires i <= |cached|
    decreases |cached| - i
  {
    if i == |cached| then (cached, [])
    else if Superseded(cached[i].key, wanted) then
      var rest := Sweep(SwapRemove(cached, i), i, wanted);
      (rest.0, [cached[i]] + rest.1)
    else Sweep(cached, i + 1, wanted)
  }

  // ---- what a request does to the cache ----

  function DropAt(s: State, i: nat): State
    requires i < |s.cached|
  {
    s.(cached := SwapRemove(s.cached, i), dropped := s.dropped + [s.cached[i]])
  }

  function Warm(s: State, i: nat, wanted: ContextKey): State
    requires i < |s.cached|
  {
    var context := s.cached[i];
    s.(cached := SwapRemove(s.cached, i),
       inUse := s.inUse + [Use(context.(reuses := context.reuses + 1), wanted)],
       served := s.served + multiset{context.id})
  }

  function Swept(s: State, wanted: ContextKey): State {
    var (kept, swept) := Sweep(s.cached, 0, wanted);
    s.(cached := kept, dropped := s.dropped + swept)
  }

  function Cold(s: State, wanted: ContextKey, now: Instant): State {
    s.(inUse := s.inUse + [Use(Context(s.next, wanted, 1, now), wanted)],
       next := s.next + 1,
       served := s.served + multiset{s.next})
  }

  /** A request of `wanted` takes the warm context, if one is there and can be reset, and
      otherwise builds its own; either way the contexts its deployment replaced go. */
  function Begin(b: Bounds, s: State, wanted: ContextKey, resets: bool, builds: bool, now: Instant): State {
    var i := WarmHit(Keys(s.cached), wanted, b.maxReuses);
    if i < |s.cached| && resets then Swept(Warm(s, i, wanted), wanted)
    else
      var s1 := Swept(if i < |s.cached| then DropAt(s, i) else s, wanted);
      if builds then Cold(s1, wanted, now) else s1
  }

  function Removed(inUse: seq<Use>, k: nat): seq<Use>
    requires k < |inUse|
  {
    inUse[..k] + inUse[k + 1..]
  }

  function Discard(s: State, k: nat): State
    requires k < |s.inUse|
  {
    s.(inUse := Removed(s.inUse, k), dropped := s.dropped + [s.inUse[k].context])
  }

  function GiveBack(s: State, k: nat, now: Instant): State
    requires k < |s.inUse|
  {
    s.(inUse := Removed(s.inUse, k), cached := s.cached + [s.inUse[k].context.(lastUsed := now)])
  }

  /** The context of an ended request goes to the cache, in the place of the one unused for
      longest when the cache is full, or it is dropped. */
  function End(b: Bounds, s: State, k: nat, ok: bool, now: Instant): State {
    if k >= |s.inUse| then s
    else if ok && KeepContext(s.inUse[k].context.reuses, b.maxReuses, b.maxCached) then
      var i := CacheEvict(LastUsed(s.cached), b.maxCached);
      GiveBack(if i < |s.cached| then DropAt(s, i) else s, k, now)
    else Discard(s, k)
  }

  /** `resets` is whether the warm context could be reset, `builds` whether a cold one could
      be created, `ok` whether the request and what it left behind ended well. */
  datatype Step =
    | BeginRequest(wanted: ContextKey, resets: bool, builds: bool, now: Instant)
    | EndRequest(k: nat, ok: bool, now: Instant)

  function Do(b: Bounds, s: State, step: Step): State {
    match step
    case BeginRequest(wanted, resets, builds, now) => Begin(b, s, wanted, resets, builds, now)
    case EndRequest(k, ok, now) => End(b, s, k, ok, now)
  }

  function DoAll(b: Bounds, s: State, steps: seq<Step>): State
    decreases |steps|
  {
    if steps == [] then s else DoAll(b, Do(b, s, steps[0]), steps[1..])
  }

  // ---- the sweep ----

  lemma Swapped(s: seq<Context>, i: nat)
    requires i < |s|
    ensures multiset(s) == multiset(SwapRemove(s, i)) + multiset{s[i]}
  {
    var n := |s| - 1;
    assert s == s[..n] + [s[n]];
    if i < n { assert multiset(s[..n][i := s[n]]) == multiset(s[..n]) - multiset{s[i]} + multiset{s[n]}; }
  }

  lemma Prepended(context: Context, s: seq<Context>)
    ensures multiset([context] + s) == multiset{context} + multiset(s)
  {
  }

  lemma {:induction false} SweepLosesNone(cached: seq<Context>, i: nat, wanted: ContextKey)
    requires i <= |cached|
    ensures multiset(Sweep(cached, i, wanted).0) + multiset(Sweep(cached, i, wanted).1) == multiset(cached)
    decreases |cached| - i
  {
    if i < |cached| {
      if Superseded(cached[i].key, wanted) {
        var rest := SwapRemove(cached, i);
        Swapped(cached, i);
        SweepLosesNone(rest, i, wanted);
        Prepended(cached[i], Sweep(rest, i, wanted).1);
      } else {
        SweepLosesNone(cached, i + 1, wanted);
      }
    }
  }

  ghost predicate NoneSuperseded(s: seq<Context>, wanted: ContextKey) {
    forall k :: 0 <= k < |s| ==> !Superseded(s[k].key, wanted)
  }

  ghost predicate AllSuperseded(s: seq<Context>, wanted: ContextKey) {
    forall k :: 0 <= k < |s| ==> Superseded(s[k].key, wanted)
  }

  lemma {:induction false} SweepParts(cached: seq<Context>, i: nat, wanted: ContextKey)
    requires i <= |cached| && NoneSuperseded(cached[..i], wanted)
    ensures NoneSuperseded(Sweep(cached, i, wanted).0, wanted) && AllSuperseded(Sweep(cached, i, wanted).1, wanted)
    decreases |cached| - i
  {
    if i == |cached| {
      assert cached[..i] == cached;
    } else {
      if Superseded(cached[i].key, wanted) {
        var rest := SwapRemove(cached, i);
        assert rest[..i] == cached[..i];
        SweepParts(rest, i, wanted);
      } else {
        SweepParts(cached, i + 1, wanted);
      }
    }
  }

  /** The sweep drops exactly the contexts that the wanted deployment replaced, each once,
      whatever order the swapping leaves them in. */
  lemma SweepIsExact(cached: seq<Context>, wanted: ContextKey)
    ensures var (kept, swept) := Sweep(cached, 0, wanted);
      && multiset(kept) + multiset(swept) == multiset(cached)
      && NoneSuperseded(kept, wanted)
      && AllSuperseded(swept, wanted)
  {
    SweepLosesNone(cached, 0, wanted);
    SweepParts(cached, 0, wanted);
  }

  /** The loop itself. */
  method SweepSuperseded(cached: seq<Context>, wanted: ContextKey) returns (kept: seq<Context>, superseded: seq<Context>)
    ensures (kept, superseded) == Sweep(cached, 0, wanted)
    ensures multiset(kept) + multiset(superseded) == multiset(cached)
    ensures NoneSuperseded(kept, wanted) && AllSuperseded(superseded, wanted)
  {
    kept, superseded := cached, [];
    var i := 0;
    while i < |kept|
      invariant i <= |kept|
      invariant Sweep(cached, 0, wanted).0 == Sweep(kept, i, wanted).0
      invariant Sweep(cached, 0, wanted).1 == superseded + Sweep(kept, i, wanted).1
      decreases |kept| - i
    {
      if Superseded(kept[i].key, wanted) {
        ghost var rest := Sweep(SwapRemove(kept, i), i, wanted);
        assert superseded + ([kept[i]] + rest.1) == (superseded + [kept[i]]) + rest.1;
        superseded := superseded + [kept[i]];
        kept := SwapRemove(kept, i);
      } else {
        i := i + 1;
      }
    }
    assert superseded + [] == superseded;
    SweepIsExact(cached, wanted);
  }

  // ---- where each context is ----

  function Holds(s: seq<Context>, id: nat): nat {
    if s == [] then 0 else Holds(s[..|s| - 1], id) + if s[|s| - 1].id == id then 1 else 0
  }

  function Runs(inUse: seq<Use>, id: nat): nat {
    if inUse == [] then 0 else Runs(inUse[..|inUse| - 1], id) + if inUse[|inUse| - 1].context.id == id then 1 else 0
  }

  lemma {:induction false} HoldsAppend(a: seq<Context>, b: seq<Context>, id: nat)
    ensures Holds(a + b, id) == Holds(a, id) + Holds(b, id)
  {
    if b == [] { assert a + b == a; } else {
      assert (a + b)[..|a + b| - 1] == a + b[..|b| - 1];
      HoldsAppend(a, b[..|b| - 1], id);
    }
  }

  lemma {:induction false} RunsAppend(a: seq<Use>, b: seq<Use>, id: nat)
    ensures Runs(a + b, id) == Runs(a, id) + Runs(b, id)
  {
    if b == [] { assert a + b == a; } else {
      assert (a + b)[..|a + b| - 1] == a + b[..|b| - 1];
      RunsAppend(a, b[..|b| - 1], id);
    }
  }

  lemma HoldsOne(context: Context, id: nat)
    ensures Holds([context], id) == if context.id == id then 1 else 0
  {
    assert [context][..0] == [];
  }

  lemma RunsOne(use: Use, id: nat)
    ensures Runs([use], id) == if use.context.id == id then 1 else 0
  {
    assert [use][..0] == [];
  }

  lemma HoldsSplit(s: seq<Context>, i: nat, id: nat)
    requires i < |s|
    ensures Holds(s, id) == Holds(s[..i], id) + Holds([s[i]], id) + Holds(s[i + 1..], id)
  {
    assert s == s[..i] + ([s[i]] + s[i + 1..]);
    HoldsAppend(s[..i], [s[i]] + s[i + 1..], id);
    HoldsAppend([s[i]], s[i + 1..], id);
  }

  lemma HoldsSwap(s: seq<Context>, i: nat, id: nat)
    requires i < |s|
    ensures Holds(s, id) == Holds(SwapRemove(s, i), id) + if s[i].id == id then 1 else 0
  {
    var n := |s| - 1;
    HoldsSplit(s, n, id);
    HoldsOne(s[n], id);
    assert s[n + 1..] == [];
    if i < n {
      var before, after := s[..n], s[..n][i := s[n]];
      assert after[..i] == before[..i] && after[i + 1..] == before[i + 1..];
      HoldsSplit(before, i, id);
      HoldsSplit(after, i, id);
      HoldsOne(s[i], id);
    }
  }

  lemma {:induction false} HoldsSweep(cached: seq<Context>, i: nat, wanted: ContextKey, id: nat)
    requires i <= |cached|
    ensures Holds(cached, id) == Holds(Sweep(cached, i, wanted).0, id) + Holds(Sweep(cached, i, wanted).1, id)
    decreases |cached| - i
  {
    if i < |cached| {
      if Superseded(cached[i].key, wanted) {
        var rest := SwapRemove(cached, i);
        HoldsSwap(cached, i, id);
        HoldsSweep(rest, i, wanted, id);
        HoldsAppend([cached[i]], Sweep(rest, i, wanted).1, id);
        HoldsOne(cached[i], id);
      } else {
        HoldsSweep(cached, i + 1, wanted, id);
      }
    }
  }

  lemma RunsRemove(inUse: seq<Use>, k: nat, id: nat)
    requires k < |inUse|
    ensures Runs(inUse, id) == Runs(Removed(inUse, k), id) + if inUse[k].context.id == id then 1 else 0
  {
    assert inUse == inUse[..k] + ([inUse[k]] + inUse[k + 1..]);
    RunsAppend(inUse[..k], [inUse[k]] + inUse[k + 1..], id);
    RunsAppend([inUse[k]], inUse[k + 1..], id);
    RunsAppend(inUse[..k], inUse[k + 1..], id);
    RunsOne(inUse[k], id);
  }

  lemma {:induction false} HoldsAt(s: seq<Context>, i: nat)
    requires i < |s|
    ensures Holds(s, s[i].id) >= 1
  {
    if i < |s| - 1 { HoldsAt(s[..|s| - 1], i); }
  }

  lemma {:induction false} RunsAt(inUse: seq<Use>, k: nat)
    requires k < |inUse|
    ensures Runs(inUse, inUse[k].context.id) >= 1
  {
    if k < |inUse| - 1 { RunsAt(inUse[..|inUse| - 1], k); }
  }

  // ---- what every run keeps ----

  function Most(b: Bounds): nat { if b.maxReuses == 0 then 1 else b.maxReuses }

  /** How often a context is in the cache, in use or among the dropped. */
  function Places(s: State, id: nat): nat {
    Holds(s.cached, id) + Runs(s.inUse, id) + Holds(s.dropped, id)
  }

  /** Every context ever built is in exactly one place. */
  ghost predicate Conserved(s: State) {
    forall id: nat :: Places(s, id) == if id < s.next then 1 else 0
  }

  ghost predicate CachedTakeable(b: Bounds, cached: seq<Context>, served: multiset<nat>) {
    forall i :: 0 <= i < |cached| ==> 1 <= cached[i].reuses < b.maxReuses && served[cached[i].id] == cached[i].reuses
  }

  ghost predicate UsesMatch(b: Bounds, inUse: seq<Use>, served: multiset<nat>) {
    forall k :: 0 <= k < |inUse| ==>
      && inUse[k].context.key == inUse[k].wanted
      && 1 <= inUse[k].context.reuses <= Most(b)
      && served[inUse[k].context.id] == inUse[k].context.reuses
  }

  ghost predicate ServedBounded(b: Bounds, next: nat, served: multiset<nat>) {
    forall id: nat :: served[id] <= if id < next then Most(b) else 0
  }

  ghost predicate Counted(b: Bounds, s: State) {
    && |s.cached| <= b.maxCached
    && CachedTakeable(b, s.cached, s.served)
    && UsesMatch(b, s.inUse, s.served)
    && ServedBounded(b, s.next, s.served)
  }

  ghost predicate Inv(b: Bounds, s: State) { Conserved(s) && Counted(b, s) }

  lemma DropAtKeeps(b: Bounds, s: State, i: nat)
    requires Inv(b, s) && i < |s.cached|
    ensures Inv(b, DropAt(s, i))
  {
    forall id: nat ensures Places(DropAt(s, i), id) == Places(s, id) {
      HoldsSwap(s.cached, i, id);
      HoldsAppend(s.dropped, [s.cached[i]], id);
      HoldsOne(s.cached[i], id);
    }
  }

  /** No other context, cached or in use, has the id of a cached one. */
  lemma Alone(s: State, i: nat)
    requires Conserved(s) && i < |s.cached|
    ensures var rest := SwapRemove(s.cached, i); forall j :: 0 <= j < |rest| ==> rest[j].id != s.cached[i].id
    ensures forall k :: 0 <= k < |s.inUse| ==> s.inUse[k].context.id != s.cached[i].id
    ensures s.cached[i].id < s.next
  {
    var id := s.cached[i].id;
    var rest := SwapRemove(s.cached, i);
    HoldsSwap(s.cached, i, id);
    assert Places(s, id) <= 1;
    forall j | 0 <= j < |rest| ensures rest[j].id != id { HoldsAt(rest, j); }
    forall k | 0 <= k < |s.inUse| ensures s.inUse[k].context.id != id { RunsAt(s.inUse, k); }
  }

  lemma Unbuilt(s: State)
    requires Conserved(s)
    ensures forall i :: 0 <= i < |s.cached| ==> s.cached[i].id != s.next
    ensures forall k :: 0 <= k < |s.inUse| ==> s.inUse[k].context.id != s.next
  {
    assert Places(s, s.next) == 0;
    forall i | 0 <= i < |s.cached| ensures s.cached[i].id != s.next { HoldsAt(s.cached, i); }
    forall k | 0 <= k < |s.inUse| ensures s.inUse[k].context.id != s.next { RunsAt(s.inUse, k); }
  }

  lemma WarmConserves(s: State, i: nat, wanted: ContextKey)
    requires Conserved(s) && i < |s.cached|
    ensures Conserved(Warm(s, i, wanted))
  {
    var use := Use(s.cached[i].(reuses := s.cached[i].reuses + 1), wanted);
    forall id: nat ensures Places(Warm(s, i, wanted), id) == Places(s, id) {
      HoldsSwap(s.cached, i, id);
      RunsAppend(s.inUse, [use], id);
      RunsOne(use, id);
    }
  }

  lemma WarmCounts(b: Bounds, s: State, i: nat, wanted: ContextKey)
    requires Inv(b, s) && i < |s.cached| && s.cached[i].key == wanted
    ensures Counted(b, Warm(s, i, wanted))
  {
    Alone(s, i);
  }

  lemma SweptKeeps(b: Bounds, s: State, wanted: ContextKey)
    requires Inv(b, s)
    ensures Inv(b, Swept(s, wanted))
    ensures NoneSuperseded(Swept(s, wanted).cached, wanted)
  {
    var (kept, swept) := Sweep(s.cached, 0, wanted);
    SweepIsExact(s.cached, wanted);
    assert |multiset(kept)| + |multiset(swept)| == |multiset(s.cached)|;
    forall i | 0 <= i < |kept| ensures kept[i] in s.cached {
      assert kept[i] in multiset(kept) + multiset(swept);
    }
    forall id: nat ensures Places(Swept(s, wanted), id) == Places(s, id) {
      HoldsSweep(s.cached, 0, wanted, id);
      HoldsAppend(s.dropped, swept, id);
    }
  }

  lemma ColdConserves(s: State, wanted: ContextKey, now: Instant)
    requires Conserved(s)
    ensures Conserved(Cold(s, wanted, now))
  {
    var use := Use(Context(s.next, wanted, 1, now), wanted);
    forall id: nat ensures Places(Cold(s, wanted, now), id) == Places(s, id) + if id == s.next then 1 else 0 {
      RunsAppend(s.inUse, [use], id);
      RunsOne(use, id);
    }
  }

  lemma ColdCounts(b: Bounds, s: State, wanted: ContextKey, now: Instant)
    requires Inv(b, s)
    ensures Counted(b, Cold(s, wanted, now))
  {
    Unbuilt(s);
    assert s.served[s.next] == 0;
  }

  lemma BeginKeeps(b: Bounds, s: State, wanted: ContextKey, resets: bool, builds: bool, now: Instant)
    requires Inv(b, s)
    ensures Inv(b, Begin(b, s, wanted, resets, builds, now))
    ensures NoneSuperseded(Begin(b, s, wanted, resets, builds, now).cached, wanted)
  {
    var i := WarmHit(Keys(s.cached), wanted, b.maxReuses);
    if i < |s.cached| && resets {
      WarmConserves(s, i, wanted);
      WarmCounts(b, s, i, wanted);
      SweptKeeps(b, Warm(s, i, wanted), wanted);
    } else {
      if i < |s.cached| { DropAtKeeps(b, s, i); }
      var s0 := if i < |s.cached| then DropAt(s, i) else s;
      SweptKeeps(b, s0, wanted);
      ColdConserves(Swept(s0, wanted), wanted, now);
      ColdCounts(b, Swept(s0, wanted), wanted, now);
    }
  }

  lemma DiscardKeeps(b: Bounds, s: State, k: nat)
    requires Inv(b, s) && k < |s.inUse|
    ensures Inv(b, Discard(s, k))
  {
    forall id: nat ensures Places(Discard(s, k), id) == Places(s, id) {
      RunsRemove(s.inUse, k, id);
      HoldsAppend(s.dropped, [s.inUse[k].context], id);
      HoldsOne(s.inUse[k].context, id);
    }
  }

  lemma GiveBackKeeps(b: Bounds, s: State, k: nat, now: Instant)
    requires Inv(b, s) && k < |s.inUse| && |s.cached| < b.maxCached && s.inUse[k].context.reuses < b.maxReuses
    ensures Inv(b, GiveBack(s, k, now))
  {
    var context := s.inUse[k].context.(lastUsed := now);
    forall id: nat ensures Places(GiveBack(s, k, now), id) == Places(s, id) {
      RunsRemove(s.inUse, k, id);
      HoldsAppend(s.cached, [context], id);
      HoldsOne(context, id);
    }
  }

  lemma EndKeeps(b: Bounds, s: State, k: nat, ok: bool, now: Instant)
    requires Inv(b, s)
    ensures Inv(b, End(b, s, k, ok, now))
  {
    if k < |s.inUse| {
      if ok && KeepContext(s.inUse[k].context.reuses, b.maxReuses, b.maxCached) {
        var i := CacheEvict(LastUsed(s.cached), b.maxCached);
        if i < |s.cached| { DropAtKeeps(b, s, i); }
        GiveBackKeeps(b, if i < |s.cached| then DropAt(s, i) else s, k, now);
      } else {
        DiscardKeeps(b, s, k);
      }
    }
  }

  lemma {:induction false} RunKeeps(b: Bounds, s: State, steps: seq<Step>)
    requires Inv(b, s)
    ensures Inv(b, DoAll(b, s, steps))
    decreases |steps|
  {
    if steps != [] {
      match steps[0] {
        case BeginRequest(wanted, resets, builds, now) => BeginKeeps(b, s, wanted, resets, builds, now);
        case EndRequest(k, ok, now) => EndKeeps(b, s, k, ok, now);
      }
      RunKeeps(b, Do(b, s, steps[0]), steps[1..]);
    }
  }

  /** Over every run of overlapping requests: every context built is in exactly one place;
      the cache is within its bound and holds only contexts a request can take; a request
      runs in a context of exactly the deployment it asked for; and no context serves more
      requests than its limit, or more than one when the limit is zero. */
  lemma ContextsOverRuns(b: Bounds, steps: seq<Step>)
    ensures var s := DoAll(b, EMPTY, steps);
      && (forall id: nat :: Places(s, id) == if id < s.next then 1 else 0)
      && |s.cached| <= b.maxCached
      && (forall i :: 0 <= i < |s.cached| ==> s.cached[i].reuses < b.maxReuses)
      && (forall k :: 0 <= k < |s.inUse| ==> s.inUse[k].context.key == s.inUse[k].wanted)
      && (forall id: nat :: s.served[id] <= Most(b))
  {
    RunKeeps(b, EMPTY, steps);
  }

  /** The step ends a request of a deployment that `wanted` replaced, well and with a reuse left. */
  predicate BringsBack(b: Bounds, s: State, step: Step, wanted: ContextKey) {
    && step.EndRequest? && step.k < |s.inUse| && step.ok
    && KeepContext(s.inUse[step.k].context.reuses, b.maxReuses, b.maxCached)
    && Superseded(s.inUse[step.k].wanted, wanted)
  }

  lemma EndBringsBack(b: Bounds, s: State, wanted: ContextKey, k: nat, ok: bool, now: Instant)
    requires Inv(b, s) && NoneSuperseded(s.cached, wanted)
    ensures !NoneSuperseded(End(b, s, k, ok, now).cached, wanted) <==> BringsBack(b, s, EndRequest(k, ok, now), wanted)
  {
    var after := End(b, s, k, ok, now);
    if k < |s.inUse| && ok && KeepContext(s.inUse[k].context.reuses, b.maxReuses, b.maxCached) {
      var n := |after.cached| - 1;
      assert after.cached[n].key == s.inUse[k].wanted;
    }
  }

  lemma SwapRemoved(cached: seq<Context>, i: nat, wanted: ContextKey)
    requires i < |cached| && NoneSuperseded(cached, wanted)
    ensures NoneSuperseded(SwapRemove(cached, i), wanted)
  {
  }

  lemma {:induction false} SweepOnlyDrops(cached: seq<Context>, i: nat, swept: ContextKey, wanted: ContextKey)
    requires i <= |cached| && NoneSuperseded(cached, wanted)
    ensures NoneSuperseded(Sweep(cached, i, swept).0, wanted)
    decreases |cached| - i
  {
    if i < |cached| {
      if Superseded(cached[i].key, swept) {
        SwapRemoved(cached, i, wanted);
        SweepOnlyDrops(SwapRemove(cached, i), i, swept, wanted);
      } else {
        SweepOnlyDrops(cached, i + 1, swept, wanted);
      }
    }
  }

  lemma BeginBringsNothing(b: Bounds, s: State, asked: ContextKey, resets: bool, builds: bool, now: Instant, wanted: ContextKey)
    requires NoneSuperseded(s.cached, wanted)
    ensures NoneSuperseded(Begin(b, s, asked, resets, builds, now).cached, wanted)
  {
    var i := WarmHit(Keys(s.cached), asked, b.maxReuses);
    var left := if i < |s.cached| then SwapRemove(s.cached, i) else s.cached;
    if i < |s.cached| { SwapRemoved(s.cached, i, wanted); }
    SweepOnlyDrops(left, 0, asked, wanted);
  }

  /** In no state of the run is a context in the cache that `wanted` replaced. */
  ghost predicate StaysSwept(b: Bounds, s: State, steps: seq<Step>, wanted: ContextKey) {
    forall i :: 0 <= i <= |steps| ==> NoneSuperseded(DoAll(b, s, steps[..i]).cached, wanted)
  }

  ghost predicate NoneBringsBack(b: Bounds, s: State, steps: seq<Step>, wanted: ContextKey) {
    forall i :: 0 <= i < |steps| ==> !BringsBack(b, DoAll(b, s, steps[..i]), steps[i], wanted)
  }

  lemma PrefixRun(b: Bounds, s: State, steps: seq<Step>, i: nat)
    requires 0 < i <= |steps|
    ensures DoAll(b, s, steps[..i]) == DoAll(b, Do(b, s, steps[0]), steps[1..][..i - 1])
  {
    assert steps[..i][1..] == steps[1..][..i - 1];
  }

  lemma SweptCons(b: Bounds, s: State, steps: seq<Step>, wanted: ContextKey)
    requires steps != []
    ensures StaysSwept(b, s, steps, wanted)
       <==> NoneSuperseded(s.cached, wanted) && StaysSwept(b, Do(b, s, steps[0]), steps[1..], wanted)
  {
    hide Do, NoneSuperseded;
    var t := Do(b, s, steps[0]);
    assert DoAll(b, s, steps[..0]) == s;
    forall i | 0 <= i <= |steps[1..]|
      ensures DoAll(b, t, steps[1..][..i]) == DoAll(b, s, steps[..i + 1])
    {
      PrefixRun(b, s, steps, i + 1);
    }
    if NoneSuperseded(s.cached, wanted) && StaysSwept(b, t, steps[1..], wanted) {
      forall i | 0 <= i <= |steps| ensures NoneSuperseded(DoAll(b, s, steps[..i]).cached, wanted) {
        if i > 0 { assert DoAll(b, t, steps[1..][..i - 1]) == DoAll(b, s, steps[..i - 1 + 1]); }
      }
    }
  }

  lemma BringsCons(b: Bounds, s: State, steps: seq<Step>, wanted: ContextKey)
    requires steps != []
    ensures NoneBringsBack(b, s, steps, wanted)
       <==> !BringsBack(b, s, steps[0], wanted) && NoneBringsBack(b, Do(b, s, steps[0]), steps[1..], wanted)
  {
    hide Do, BringsBack;
    var t := Do(b, s, steps[0]);
    assert DoAll(b, s, steps[..0]) == s;
    forall i | 0 <= i < |steps[1..]|
      ensures DoAll(b, t, steps[1..][..i]) == DoAll(b, s, steps[..i + 1]) && steps[1..][i] == steps[i + 1]
    {
      PrefixRun(b, s, steps, i + 1);
    }
    if !BringsBack(b, s, steps[0], wanted) && NoneBringsBack(b, t, steps[1..], wanted) {
      forall i | 0 <= i < |steps| ensures !BringsBack(b, DoAll(b, s, steps[..i]), steps[i], wanted) {
        if i > 0 { assert steps[1..][i - 1] == steps[i - 1 + 1]; }
      }
    }
  }

  lemma StepBringsBack(b: Bounds, s: State, step: Step, wanted: ContextKey)
    requires Inv(b, s) && NoneSuperseded(s.cached, wanted)
    ensures Inv(b, Do(b, s, step))
    ensures !NoneSuperseded(Do(b, s, step).cached, wanted) <==> BringsBack(b, s, step, wanted)
  {
    match step
    case BeginRequest(asked, resets, builds, now) =>
      BeginKeeps(b, s, asked, resets, builds, now);
      BeginBringsNothing(b, s, asked, resets, builds, now, wanted);
    case EndRequest(k, ok, now) =>
      EndKeeps(b, s, k, ok, now);
      EndBringsBack(b, s, wanted, k, ok, now);
  }

  lemma {:induction false} StaysSweptUnless(b: Bounds, s: State, steps: seq<Step>, wanted: ContextKey)
    requires Inv(b, s) && NoneSuperseded(s.cached, wanted)
    ensures StaysSwept(b, s, steps, wanted) <==> NoneBringsBack(b, s, steps, wanted)
    decreases |steps|
  {
    hide Do, Inv, NoneSuperseded, BringsBack, StaysSwept, NoneBringsBack;
    if steps == [] {
      NothingToDo(b, s, wanted);
    } else {
      SweptCons(b, s, steps, wanted);
      BringsCons(b, s, steps, wanted);
      StepBringsBack(b, s, steps[0], wanted);
      var t := Do(b, s, steps[0]);
      if NoneSuperseded(t.cached, wanted) {
        StaysSweptUnless(b, t, steps[1..], wanted);
      } else {
        StartsSwept(b, t, steps[1..], wanted);
      }
    }
  }

  lemma NothingToDo(b: Bounds, s: State, wanted: ContextKey)
    requires NoneSuperseded(s.cached, wanted)
    ensures StaysSwept(b, s, [], wanted) && NoneBringsBack(b, s, [], wanted)
  {
    var none: seq<Step> := [];
    assert none[..0] == [];
  }

  lemma StartsSwept(b: Bounds, s: State, steps: seq<Step>, wanted: ContextKey)
    ensures StaysSwept(b, s, steps, wanted) ==> NoneSuperseded(s.cached, wanted)
  {
    assert DoAll(b, s, steps[..0]) == s;
  }

  /** The sweep is not forever, and a request that ends is the only way back: after a request
      of a deployment has begun, in any run, none of the contexts it replaced is in the cache
      in any later state, exactly if no later step ends a request of a replaced deployment,
      well and with a reuse left. No request that begins brings one back. */
  lemma OlderComesBack(b: Bounds, before: seq<Step>, request: Step, later: seq<Step>)
    requires request.BeginRequest?
    ensures var s := Do(b, DoAll(b, EMPTY, before), request);
      StaysSwept(b, s, later, request.wanted) <==> NoneBringsBack(b, s, later, request.wanted)
  {
    var s0 := DoAll(b, EMPTY, before);
    RunKeeps(b, EMPTY, before);
    BeginKeeps(b, s0, request.wanted, request.resets, request.builds, request.now);
    StaysSweptUnless(b, Do(b, s0, request), later, request.wanted);
  }

  const OLD := ContextKey("w", 1, None)
  const NEW := ContextKey("w", 2, None)

  lemma ColdBegins(b: Bounds, s: State, wanted: ContextKey, now: Instant)
    requires s.cached == []
    ensures Do(b, s, BeginRequest(wanted, true, true, now)) == Cold(s, wanted, now)
  {
    assert s.dropped + [] == s.dropped;
  }

  lemma KeptEnds(b: Bounds, s: State, now: Instant)
    requires s.cached == [] && s.inUse != [] && KeepContext(s.inUse[0].context.reuses, b.maxReuses, b.maxCached)
    ensures Do(b, s, EndRequest(0, true, now)) == GiveBack(s, 0, now)
  {
  }

  /** It happens: a request of version 1 still runs when one of version 2 has swept, and its
      context is in the cache once it has ended. */
  lemma AnOlderContextIsBack() returns (steps: seq<Step>)
    ensures var s := DoAll(Bounds(1, 2), EMPTY, steps);
      && |steps| == 3 && steps[1] == BeginRequest(NEW, true, true, 1)
      && |s.cached| == 1 && s.cached[0].key == OLD && Superseded(OLD, NEW)
  {
    var b := Bounds(1, 2);
    steps := [BeginRequest(OLD, true, true, 0), BeginRequest(NEW, true, true, 1), EndRequest(0, true, 2)];
    ColdBegins(b, EMPTY, OLD, 0);
    var s1 := Cold(EMPTY, OLD, 0);
    ColdBegins(b, s1, NEW, 1);
    var s2 := Cold(s1, NEW, 1);
    KeptEnds(b, s2, 2);
    var s3 := GiveBack(s2, 0, 2);
    hide Do;
    assert steps[1..][1..] == [steps[2]] && [steps[2]][1..] == [];
    assert DoAll(b, s2, [steps[2]]) == DoAll(b, s3, []) == s3;
    assert DoAll(b, s1, steps[1..]) == DoAll(b, s2, steps[1..][1..]);
  }

  // ---- in place ----

  /** What a request finds, and the cache once it has looked. */
  function Looked(b: Bounds, cached: seq<Context>, wanted: ContextKey): (Option<Context>, seq<Context>) {
    var i := WarmHit(Keys(cached), wanted, b.maxReuses);
    if i < |cached| then (Some(cached[i]), SwapRemove(cached, i)) else (None, cached)
  }

  /** The cached contexts of an isolate. */
  class CachedContexts {
    const bounds: Bounds
    var cached: seq<Context>

    constructor (bounds: Bounds)
      ensures this.bounds == bounds && cached == []
    {
      this.bounds, cached := bounds, [];
    }

    /** The warm hit leaves the cache, then the contexts that its deployment replaced. */
    method Look(wanted: ContextKey) returns (hit: Option<Context>, superseded: seq<Context>)
      modifies `cached
      ensures hit == Looked(bounds, old(cached), wanted).0
      ensures (cached, superseded) == Sweep(Looked(bounds, old(cached), wanted).1, 0, wanted)
      ensures hit.Some? ==> hit.value.key == wanted && hit.value.reuses < bounds.maxReuses
      ensures NoneSuperseded(cached, wanted) && AllSuperseded(superseded, wanted)
      ensures multiset(cached) + multiset(superseded) + (if hit.Some? then multiset{hit.value} else multiset{}) == multiset(old(cached))
    {
      var i := 0;
      while i < |cached| && !(cached[i].key == wanted && cached[i].reuses < bounds.maxReuses)
        invariant i <= |cached|
        invariant forall k :: 0 <= k < i ==> !(cached[k].key == wanted && cached[k].reuses < bounds.maxReuses)
      {
        i := i + 1;
      }
      assert i == WarmHit(Keys(cached), wanted, bounds.maxReuses);
      hit := None;
      if i < |cached| {
        Swapped(cached, i);
        hit := Some(cached[i]);
        cached := SwapRemove(cached, i);
      }
      cached, superseded := SweepSuperseded(cached, wanted);
    }

    /** The context goes in, in the place of the one unused for longest if the cache is full. */
    method Keep(context: Context) returns (evicted: Option<Context>)
      requires bounds.maxCached > 0 && |cached| <= bounds.maxCached
      modifies `cached
      ensures |cached| <= bounds.maxCached && context in cached
      ensures evicted.Some? <==> |old(cached)| == bounds.maxCached
      ensures multiset(cached) + (if evicted.Some? then multiset{evicted.value} else multiset{}) == multiset(old(cached)) + multiset{context}
      ensures evicted.Some? ==> forall other :: other in old(cached) ==> evicted.value.lastUsed <= other.lastUsed
    {
      var i := CacheEvict(LastUsed(cached), bounds.maxCached);
      evicted := None;
      if i < |cached| {
        Swapped(cached, i);
        evicted := Some(cached[i]);
        cached := SwapRemove(cached, i);
      }
      cached := cached + [context];
    }
  }
}
