/**
 External memory reported to V8: guards report what they hold to the isolate whose lock their
 thread has, or leave the change with the isolate they were made under, which takes it up at
 its next lock. Amounts are unbounded integers here.
 */
module ExternalMemory {
  import opened Options

  /** An isolate in place: what V8 was told, and what it has yet to be told. */
  class Isolate {
    var reported: int
    var pending: int

    /** A lock is taken: what is pending is reported. */
    method Enter()
      modifies this
      ensures pending == 0 && reported == old(reported) + old(pending)
    {
      var taken := pending;
      pending := 0;
      if taken != 0 { reported := reported + taken; }
    }
  }

  /** What a thread knows of its locks. */
  class Thread {
    var current: Isolate?
  }

  /** A lock in place: it reports what is pending, becomes the current one, and gives the one
      before it back when it goes. */
  class JsLock {
    const previous: Isolate?

    constructor (thread: Thread, isolate: Isolate)
      modifies thread, isolate
      ensures thread.current == isolate && previous == old(thread.current)
      ensures isolate.pending == 0 && isolate.reported == old(isolate.reported) + old(isolate.pending)
    {
      previous := thread.current;
      new;
      isolate.Enter();
      thread.current := isolate;
    }

    method Drop(thread: Thread)
      modifies thread
      ensures thread.current == previous
    {
      thread.current := previous;
    }
  }

  function Only(isolate: Isolate?): set<object> { if isolate == null then {} else {isolate} }

  /** A guard in place. `current` is the isolate whose lock the calling thread has last
      taken, if any. */
  class ExternalMemoryGuard {
    var amount: int
    var home: Isolate?

    constructor (amount: int, current: Isolate?)
      modifies Only(current)
      ensures this.amount == amount && home == current
      ensures current != null ==> current.reported == old(current.reported) + amount && current.pending == old(current.pending)
    {
      if current != null && amount != 0 { current.reported := current.reported + amount; }
      this.amount, home := amount, current;
    }

    /** The change goes to the isolate that is locked, or else it is left with the home. */
    method Adjust(delta: int, current: Isolate?)
      modifies this, Only(current), Only(home)
      ensures amount == old(amount) + delta
      ensures home == if delta != 0 && old(home) == null then current else old(home)
      ensures current != null ==> current.reported == old(current.reported) + delta && current.pending == old(current.pending)
      ensures old(home) != null && old(home) != current ==>
        && old(home).reported == old(home.reported)
        && old(home).pending == old(home.pending) + if current == null then delta else 0
    {
      if delta != 0 {
        amount := amount + delta;
        if current != null {
          current.reported := current.reported + delta;
          if home == null { home := current; }
        } else if home != null {
          home.pending := home.pending + delta;
        }
      }
    }

    method Set(newAmount: int, current: Isolate?)
      modifies this, Only(current), Only(home)
      ensures amount == newAmount
      ensures current != null ==> current.reported == old(current.reported) + newAmount - old(amount)
      ensures current == null && old(home) != null ==> old(home).pending == old(home.pending) + newAmount - old(amount)
    {
      Adjust(newAmount - amount, current);
    }

    method Drop(current: Isolate?)
      modifies Only(current), Only(home)
      ensures current != null ==> current.reported == old(current.reported) - amount && current.pending == old(current.pending)
      ensures home != null && home != current ==>
        && home.reported == old(home.reported)
        && home.pending == old(home.pending) - if current == null then amount else 0
    {
      if amount != 0 {
        if current != null {
          current.reported := current.reported - amount;
        } else if home != null {
          home.pending := home.pending - amount;
        }
      }
    }
  }

  // ---- threads, nested locks and guards ----

  datatype Guard = Guard(amount: int, home: Option<nat>, live: bool)

  datatype Iso = Iso(reported: int, pending: int)

  /** `locks` has a stack for each thread: the isolates it locked, the last one current. */
  datatype State = State(isolates: seq<Iso>, locks: seq<seq<nat>>, guards: seq<Guard>)

  datatype Step =
    | NewIsolate
    | NewThread
    | Lock(t: nat, i: nat)
    | Unlock(t: nat)
    | Create(t: nat, amount: int)
    | Adjust(t: nat, g: nat, delta: int)
    | Set(t: nat, g: nat, newAmount: int)
    | Drop(t: nat, g: nat)

  const EMPTY := State([], [], [])

  function Current(s: State, t: nat): Option<nat> {
    if t < |s.locks| && s.locks[t] != [] then
      var i := s.locks[t][|s.locks[t]| - 1];
      if i < |s.isolates| then Some(i) else None
    else None
  }

  function Report(s: State, i: nat, delta: int): State
    requires i < |s.isolates|
  {
    s.(isolates := s.isolates[i := s.isolates[i].(reported := s.isolates[i].reported + delta)])
  }

  function Defer(s: State, i: nat, delta: int): State
    requires i < |s.isolates|
  {
    s.(isolates := s.isolates[i := s.isolates[i].(pending := s.isolates[i].pending + delta)])
  }

  /** Where a change of `delta` goes, for a guard of this home on this thread. */
  function Told(s: State, t: nat, home: Option<nat>, delta: int): State {
    var current := Current(s, t);
    if current.Some? then Report(s, current.value, delta)
    else if home.Some? && home.value < |s.isolates| then Defer(s, home.value, delta)
    else s
  }

  predicate Alive(s: State, g: nat) { g < |s.guards| && s.guards[g].live }

  function DoAdjust(s: State, t: nat, g: nat, delta: int): State {
    if !Alive(s, g) || delta == 0 then s
    else
      var guard := s.guards[g];
      var home := if guard.home.None? then Current(s, t) else guard.home;
      Told(s, t, guard.home, delta).(guards := s.guards[g := Guard(guard.amount + delta, home, true)])
  }

  function Do(s: State, step: Step): State {
    match step
    case NewIsolate => s.(isolates := s.isolates + [Iso(0, 0)])
    case NewThread => s.(locks := s.locks + [[]])
    case Lock(t, i) =>
      if t >= |s.locks| || i >= |s.isolates| then s
      else
        var iso := s.isolates[i];
        s.(isolates := s.isolates[i := Iso(iso.reported + iso.pending, 0)], locks := s.locks[t := s.locks[t] + [i]])
    case Unlock(t) =>
      if t < |s.locks| && s.locks[t] != [] then s.(locks := s.locks[t := s.locks[t][..|s.locks[t]| - 1]]) else s
    case Create(t, amount) =>
      Told(s, t, None, amount).(guards := s.guards + [Guard(amount, Current(s, t), true)])
    case Adjust(t, g, delta) => DoAdjust(s, t, g, delta)
    case Set(t, g, newAmount) => if Alive(s, g) then DoAdjust(s, t, g, newAmount - s.guards[g].amount) else s
    case Drop(t, g) =>
      if !Alive(s, g) then s
      else Told(s, t, s.guards[g].home, -s.guards[g].amount).(guards := s.guards[g := s.guards[g].(live := false)])
  }

  function DoAll(s: State, steps: seq<Step>): State
    decreases |steps|
  {
    if steps == [] then s else DoAll(Do(s, steps[0]), steps[1..])
  }

  // ---- sums ----

  function Known(isolates: seq<Iso>): int {
    if isolates == [] then 0
    else Known(isolates[..|isolates| - 1]) + isolates[|isolates| - 1].reported + isolates[|isolates| - 1].pending
  }

  function Amount(guard: Guard): int { if guard.live then guard.amount else 0 }

  function Held(guards: seq<Guard>): int {
    if guards == [] then 0 else Held(guards[..|guards| - 1]) + Amount(guards[|guards| - 1])
  }

  function AmountAt(guard: Guard, i: nat): int { if guard.home == Some(i) then Amount(guard) else 0 }

  function HeldAt(guards: seq<Guard>, i: nat): int {
    if guards == [] then 0 else HeldAt(guards[..|guards| - 1], i) + AmountAt(guards[|guards| - 1], i)
  }

  lemma {:induction false} KnownUpdate(isolates: seq<Iso>, i: nat, iso: Iso)
    requires i < |isolates|
    ensures Known(isolates[i := iso]) ==
      Known(isolates) - isolates[i].reported - isolates[i].pending + iso.reported + iso.pending
  {
    var n := |isolates| - 1;
    if i == n {
      assert isolates[i := iso][..n] == isolates[..n];
    } else {
      assert isolates[i := iso][..n] == isolates[..n][i := iso];
      KnownUpdate(isolates[..n], i, iso);
    }
  }

  lemma {:induction false} HeldUpdate(guards: seq<Guard>, g: nat, guard: Guard, i: nat)
    requires g < |guards|
    ensures Held(guards[g := guard]) == Held(guards) - Amount(guards[g]) + Amount(guard)
    ensures HeldAt(guards[g := guard], i) == HeldAt(guards, i) - AmountAt(guards[g], i) + AmountAt(guard, i)
  {
    var n := |guards| - 1;
    if g == n {
      assert guards[g := guard][..n] == guards[..n];
    } else {
      assert guards[g := guard][..n] == guards[..n][g := guard];
      HeldUpdate(guards[..n], g, guard, i);
    }
  }

  lemma HeldAppend(guards: seq<Guard>, guard: Guard, i: nat)
    ensures Held(guards + [guard]) == Held(guards) + Amount(guard)
    ensures HeldAt(guards + [guard], i) == HeldAt(guards, i) + AmountAt(guard, i)
  {
    assert (guards + [guard])[..|guards|] == guards;
  }

  // ---- conservation ----

  /** What the isolates know of, less what the guards hold. */
  function Balance(s: State): int { Known(s.isolates) - Held(s.guards) }

  ghost predicate HomesExist(s: State) {
    forall g :: 0 <= g < |s.guards| && s.guards[g].home.Some? ==> s.guards[g].home.value < |s.isolates|
  }

  /** Whether a change finds anyone to tell: the guard has a home or the thread a lock. */
  predicate Tracked(s: State, t: nat, home: Option<nat>, delta: int) {
    delta == 0 || Current(s, t).Some? || home.Some?
  }

  /** The change that a step makes to what guards hold, and whether anyone is told. */
  predicate StepTracked(s: State, step: Step) {
    match step
    case Create(t, amount) => Tracked(s, t, None, amount)
    case Adjust(t, g, delta) => Alive(s, g) ==> Tracked(s, t, s.guards[g].home, delta)
    case Set(t, g, newAmount) => Alive(s, g) ==> Tracked(s, t, s.guards[g].home, newAmount - s.guards[g].amount)
    case Drop(t, g) => Alive(s, g) ==> Tracked(s, t, s.guards[g].home, s.guards[g].amount)
    case _ => true
  }

  lemma ToldBalance(s: State, t: nat, home: Option<nat>, delta: int)
    requires home.Some? ==> home.value < |s.isolates|
    ensures Known(Told(s, t, home, delta).isolates) == Known(s.isolates) + if Current(s, t).Some? || home.Some? then delta else 0
    ensures |Told(s, t, home, delta).isolates| == |s.isolates|
  {
    var current := Current(s, t);
    if current.Some? {
      KnownUpdate(s.isolates, current.value, s.isolates[current.value].(reported := s.isolates[current.value].reported + delta));
    } else if home.Some? {
      KnownUpdate(s.isolates, home.value, s.isolates[home.value].(pending := s.isolates[home.value].pending + delta));
    }
  }

  lemma AdjustBalance(s: State, t: nat, g: nat, delta: int)
    requires HomesExist(s)
    ensures HomesExist(DoAdjust(s, t, g, delta))
    ensures Balance(DoAdjust(s, t, g, delta)) == Balance(s) <==> (Alive(s, g) ==> Tracked(s, t, s.guards[g].home, delta))
  {
    if Alive(s, g) && delta != 0 {
      var guard := s.guards[g];
      ToldBalance(s, t, guard.home, delta);
      HeldUpdate(s.guards, g, DoAdjust(s, t, g, delta).guards[g], 0);
    }
  }

  lemma LockBalance(s: State, t: nat, i: nat)
    requires HomesExist(s)
    ensures HomesExist(Do(s, Lock(t, i))) && Balance(Do(s, Lock(t, i))) == Balance(s)
  {
    if t < |s.locks| && i < |s.isolates| {
      KnownUpdate(s.isolates, i, Iso(s.isolates[i].reported + s.isolates[i].pending, 0));
    }
  }

  lemma CreateBalance(s: State, t: nat, amount: int)
    requires HomesExist(s)
    ensures HomesExist(Do(s, Create(t, amount)))
    ensures Balance(Do(s, Create(t, amount))) == Balance(s) - if Current(s, t).Some? then 0 else amount
  {
    ToldBalance(s, t, None, amount);
    HeldAppend(s.guards, Guard(amount, Current(s, t), true), 0);
  }

  lemma DropBalance(s: State, t: nat, g: nat)
    requires HomesExist(s) && Alive(s, g)
    ensures HomesExist(Do(s, Drop(t, g)))
    ensures Balance(Do(s, Drop(t, g))) == Balance(s) <==> Tracked(s, t, s.guards[g].home, s.guards[g].amount)
  {
    ToldBalance(s, t, s.guards[g].home, -s.guards[g].amount);
    HeldUpdate(s.guards, g, s.guards[g].(live := false), 0);
  }

  /** A step keeps the balance exactly when it is tracked: what breaks it is a change of a
      guard that has no home, on a thread that has no lock, and nothing else. */
  lemma StepKeepsBalance(s: State, step: Step)
    requires HomesExist(s)
    ensures HomesExist(Do(s, step))
    ensures Balance(Do(s, step)) == Balance(s) <==> StepTracked(s, step)
  {
    match step
    case NewIsolate => assert (s.isolates + [Iso(0, 0)])[..|s.isolates|] == s.isolates;
    case NewThread =>
    case Lock(t, i) => LockBalance(s, t, i);
    case Unlock(t) =>
    case Create(t, amount) => CreateBalance(s, t, amount);
    case Adjust(t, g, delta) => AdjustBalance(s, t, g, delta);
    case Set(t, g, newAmount) =>
      if Alive(s, g) { AdjustBalance(s, t, g, newAmount - s.guards[g].amount); }
    case Drop(t, g) => if Alive(s, g) { DropBalance(s, t, g); }
  }

  /** Every guard so far was made under a lock. */
  ghost predicate AllHoused(s: State) {
    forall g :: 0 <= g < |s.guards| ==> s.guards[g].home.Some?
  }

  ghost predicate MadeUnderLocks(s: State, steps: seq<Step>)
    decreases |steps|
  {
    steps == [] || ((steps[0].Create? ==> Current(s, steps[0].t).Some?) && MadeUnderLocks(Do(s, steps[0]), steps[1..]))
  }

  lemma {:induction false} RunKeepsBalance(s: State, steps: seq<Step>)
    requires HomesExist(s) && AllHoused(s) && MadeUnderLocks(s, steps)
    ensures Balance(DoAll(s, steps)) == Balance(s)
    decreases |steps|
  {
    if steps != [] {
      StepKeepsBalance(s, steps[0]);
      RunKeepsBalance(Do(s, steps[0]), steps[1..]);
    }
  }

  /** For guards made under locks, whatever threads do with them and under whichever nested
      locks, what V8 was told and has yet to be told, over all isolates, is what the live
      guards hold. */
  lemma MemoryIsConserved(steps: seq<Step>)
    requires MadeUnderLocks(EMPTY, steps)
    ensures Known(DoAll(EMPTY, steps).isolates) == Held(DoAll(EMPTY, steps).guards)
  {
    RunKeepsBalance(EMPTY, steps);
  }

  /** A guard made with no lock is lost to the count, though its amount stays with it. */
  lemma MadeWithoutALockIsLost(s: State, t: nat, amount: int)
    requires HomesExist(s) && Current(s, t).None?
    ensures Balance(Do(s, Create(t, amount))) == Balance(s) - amount
  {
    CreateBalance(s, t, amount);
  }

  // ---- isolate by isolate ----

  function BalanceAt(s: State, i: nat): int
    requires i < |s.isolates|
  {
    s.isolates[i].reported + s.isolates[i].pending - HeldAt(s.guards, i)
  }

  ghost predicate BalancedAt(s: State) { forall i :: 0 <= i < |s.isolates| ==> BalanceAt(s, i) == 0 }

  /** A change of a housed guard stays with its home: no lock, or the lock of that home. */
  predicate AtHome(s: State, t: nat, home: Option<nat>, delta: int) {
    delta == 0 || Current(s, t).None? || Current(s, t) == home
  }

  predicate StepAtHome(s: State, step: Step) {
    match step
    case Adjust(t, g, delta) => Alive(s, g) ==> AtHome(s, t, s.guards[g].home, delta)
    case Set(t, g, newAmount) => Alive(s, g) ==> AtHome(s, t, s.guards[g].home, newAmount - s.guards[g].amount)
    case Drop(t, g) => Alive(s, g) ==> AtHome(s, t, s.guards[g].home, s.guards[g].amount)
    case _ => true
  }

  lemma AdjustAtHome(s: State, t: nat, g: nat, delta: int)
    requires HomesExist(s) && AllHoused(s) && BalancedAt(s)
    ensures BalancedAt(DoAdjust(s, t, g, delta)) <==> (Alive(s, g) ==> AtHome(s, t, s.guards[g].home, delta))
  {
    if Alive(s, g) && delta != 0 {
      var after := DoAdjust(s, t, g, delta);
      forall i | 0 <= i < |s.isolates|
        ensures BalanceAt(after, i) == Spill(s, t, s.guards[g].home, delta, i)
      {
        HeldUpdate(s.guards, g, after.guards[g], i);
        assert BalanceAt(s, i) == 0;
      }
      SpillsElsewhere(s, t, s.guards[g].home, delta, after);
    }
  }

  /** What a change leaves at isolate `i` that is not accounted for there. */
  function Spill(s: State, t: nat, home: Option<nat>, delta: int, i: nat): int {
    var current := Current(s, t);
    (if current == Some(i) then delta else 0)
    + (if current.None? && home == Some(i) then delta else 0)
    - (if home == Some(i) then delta else 0)
  }

  lemma SpillsElsewhere(s: State, t: nat, home: Option<nat>, delta: int, after: State)
    requires home.Some? && home.value < |s.isolates| && |after.isolates| == |s.isolates|
    requires forall i :: 0 <= i < |s.isolates| ==> BalanceAt(after, i) == Spill(s, t, home, delta, i)
    ensures BalancedAt(after) <==> AtHome(s, t, home, delta)
  {
    if Current(s, t).Some? && Current(s, t) != home && delta != 0 {
      assert BalanceAt(after, Current(s, t).value) == delta;
    }
  }

  lemma DropAtHome(s: State, t: nat, g: nat)
    requires HomesExist(s) && AllHoused(s) && BalancedAt(s) && Alive(s, g)
    ensures BalancedAt(Do(s, Drop(t, g))) <==> AtHome(s, t, s.guards[g].home, s.guards[g].amount)
  {
    var after, amount := Do(s, Drop(t, g)), s.guards[g].amount;
    forall i | 0 <= i < |s.isolates|
      ensures BalanceAt(after, i) == Spill(s, t, s.guards[g].home, -amount, i)
    {
      HeldUpdate(s.guards, g, s.guards[g].(live := false), i);
      assert BalanceAt(s, i) == 0;
    }
    SpillsElsewhere(s, t, s.guards[g].home, -amount, after);
  }

  lemma CreateAtHome(s: State, t: nat, amount: int)
    requires HomesExist(s) && BalancedAt(s) && Current(s, t).Some?
    ensures BalancedAt(Do(s, Create(t, amount)))
  {
    var after := Do(s, Create(t, amount));
    forall i | 0 <= i < |s.isolates| ensures BalanceAt(after, i) == 0 {
      HeldAppend(s.guards, Guard(amount, Current(s, t), true), i);
      assert BalanceAt(s, i) == 0;
    }
  }

  lemma {:induction false} NotYetHome(guards: seq<Guard>, i: nat)
    requires forall g :: 0 <= g < |guards| && guards[g].home.Some? ==> guards[g].home.value < i
    ensures HeldAt(guards, i) == 0
  {
    if guards != [] { NotYetHome(guards[..|guards| - 1], i); }
  }

  /** With every guard made under a lock, a step keeps every isolate's own account straight
      exactly when it touches a guard under the lock of its own isolate or under none. */
  lemma EachIsolateIsConserved(s: State, step: Step)
    requires HomesExist(s) && AllHoused(s) && BalancedAt(s)
    requires step.Create? ==> Current(s, step.t).Some?
    ensures BalancedAt(Do(s, step)) <==> StepAtHome(s, step)
  {
    match step
    case NewIsolate =>
      NotYetHome(s.guards, |s.isolates|);
      forall i | 0 <= i < |s.isolates| ensures BalanceAt(Do(s, step), i) == 0 { assert BalanceAt(s, i) == 0; }
    case NewThread => assert forall i :: 0 <= i < |s.isolates| ==> BalanceAt(Do(s, step), i) == BalanceAt(s, i);
    case Lock(t, i) => assert forall k :: 0 <= k < |s.isolates| ==> BalanceAt(Do(s, step), k) == BalanceAt(s, k);
    case Unlock(t) => assert forall i :: 0 <= i < |s.isolates| ==> BalanceAt(Do(s, step), i) == BalanceAt(s, i);
    case Create(t, amount) => CreateAtHome(s, t, amount);
    case Adjust(t, g, delta) => AdjustAtHome(s, t, g, delta);
    case Set(t, g, newAmount) =>
      if Alive(s, g) { AdjustAtHome(s, t, g, newAmount - s.guards[g].amount); }
    case Drop(t, g) => if Alive(s, g) { DropAtHome(s, t, g); }
  }

  ghost predicate AllAtHome(s: State, steps: seq<Step>)
    decreases |steps|
  {
    steps == [] || (StepAtHome(s, steps[0]) && AllAtHome(Do(s, steps[0]), steps[1..]))
  }

  lemma {:induction false} RunKeepsEach(s: State, steps: seq<Step>)
    requires HomesExist(s) && AllHoused(s) && BalancedAt(s)
    requires MadeUnderLocks(s, steps) && AllAtHome(s, steps)
    ensures BalancedAt(DoAll(s, steps))
    decreases |steps|
  {
    if steps != [] {
      StepKeepsBalance(s, steps[0]);
      EachIsolateIsConserved(s, steps[0]);
      RunKeepsEach(Do(s, steps[0]), steps[1..]);
    }
  }

  /** Over every run in which guards are made under locks and touched only under the lock of
      their own isolate or under none, what each isolate was told and has yet to be told is
      what the live guards made under it hold. */
  lemma EachIsolateOverRuns(steps: seq<Step>)
    requires MadeUnderLocks(EMPTY, steps) && AllAtHome(EMPTY, steps)
    ensures var s := DoAll(EMPTY, steps);
      forall i :: 0 <= i < |s.isolates| ==> s.isolates[i].reported + s.isolates[i].pending == HeldAt(s.guards, i)
  {
    RunKeepsEach(EMPTY, steps);
    var s := DoAll(EMPTY, steps);
    forall i | 0 <= i < |s.isolates| ensures s.isolates[i].reported + s.isolates[i].pending == HeldAt(s.guards, i) {
      assert BalanceAt(s, i) == 0;
    }
  }

  /** And the first step of a run that is not such a touch leaves some isolate wrong. */
  lemma {:induction false} TheFirstStrayBreaksIt(s: State, steps: seq<Step>, stray: Step)
    requires HomesExist(s) && AllHoused(s) && BalancedAt(s)
    requires MadeUnderLocks(s, steps) && AllAtHome(s, steps) && !StepAtHome(DoAll(s, steps), stray)
    ensures !BalancedAt(Do(DoAll(s, steps), stray))
    decreases |steps|
  {
    if steps == [] {
      EachIsolateIsConserved(s, stray);
    } else {
      StepKeepsBalance(s, steps[0]);
      EachIsolateIsConserved(s, steps[0]);
      TheFirstStrayBreaksIt(Do(s, steps[0]), steps[1..], stray);
    }
  }
}
