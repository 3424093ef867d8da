/**
 How the macOS CPU watchdog parks and is woken: it stops ticking when nothing is armed, and
 a thread that arms its slot wakes it. Every load, store, lock and notification is a step of
 its own, and threads come at any time. When the watchdog decides to park is left open, which
 covers its count of idle ticks.
 */
module CpuWatchdog {
  import opened Options

  /** Where a thread is in `arm`: it has armed its slot; it saw the watchdog parked and wants
      the wake lock; it has the lock and is about to notify. */
  datatype Arming = Quiet | Armed | SawParked | HasLock

  /** A registered slot and its thread. */
  datatype Slot = Slot(armed: bool, arming: Arming)

  /** Where the watchdog is. `Scanning(k)` read the first `k` slots and found none armed;
      `Woken` has left its wait or its scan and has `parked` to clear. */
  datatype Watch =
    | Ticking
    | HasWakeLock
    | Scanning(read: nat)
    | Asleep(notified: bool)
    | Woken(locked: bool)

  datatype Owner = Watchdog | Thread(i: nat)

  datatype State = State(slots: seq<Slot>, parked: bool, wakeLock: Option<Owner>, watch: Watch)

  const EMPTY := State([], false, None, Ticking)

  datatype Step =
    // a thread
    | Register
    | Arm(i: nat)
    | ReadParked(i: nat)
    | LockWake(i: nat)
    | Notify(i: nat)
    | Disarm(i: nat)
    // the watchdog
    | TakeWakeLock
    | Park
    | ReadSlot
    | Wake
    | Unpark

  function With(s: State, i: nat, slot: Slot): State
    requires i < |s.slots|
  {
    s.(slots := s.slots[i := slot])
  }

  function Do(s: State, step: Step): State {
    match step
    case Register =>
      // the scan holds the list of slots
      if s.watch.Scanning? then s else s.(slots := s.slots + [Slot(false, Quiet)])
    case Arm(i) =>
      if i < |s.slots| && s.slots[i].arming.Quiet? then With(s, i, Slot(true, Armed)) else s
    case ReadParked(i) =>
      if i < |s.slots| && s.slots[i].arming.Armed?
      then With(s, i, s.slots[i].(arming := if s.parked then SawParked else Quiet)) else s
    case LockWake(i) =>
      if i < |s.slots| && s.slots[i].arming.SawParked? && s.wakeLock.None?
      then With(s, i, s.slots[i].(arming := HasLock)).(wakeLock := Some(Thread(i))) else s
    case Notify(i) =>
      if i < |s.slots| && s.slots[i].arming.HasLock?
      then With(s, i, s.slots[i].(arming := Quiet)).(wakeLock := None, watch := if s.watch.Asleep? then Asleep(true) else s.watch)
      else s
    case Disarm(i) =>
      if i < |s.slots| && s.slots[i].arming.Quiet? then With(s, i, Slot(false, Quiet)) else s
    case TakeWakeLock =>
      if s.watch.Ticking? && s.wakeLock.None? then s.(watch := HasWakeLock, wakeLock := Some(Watchdog)) else s
    case Park =>
      if s.watch.HasWakeLock? then s.(watch := Scanning(0), parked := true) else s
    case ReadSlot =>
      if !s.watch.Scanning? then s
      // waiting gives the wake lock up
      else if s.watch.read >= |s.slots| then s.(watch := Asleep(false), wakeLock := None)
      else if s.slots[s.watch.read].armed then s.(watch := Woken(true))
      else s.(watch := Scanning(s.watch.read + 1))
    case Wake =>
      // notified or for nothing: the wait takes the lock again, and drops it
      if s.watch.Asleep? && s.wakeLock.None? then s.(watch := Woken(false)) else s
    case Unpark =>
      if s.watch.Woken? then s.(watch := Ticking, parked := false, wakeLock := if s.watch.locked then None else s.wakeLock) else s
  }

  function DoAll(s: State, steps: seq<Step>): State
    decreases |steps|
  {
    if steps == [] then s else DoAll(Do(s, steps[0]), steps[1..])
  }

  /** Between arming and notifying. */
  predicate OnItsWay(slot: Slot) { !slot.arming.Quiet? }

  /** The slots a parking watchdog has looked at. */
  function Looked(s: State): nat {
    match s.watch
    case Scanning(read) => read
    case Asleep(notified) => if notified then 0 else |s.slots|
    case _ => 0
  }

  ghost predicate Locked(s: State) {
    && (s.wakeLock == Some(Watchdog) <==> s.watch.HasWakeLock? || s.watch.Scanning? || s.watch == Woken(true))
    && (forall i :: 0 <= i < |s.slots| ==> (s.slots[i].arming.HasLock? <==> s.wakeLock == Some(Thread(i))))
    && (s.wakeLock.Some? && s.wakeLock.value.Thread? ==> s.wakeLock.value.i < |s.slots|)
  }

  ghost predicate Seen(s: State) {
    && (s.watch.Scanning? || s.watch.Asleep? ==> s.parked)
    && Looked(s) <= |s.slots|
    && forall i :: 0 <= i < Looked(s) && s.slots[i].armed ==> OnItsWay(s.slots[i])
  }

  ghost predicate Inv(s: State) { Locked(s) && Seen(s) }

  lemma StepKeeps(s: State, step: Step)
    requires Inv(s)
    ensures Inv(Do(s, step))
  {
  }

  lemma {:induction false} RunKeeps(s: State, steps: seq<Step>)
    requires Inv(s)
    ensures Inv(DoAll(s, steps))
    decreases |steps|
  {
    if steps != [] {
      StepKeeps(s, steps[0]);
      RunKeeps(Do(s, steps[0]), steps[1..]);
    }
  }

  /** The watchdog never sleeps through an armed turn: in every interleaving, if it is
      blocked in its wait with no notification and a slot is armed, then that slot's own
      thread is still on its way to notify it, and the wake lock is no obstacle to it. */
  lemma NeverSleepsThroughATurn(steps: seq<Step>, i: nat)
    requires var s := DoAll(EMPTY, steps); s.watch == Asleep(false) && i < |s.slots| && s.slots[i].armed
    ensures OnItsWay(DoAll(EMPTY, steps).slots[i])
    ensures DoAll(EMPTY, steps).wakeLock != Some(Watchdog)
  {
    RunKeeps(EMPTY, steps);
  }

  /** And what is left of its way wakes the watchdog, unless another thread does first:
      nothing but its own three steps is needed once the lock is free. */
  lemma ArmerWakes(s: State, i: nat)
    requires Inv(s) && s.watch == Asleep(false) && i < |s.slots| && s.slots[i].armed
    requires s.wakeLock.None? || s.wakeLock == Some(Thread(i))
    ensures DoAll(s, [ReadParked(i), LockWake(i), Notify(i)]).watch == Asleep(true)
  {
    var s1 := Do(s, ReadParked(i));
    var s2 := Do(s1, LockWake(i));
    var s3 := Do(s2, Notify(i));
    assert [ReadParked(i), LockWake(i), Notify(i)][1..] == [LockWake(i), Notify(i)];
    assert [LockWake(i), Notify(i)][1..] == [Notify(i)];
    assert [Notify(i)][1..] == [];
    assert DoAll(s2, [Notify(i)]) == s3;
    assert DoAll(s1, [LockWake(i), Notify(i)]) == s3;
  }
}
