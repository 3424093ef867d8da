/**
 The wall-clock watchdog: one thread that sleeps until the earliest of the deadlines that
 guards add and withdraw, and fires the ones that are due. The state machine interleaves the
 guards, the watchdog and the clock, with the watchdog's reading of the clock and the start
 of its sleep as two steps.
 */
module TimeoutWatchdog {
  import opened Options

  /** A deadline; `number` keeps two equal instants apart. */
  datatype Key = Key(at: nat, number: nat)

  const MAX_NUMBER: nat := 0xFFFF_FFFF_FFFF_FFFF

  predicate Less(a: Key, b: Key) { a.at < b.at || (a.at == b.at && a.number < b.number) }

  /** The keys of the ordered map. */
  ghost predicate Sorted(keys: seq<Key>) {
    forall i, j :: 0 <= i < j < |keys| ==> Less(keys[i], keys[j])
  }

  function Insert(keys: seq<Key>, key: Key): (r: seq<Key>)
    ensures |r| == |keys| + 1
  {
    if keys == [] || Less(key, keys[0]) then [key] + keys else [keys[0]] + Insert(keys[1..], key)
  }

  function Remove(keys: seq<Key>, key: Key): seq<Key> {
    if keys == [] then [] else if keys[0] == key then keys[1..] else [keys[0]] + Remove(keys[1..], key)
  }

  /** Where `split_off` cuts the map: the first key that is not below (now, largest number). */
  function Split(keys: seq<Key>, now: nat): (n: nat)
    ensures n <= |keys|
    ensures forall i :: 0 <= i < n ==> Less(keys[i], Key(now, MAX_NUMBER))
    ensures n < |keys| ==> !Less(keys[n], Key(now, MAX_NUMBER))
  {
    if keys == [] || !Less(keys[0], Key(now, MAX_NUMBER)) then 0 else 1 + Split(keys[1..], now)
  }

  ghost predicate Numbered(keys: seq<Key>, next: nat) {
    forall i :: 0 <= i < |keys| ==> keys[i].number < next
  }

  /** The split takes exactly the deadlines that the clock has reached. */
  lemma SplitIsExact(keys: seq<Key>, now: nat)
    requires Sorted(keys) && Numbered(keys, MAX_NUMBER)
    ensures forall i :: 0 <= i < |keys| ==> (i < Split(keys, now) <==> keys[i].at <= now)
  {
    var n := Split(keys, now);
    forall i | n <= i < |keys| ensures keys[i].at > now {
      assert i == n || Less(keys[n], keys[i]);
    }
  }

  lemma SplitParts(keys: seq<Key>, now: nat)
    requires Sorted(keys) && Numbered(keys, MAX_NUMBER)
    ensures var n := Split(keys, now);
      && Sorted(keys[n..]) && keys[..n] + keys[n..] == keys
      && (forall k :: k in keys[..n] ==> k.at <= now) && (forall k :: k in keys[n..] ==> k.at > now)
  {
    SplitIsExact(keys, now);
  }

  lemma {:induction false} InsertKeeps(keys: seq<Key>, key: Key)
    requires Sorted(keys) && key !in keys
    ensures Sorted(Insert(keys, key))
    ensures forall k :: k in Insert(keys, key) <==> k == key || k in keys
    ensures Insert(keys, key)[0] == if keys == [] || Less(key, keys[0]) then key else keys[0]
  {
    if keys != [] && !Less(key, keys[0]) {
      InsertKeeps(keys[1..], key);
      var rest := Insert(keys[1..], key);
      assert forall k :: k in keys[1..] ==> k in keys;
      assert key != keys[0];
      assert forall i :: 0 <= i < |rest| ==> rest[i] in rest;
      assert forall i :: 0 <= i < |rest| ==> Less(keys[0], rest[i]);
    }
  }

  lemma {:induction false} RemoveKeeps(keys: seq<Key>, key: Key)
    requires Sorted(keys)
    ensures Sorted(Remove(keys, key))
    ensures forall k :: k in Remove(keys, key) <==> k in keys && k != key
    ensures Remove(keys, key) == [] || (keys != [] && (Remove(keys, key)[0] == keys[0] || Less(keys[0], Remove(keys, key)[0])))
  {
    if keys != [] {
      assert forall k :: k in keys[1..] ==> Less(keys[0], k);
      assert forall k :: k in keys <==> k == keys[0] || k in keys[1..];
      if keys[0] != key {
        RemoveKeeps(keys[1..], key);
        var rest := Remove(keys[1..], key);
        assert forall i :: 0 <= i < |rest| ==> rest[i] in rest && Less(keys[0], rest[i]);
      }
    }
  }

  /** The shared map in place. */
  class Deadlines {
    var keys: seq<Key>

    /** Whether the watchdog has to be woken: exactly when the new deadline is the earliest. */
    method Add(key: Key) returns (notify: bool)
      requires Sorted(keys) && key !in keys
      modifies `keys
      ensures Sorted(keys) && keys == Insert(old(keys), key)
      ensures notify <==> forall k :: k in old(keys) ==> Less(key, k)
    {
      InsertKeeps(keys, key);
      assert keys != [] ==> forall k :: k in keys ==> k == keys[0] || Less(keys[0], k);
      keys := Insert(keys, key);
      notify := keys[0] == key;
    }

    method Withdraw(key: Key)
      requires Sorted(keys)
      modifies `keys
      ensures Sorted(keys) && keys == Remove(old(keys), key) && key !in keys
    {
      RemoveKeeps(keys, key);
      keys := Remove(keys, key);
    }

    /** What is due leaves the map, and only that. */
    method TakeDue(now: nat) returns (due: seq<Key>)
      requires Sorted(keys) && Numbered(keys, MAX_NUMBER)
      modifies `keys
      ensures Sorted(keys) && due + keys == old(keys)
      ensures (forall k :: k in due ==> k.at <= now) && (forall k :: k in keys ==> k.at > now)
    {
      var n := Split(keys, now);
      SplitParts(keys, now);
      due := keys[..n];
      keys := keys[n..];
    }
  }

  // ---- the watchdog, the guards and the clock ----

  /** Where the watchdog is. It holds the lock while it scans and while it goes to sleep. */
  datatype Watch =
    | Scanning
    | Drowsy(now: nat)
    | Asleep(until: Option<nat>, notified: bool, lag: nat)
    | Firing(due: seq<Key>)

  datatype Shot = Shot(key: Key, time: nat)

  /** `made` are keys of guards that have not reached the map yet. */
  datatype State = State(clock: nat, watch: Watch, next: nat, made: seq<Key>, keys: seq<Key>, withdrawn: seq<Key>, shots: seq<Shot>)

  const EMPTY := State(0, Scanning, 0, [], [], [], [])

  datatype Step =
    | Tick(amount: nat)
    | Make(timeout: nat)
    | Add(i: nat)
    | Drop(key: Key)
    | Scan
    | Sleep
    | Fire
    | Wake

  predicate Unlocked(watch: Watch) { watch.Asleep? || watch.Firing? }

  function RemoveAt(s: seq<Key>, i: nat): seq<Key>
    requires i < |s|
  {
    s[..i] + s[i + 1..]
  }

  /** A guard in the map: the watchdog is notified if it sleeps and the key is the earliest. */
  function DoAdd(s: State, i: nat): State {
    if i >= |s.made| || !Unlocked(s.watch) then s
    else
      var keys := Insert(s.keys, s.made[i]);
      s.(made := RemoveAt(s.made, i), keys := keys,
         watch := if s.watch.Asleep? && keys[0] == s.made[i] then s.watch.(notified := true) else s.watch)
  }

  function DoDrop(s: State, key: Key): State {
    if !Unlocked(s.watch) || key !in s.keys then s
    else s.(keys := Remove(s.keys, key), withdrawn := s.withdrawn + [key])
  }

  function DoScan(s: State): State {
    if !s.watch.Scanning? then s
    else
      var n := Split(s.keys, s.clock);
      s.(keys := s.keys[n..], watch := if n > 0 then Firing(s.keys[..n]) else Drowsy(s.clock))
  }

  /** The sleep lasts from its own start, later than the reading it was computed from. */
  function DoSleep(s: State): State {
    if !s.watch.Drowsy? then s
    else
      var lag := if s.clock < s.watch.now then 0 else s.clock - s.watch.now;
      var until :=
        if s.keys == [] then None
        else Some(s.clock + if s.keys[0].at < s.watch.now then 0 else s.keys[0].at - s.watch.now);
      s.(watch := Asleep(until, false, lag))
  }

  function DoFire(s: State): State {
    if !s.watch.Firing? then s
    else if s.watch.due == [] then s.(watch := Scanning)
    else s.(watch := Firing(s.watch.due[1..]), shots := s.shots + [Shot(s.watch.due[0], s.clock)])
  }

  function Do(s: State, step: Step): State {
    match step
    case Tick(amount) => s.(clock := s.clock + amount)
    case Make(timeout) =>
      // a timeout of zero makes no deadline
      if timeout == 0 || s.next >= MAX_NUMBER then s
      else s.(made := s.made + [Key(s.clock + timeout, s.next)], next := s.next + 1)
    case Add(i) => DoAdd(s, i)
    case Drop(key) => DoDrop(s, key)
    case Scan => DoScan(s)
    case Sleep => DoSleep(s)
    case Fire => DoFire(s)
    // a condition variable may wake for nothing
    case Wake => if s.watch.Asleep? then s.(watch := Scanning) else s
  }

  function DoAll(s: State, steps: seq<Step>): State
    decreases |steps|
  {
    if steps == [] then s else DoAll(Do(s, steps[0]), steps[1..])
  }

  // ---- counting ----

  function Holds(keys: seq<Key>, number: nat): nat {
    if keys == [] then 0 else (if keys[0].number == number then 1 else 0) + Holds(keys[1..], number)
  }

  function Fires(shots: seq<Shot>, number: nat): nat {
    if shots == [] then 0 else (if shots[0].key.number == number then 1 else 0) + Fires(shots[1..], number)
  }

  function InHand(watch: Watch): seq<Key> { if watch.Firing? then watch.due else [] }

  function Places(s: State, number: nat): nat {
    Holds(s.made, number) + Holds(s.keys, number) + Holds(InHand(s.watch), number)
    + Holds(s.withdrawn, number) + Fires(s.shots, number)
  }

  lemma {:induction false} HoldsAppend(a: seq<Key>, b: seq<Key>, number: nat)
    ensures Holds(a + b, number) == Holds(a, number) + Holds(b, number)
  {
    if a == [] { assert a + b == b; } else {
      assert (a + b)[1..] == a[1..] + b;
      HoldsAppend(a[1..], b, number);
    }
  }

  lemma {:induction false} FiresAppend(a: seq<Shot>, shot: Shot, number: nat)
    ensures Fires(a + [shot], number) == Fires(a, number) + if shot.key.number == number then 1 else 0
  {
    if a == [] {
      assert a + [shot] == [shot];
      assert [shot][1..] == [];
    } else {
      assert (a + [shot])[1..] == a[1..] + [shot];
      FiresAppend(a[1..], shot, number);
    }
  }

  lemma {:induction false} HoldsInsert(keys: seq<Key>, key: Key, number: nat)
    ensures Holds(Insert(keys, key), number) == Holds(keys, number) + if key.number == number then 1 else 0
  {
    if keys == [] || Less(key, keys[0]) {
      assert ([key] + keys)[1..] == keys;
    } else {
      HoldsInsert(keys[1..], key, number);
      assert ([keys[0]] + Insert(keys[1..], key))[1..] == Insert(keys[1..], key);
    }
  }

  lemma {:induction false} HoldsRemove(keys: seq<Key>, key: Key, number: nat)
    requires key in keys
    ensures Holds(keys, number) == Holds(Remove(keys, key), number) + if key.number == number then 1 else 0
  {
    if keys[0] != key {
      HoldsRemove(keys[1..], key, number);
      assert ([keys[0]] + Remove(keys[1..], key))[1..] == Remove(keys[1..], key);
    }
  }

  lemma HoldsRemoveAt(keys: seq<Key>, i: nat, number: nat)
    requires i < |keys|
    ensures Holds(keys, number) == Holds(RemoveAt(keys, i), number) + if keys[i].number == number then 1 else 0
  {
    assert keys == keys[..i] + ([keys[i]] + keys[i + 1..]);
    HoldsAppend(keys[..i], [keys[i]] + keys[i + 1..], number);
    HoldsAppend(keys[..i], keys[i + 1..], number);
    assert ([keys[i]] + keys[i + 1..])[1..] == keys[i + 1..];
  }

  lemma {:induction false} HoldsAt(keys: seq<Key>, i: nat)
    requires i < |keys|
    ensures Holds(keys, keys[i].number) >= 1
  {
    if i > 0 { HoldsAt(keys[1..], i - 1); }
  }

  // ---- what every run keeps ----

  /** Every deadline is in exactly one place: on its way, in the map, due, withdrawn, fired. */
  ghost predicate Conserved(s: State) {
    forall number: nat :: Places(s, number) == if number < s.next then 1 else 0
  }

  /** A sleeping watchdog that nobody woke wakes up by the earliest deadline, give or take
      the time between its reading of the clock and its sleep. */
  ghost predicate WakesInTime(watch: Watch, keys: seq<Key>) {
    watch.Asleep? && !watch.notified && keys != [] ==> watch.until.Some? && watch.until.value <= keys[0].at + watch.lag
  }

  ghost predicate OnTime(s: State) {
    && (forall i :: 0 <= i < |InHand(s.watch)| ==> InHand(s.watch)[i].at <= s.clock)
    && (forall i :: 0 <= i < |s.shots| ==> s.shots[i].key.at <= s.shots[i].time <= s.clock)
    && (s.watch.Drowsy? ==> s.watch.now <= s.clock && forall i :: 0 <= i < |s.keys| ==> s.keys[i].at > s.watch.now)
  }

  ghost predicate Inv(s: State) {
    Sorted(s.keys) && s.next <= MAX_NUMBER && Conserved(s) && WakesInTime(s.watch, s.keys) && OnTime(s)
  }

  lemma NumberedKeys(s: State)
    requires Conserved(s)
    ensures Numbered(s.keys, s.next)
    ensures forall i :: 0 <= i < |s.made| ==> s.made[i] !in s.keys && s.made[i].number < s.next
  {
    forall i | 0 <= i < |s.keys| ensures s.keys[i].number < s.next {
      HoldsAt(s.keys, i);
      assert Places(s, s.keys[i].number) >= 1;
    }
    forall i | 0 <= i < |s.made| ensures s.made[i] !in s.keys && s.made[i].number < s.next {
      HoldsAt(s.made, i);
      assert Places(s, s.made[i].number) <= 1;
      if s.made[i] in s.keys {
        var j :| 0 <= j < |s.keys| && s.keys[j] == s.made[i];
        HoldsAt(s.keys, j);
      }
    }
  }

  lemma MakeKeeps(s: State, timeout: nat)
    requires Inv(s)
    ensures Inv(Do(s, Make(timeout)))
  {
    if timeout > 0 && s.next < MAX_NUMBER {
      var key := Key(s.clock + timeout, s.next);
      forall number: nat ensures Places(Do(s, Make(timeout)), number) == Places(s, number) + if number == s.next then 1 else 0 {
        HoldsAppend(s.made, [key], number);
        assert [key][1..] == [];
      }
    }
  }

  lemma AddKeeps(s: State, i: nat)
    requires Inv(s)
    ensures Inv(DoAdd(s, i))
  {
    if i < |s.made| && Unlocked(s.watch) {
      NumberedKeys(s);
      InsertKeeps(s.keys, s.made[i]);
      forall number: nat ensures Places(DoAdd(s, i), number) == Places(s, number) {
        HoldsInsert(s.keys, s.made[i], number);
        HoldsRemoveAt(s.made, i, number);
      }
    }
  }

  lemma DropKeeps(s: State, key: Key)
    requires Inv(s)
    ensures Inv(DoDrop(s, key))
  {
    if Unlocked(s.watch) && key in s.keys {
      RemoveKeeps(s.keys, key);
      forall number: nat ensures Places(DoDrop(s, key), number) == Places(s, number) {
        HoldsRemove(s.keys, key, number);
        HoldsAppend(s.withdrawn, [key], number);
        assert [key][1..] == [];
      }
    }
  }

  lemma ScanKeeps(s: State)
    requires Inv(s)
    ensures Inv(DoScan(s))
  {
    if s.watch.Scanning? {
      NumberedKeys(s);
      SplitIsExact(s.keys, s.clock);
      var n := Split(s.keys, s.clock);
      assert s.keys == s.keys[..n] + s.keys[n..];
      forall number: nat ensures Places(DoScan(s), number) == Places(s, number) {
        HoldsAppend(s.keys[..n], s.keys[n..], number);
      }
    }
  }

  lemma FireKeeps(s: State)
    requires Inv(s)
    ensures Inv(DoFire(s))
  {
    if s.watch.Firing? && s.watch.due != [] {
      forall number: nat ensures Places(DoFire(s), number) == Places(s, number) {
        FiresAppend(s.shots, Shot(s.watch.due[0], s.clock), number);
      }
    } else {
      assert forall number: nat :: Places(DoFire(s), number) == Places(s, number);
    }
  }

  lemma SleepKeeps(s: State)
    requires Inv(s)
    ensures Inv(DoSleep(s))
  {
    assert forall number: nat :: Places(DoSleep(s), number) == Places(s, number);
  }

  lemma StepKeeps(s: State, step: Step)
    requires Inv(s)
    ensures Inv(Do(s, step))
  {
    match step
    case Tick(_) => assert forall number: nat :: Places(Do(s, step), number) == Places(s, number);
    case Make(timeout) => MakeKeeps(s, timeout);
    case Add(i) => AddKeeps(s, i);
    case Drop(key) => DropKeeps(s, key);
    case Scan => ScanKeeps(s);
    case Sleep => SleepKeeps(s);
    case Fire => FireKeeps(s);
    case Wake => assert forall number: nat :: Places(Do(s, step), number) == Places(s, number);
  }

  lemma {:induction false} RunKeeps(s: State, steps: seq<Step>)
    requires Inv(s)
    ensures Inv(DoAll(s, steps))
    decreases |steps|
  {
    if steps != [] {
      StepKeeps(s, steps[0]);
      RunKeeps(Do(s, steps[0]), steps[1..]);
    }
  }

  /** In every interleaving: the watchdog never sleeps past the earliest deadline by more
      than its own lag; no deadline fires before its instant; and each one fires at most
      once, and not at all once it is withdrawn. */
  lemma WatchdogOverRuns(steps: seq<Step>)
    ensures var s := DoAll(EMPTY, steps);
      && (s.watch.Asleep? && !s.watch.notified ==>
           forall i :: 0 <= i < |s.keys| ==> s.watch.until.Some? && s.watch.until.value <= s.keys[i].at + s.watch.lag)
      && (forall i :: 0 <= i < |s.shots| ==> s.shots[i].key.at <= s.shots[i].time)
      && (forall number: nat :: Fires(s.shots, number) + Holds(s.withdrawn, number) + Holds(s.keys, number) <= 1)
  {
    RunKeeps(EMPTY, steps);
    var s := DoAll(EMPTY, steps);
    forall i | 0 < i < |s.keys| ensures s.keys[0].at <= s.keys[i].at {
      assert Less(s.keys[0], s.keys[i]);
    }
    forall number: nat ensures Fires(s.shots, number) + Holds(s.withdrawn, number) + Holds(s.keys, number) <= 1 {
      assert Places(s, number) <= 1;
    }
  }

  /** A withdrawn deadline never fires later either. */
  lemma {:induction false} WithdrawnNeverFires(s: State, number: nat, steps: seq<Step>)
    requires Inv(s) && Holds(s.withdrawn, number) >= 1
    ensures Fires(DoAll(s, steps).shots, number) == 0
    decreases |steps|
  {
    assert Places(s, number) <= 1;
    if steps != [] {
      StepKeeps(s, steps[0]);
      var key := if steps[0].Drop? then steps[0].key else Key(0, 0);
      HoldsAppend(s.withdrawn, [key], number);
      WithdrawnNeverFires(Do(s, steps[0]), number, steps[1..]);
    }
  }

  /** The lag is exact: it is by how much the sleep outlasts the earliest deadline. */
  lemma SleepOutlastsByItsLag(s: State)
    requires Inv(s) && s.watch.Drowsy? && s.keys != []
    ensures var watch := DoSleep(s).watch; watch.until.value == s.keys[0].at + watch.lag && watch.lag == s.clock - s.watch.now
  {
  }

  lemma {:induction false} DoNext(s: State, steps: seq<Step>, step: Step)
    ensures DoAll(s, steps + [step]) == Do(DoAll(s, steps), step)
    decreases |steps|
  {
    if steps == [] {
      assert steps + [step] == [step] && [step][1..] == [];
    } else {
      assert (steps + [step])[1..] == steps[1..] + [step];
      DoNext(Do(s, steps[0]), steps[1..], step);
    }
  }

  ghost predicate Reached(s: State) { exists steps :: DoAll(EMPTY, steps) == s }

  lemma Go(s: State, step: Step, t: State)
    requires Reached(s) && Do(s, step) == t
    ensures Reached(t)
  {
    var steps :| DoAll(EMPTY, steps) == s;
    DoNext(EMPTY, steps, step);
  }

  /** The watchdog after it was woken for its first deadline, at 5. */
  const WOKEN := State(0, Scanning, 1, [], [Key(5, 0)], [], [])

  lemma IsWoken()
    ensures Reached(WOKEN)
  {
    var drowsy, asleep := EMPTY.(watch := Drowsy(0)), EMPTY.(watch := Asleep(None, false, 0));
    var made := asleep.(made := [Key(5, 0)], next := 1);
    assert DoAll(EMPTY, []) == EMPTY;
    Go(EMPTY, Scan, drowsy);
    Go(drowsy, Sleep, asleep);
    Go(asleep, Make(5), made);
    Go(made, Add(0), WOKEN.(watch := Asleep(None, true, 0)));
    Go(WOKEN.(watch := Asleep(None, true, 0)), Wake, WOKEN);
  }

  /** A lag happens: time that passes between the reading of the clock and the sleep is slept
      past the deadline, with nobody to wake the watchdog before. */
  lemma SleepsPastADeadline() returns (s: State)
    ensures Reached(s) && s.watch == Asleep(Some(7), false, 2) && s.keys == [Key(5, 0)]
  {
    IsWoken();
    s := WOKEN.(clock := 2, watch := Asleep(Some(7), false, 2));
    Go(WOKEN, Scan, WOKEN.(watch := Drowsy(0)));
    Go(WOKEN.(watch := Drowsy(0)), Tick(2), WOKEN.(clock := 2, watch := Drowsy(0)));
    Go(WOKEN.(clock := 2, watch := Drowsy(0)), Sleep, s);
  }
}
