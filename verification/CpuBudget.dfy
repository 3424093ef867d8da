/**
 The CPU budget of a request, counted over its turns: requests of one thread interleave, each
 turn is charged with the advance of the thread's CPU clock between its two readings, and a
 timer may mark the request meanwhile.
 */
module CpuBudget {
  import opened Options

  datatype Account = Account(budget: nat, remaining: nat, started: Option<nat>, terminated: bool)

  function Opened(budget: nat): Account { Account(budget, budget, None, false) }

  function Minus(a: nat, b: nat): nat { if a < b then 0 else a - b }

  function Begun(a: Account, now: nat): Account { a.(started := Some(now)) }

  function Ended(a: Account, now: nat): Account {
    match a.started
    case None => a
    case Some(started) =>
      var left := Minus(a.remaining, Minus(now, started));
      a.(started := None, remaining := left, terminated := a.terminated || left == 0)
  }

  function Refilled(a: Account): Account {
    if a.terminated then a else a.(remaining := a.budget)
  }

  /** The enforcer in place. `now` is a reading of the thread's CPU clock. */
  class CpuEnforcer {
    const budget: nat
    var remaining: nat
    var turnStarted: Option<nat>
    var terminated: bool

    constructor (budget: nat)
      ensures View() == Opened(budget)
    {
      this.budget, remaining, turnStarted, terminated := budget, budget, None, false;
    }

    ghost function View(): Account
      reads this
    {
      Account(budget, remaining, turnStarted, terminated)
    }

    method BeginTurn(now: nat)
      modifies `turnStarted
      ensures View() == Begun(old(View()), now)
    {
      turnStarted := Some(now);
    }

    method EndTurn(now: nat)
      modifies `turnStarted, `remaining, `terminated
      ensures View() == Ended(old(View()), now)
    {
      if turnStarted.None? { return; }
      var started := turnStarted.value;
      turnStarted := None;
      var left := Minus(remaining, Minus(now, started));
      remaining := left;
      if left == 0 { terminated := true; }
    }

    method Refill()
      modifies `remaining
      ensures View() == Refilled(old(View()))
    {
      if !terminated { remaining := budget; }
    }
  }

  // ---- the requests of one thread ----

  /** A request, with the CPU it burned in its own turns since its budget was last full,
      whether its timer marked it, and what was ever taken from its budget. */
  datatype Entry = Entry(account: Account, burned: nat, signalled: bool, charged: nat)

  datatype Thread = Thread(clock: nat, running: Option<nat>, entries: seq<Entry>)

  datatype Step =
    | Arrive(budget: nat)
    | Tick(amount: nat)
    | Begin(request: nat)
    | End
    | Refill(request: nat)
    | Signal(request: nat)

  const EMPTY := Thread(0, None, [])

  function Do(t: Thread, step: Step): Thread {
    match step
    case Arrive(budget) =>
      // a budget of zero makes no enforcer
      if budget == 0 then t else t.(entries := t.entries + [Entry(Opened(budget), 0, false, 0)])
    case Tick(amount) =>
      // the clock advances, and whoever runs burned it
      var t1 := t.(clock := t.clock + amount);
      if t.running.Some? && t.running.value < |t.entries| then
        var r := t.running.value;
        t1.(entries := t.entries[r := t.entries[r].(burned := t.entries[r].burned + amount)])
      else t1
    case Begin(r) =>
      if t.running.Some? || r >= |t.entries| then t
      else
        t.(running := Some(r), entries := t.entries[r := t.entries[r].(account := Begun(t.entries[r].account, t.clock))])
    case End =>
      if t.running.None? || t.running.value >= |t.entries| then t
      else
        var r := t.running.value;
        var entry := t.entries[r];
        var account := Ended(entry.account, t.clock);
        t.(running := None,
           entries := t.entries[r := entry.(account := account, charged := entry.charged + Minus(entry.account.remaining, account.remaining))])
    case Refill(r) =>
      if t.running.Some? || r >= |t.entries| then t
      else
        var entry := t.entries[r];
        t.(entries := t.entries[r := entry.(account := Refilled(entry.account), burned := if entry.account.terminated then entry.burned else 0)])
    case Signal(r) =>
      if r >= |t.entries| then t
      else t.(entries := t.entries[r := t.entries[r].(account := t.entries[r].account.(terminated := true), signalled := true)])
  }

  function DoAll(t: Thread, steps: seq<Step>): Thread
    decreases |steps|
  {
    if steps == [] then t else DoAll(Do(t, steps[0]), steps[1..])
  }

  /** What the request burned in turns that are over. */
  function Counted(t: Thread, r: nat): nat
    requires r < |t.entries|
  {
    if t.running == Some(r) && t.entries[r].account.started.Some?
    then Minus(t.entries[r].burned, Minus(t.clock, t.entries[r].account.started.value))
    else t.entries[r].burned
  }

  ghost predicate Timed(t: Thread) {
    && (t.running.Some? ==> t.running.value < |t.entries|)
    && forall r :: 0 <= r < |t.entries| ==>
        && (t.entries[r].account.started.Some? <==> t.running == Some(r))
        && (t.running == Some(r) ==>
             t.entries[r].account.started.value <= t.clock && t.clock - t.entries[r].account.started.value <= t.entries[r].burned)
  }

  ghost predicate Exact(t: Thread) {
    forall r :: 0 <= r < |t.entries| ==>
      var a := t.entries[r].account;
      && a.budget > 0
      && a.remaining == Minus(a.budget, Counted(t, r))
      && (a.terminated <==> t.entries[r].signalled || Counted(t, r) >= a.budget)
  }

  function Charged(entries: seq<Entry>): nat {
    if entries == [] then 0 else Charged(entries[..|entries| - 1]) + entries[|entries| - 1].charged
  }

  function OpenSince(t: Thread): nat {
    if t.running.Some? && t.running.value < |t.entries| && t.entries[t.running.value].account.started.Some?
    then t.entries[t.running.value].account.started.value else t.clock
  }

  ghost predicate Inv(t: Thread) {
    Timed(t) && Exact(t) && Charged(t.entries) <= OpenSince(t)
  }

  lemma {:induction false} ChargedUpdate(entries: seq<Entry>, r: nat, entry: Entry)
    requires r < |entries|
    ensures Charged(entries[r := entry]) == Charged(entries) - entries[r].charged + entry.charged
  {
    var n := |entries| - 1;
    if r == n {
      assert entries[r := entry][..n] == entries[..n];
    } else {
      assert entries[r := entry][..n] == entries[..n][r := entry];
      ChargedUpdate(entries[..n], r, entry);
    }
  }

  lemma ArriveKeeps(t: Thread, budget: nat)
    requires Inv(t)
    ensures Inv(Do(t, Arrive(budget)))
  {
    var after := Do(t, Arrive(budget));
    if budget > 0 {
      assert after.entries[..|t.entries|] == t.entries;
      forall r | 0 <= r < |t.entries| ensures after.entries[r] == t.entries[r] && Counted(after, r) == Counted(t, r) {}
      assert Counted(after, |t.entries|) == 0;
    }
  }

  lemma TickKeeps(t: Thread, amount: nat)
    requires Inv(t)
    ensures Inv(Do(t, Tick(amount)))
  {
    var after := Do(t, Tick(amount));
    if t.running.Some? { ChargedUpdate(t.entries, t.running.value, after.entries[t.running.value]); }
  }

  lemma BeginKeeps(t: Thread, r: nat)
    requires Inv(t)
    ensures Inv(Do(t, Begin(r)))
  {
    var after := Do(t, Begin(r));
    if t.running.None? && r < |t.entries| { ChargedUpdate(t.entries, r, after.entries[r]); }
  }

  lemma EndKeeps(t: Thread)
    requires Inv(t)
    ensures Inv(Do(t, End))
  {
    var after := Do(t, End);
    if t.running.Some? { ChargedUpdate(t.entries, t.running.value, after.entries[t.running.value]); }
  }

  lemma RefillKeeps(t: Thread, r: nat)
    requires Inv(t)
    ensures Inv(Do(t, Refill(r)))
  {
    var after := Do(t, Refill(r));
    if t.running.None? && r < |t.entries| { ChargedUpdate(t.entries, r, after.entries[r]); }
  }

  lemma SignalKeeps(t: Thread, r: nat)
    requires Inv(t)
    ensures Inv(Do(t, Signal(r)))
  {
    var after := Do(t, Signal(r));
    if r < |t.entries| { ChargedUpdate(t.entries, r, after.entries[r]); }
  }

  lemma StepKeeps(t: Thread, step: Step)
    requires Inv(t)
    ensures Inv(Do(t, step))
  {
    match step
    case Arrive(budget) => ArriveKeeps(t, budget);
    case Tick(amount) => TickKeeps(t, amount);
    case Begin(r) => BeginKeeps(t, r);
    case End => EndKeeps(t);
    case Refill(r) => RefillKeeps(t, r);
    case Signal(r) => SignalKeeps(t, r);
  }

  lemma {:induction false} RunKeeps(t: Thread, steps: seq<Step>)
    requires Inv(t)
    ensures Inv(DoAll(t, steps))
    decreases |steps|
  {
    if steps != [] {
      StepKeeps(t, steps[0]);
      RunKeeps(Do(t, steps[0]), steps[1..]);
    }
  }

  /** In any interleaving, what is left of a budget is what the request's own turns did not
      burn since it was last full; a request is marked exactly when its timer fired or those
      turns burned it all; and together the charges are within the advance of the clock. */
  lemma OnlyItsOwnTurnsCount(steps: seq<Step>)
    ensures var t := DoAll(EMPTY, steps);
      && Charged(t.entries) <= t.clock
      && forall r :: 0 <= r < |t.entries| ==>
          && t.entries[r].account.remaining == Minus(t.entries[r].account.budget, Counted(t, r))
          && (t.entries[r].account.terminated <==> t.entries[r].signalled || Counted(t, r) >= t.entries[r].account.budget)
  {
    RunKeeps(EMPTY, steps);
  }

  predicate Spent(t: Thread, r: nat) { r < |t.entries| && t.entries[r].account.remaining == 0 }

  lemma SpentIsMarked(t: Thread, r: nat)
    requires Exact(t) && Spent(t, r)
    ensures t.entries[r].account.terminated
  {
  }

  lemma SpentStep(t: Thread, r: nat, step: Step)
    requires Exact(t) && Spent(t, r)
    ensures Spent(Do(t, step), r)
  {
    SpentIsMarked(t, r);
  }

  /** A spent budget stays spent, through every refill. */
  lemma {:induction false} SpentStaysSpent(t: Thread, r: nat, steps: seq<Step>)
    requires Inv(t) && Spent(t, r)
    ensures Spent(DoAll(t, steps), r) && DoAll(t, steps).entries[r].account.terminated
    decreases |steps|
  {
    if steps == [] {
      SpentIsMarked(t, r);
    } else {
      SpentStep(t, r, steps[0]);
      StepKeeps(t, steps[0]);
      SpentStaysSpent(Do(t, steps[0]), r, steps[1..]);
    }
  }

  /** A step of another request, or time that another one burns, changes nothing of it. */
  lemma OthersAreFree(t: Thread, r: nat, step: Step)
    requires Inv(t) && r < |t.entries| && t.running != Some(r)
    requires step != Begin(r) && step != Refill(r) && step != Signal(r)
    ensures Do(t, step).entries[r] == t.entries[r]
  {
  }
}
