/**
 The limit on the bytes of array buffers: one counter that allocations add to, look at, and
 take back from when they are over the limit. Threads interleave at every access of it.
 */
module ArrayBufferLimit {
  const WORD: nat := 0x1_0000_0000_0000_0000

  type Count = n: nat | n < WORD

  /** The counter is one word: it wraps past its end and below zero. */
  function Plus(a: Count, n: Count): Count { if a + n < WORD then a + n else a + n - WORD }

  function Less(a: Count, n: Count): Count { if a >= n then a - n else a + WORD - n }

  /** The allocator alone: what one call does when no other thread is in the way. */
  class CustomAllocator {
    const max: Count
    var count: Count
    var limitHit: bool

    constructor (max: Count)
      ensures this.max == max && count == 0 && !limitHit
    {
      this.max, count, limitHit := max, 0, false;
    }

    /** Denied exactly when the bytes do not fit, and then the counter is as it was. */
    method Allocate(n: Count) returns (granted: bool)
      modifies `count, `limitHit
      ensures granted <==> Plus(old(count), n) <= max
      ensures count == if granted then Plus(old(count), n) else old(count)
      ensures limitHit == (old(limitHit) || !granted)
    {
      count := Plus(count, n);
      var loaded := count;
      if loaded > max {
        limitHit := true;
        TakenBack(old(count), n);
        count := Less(count, n);
        return false;
      }
      granted := true;
    }

    method Free(n: Count)
      modifies `count
      ensures count == Less(old(count), n)
    {
      count := Less(count, n);
    }
  }

  lemma TakenBack(a: Count, n: Count)
    ensures Less(Plus(a, n), n) == a
  {
  }

  // ---- threads ----

  /** Where a thread is in `allocate`. */
  datatype Attempt = Idle | Added(n: Count) | Denied(n: Count)

  datatype State = State(count: Count, blocks: seq<Count>, attempts: seq<Attempt>)

  datatype Step =
    | Spawn
    | Add(t: nat, n: Count)
    | Load(t: nat)
    | Rollback(t: nat)
    | Free(k: nat)

  const EMPTY := State(0, [], [])

  function At(s: State, t: nat, attempt: Attempt): State
    requires t < |s.attempts|
  {
    s.(attempts := s.attempts[t := attempt])
  }

  function Do(max: Count, s: State, step: Step): State {
    match step
    case Spawn => s.(attempts := s.attempts + [Idle])
    case Add(t, n) =>
      if t < |s.attempts| && s.attempts[t].Idle? then At(s, t, Added(n)).(count := Plus(s.count, n)) else s
    case Load(t) =>
      if t >= |s.attempts| || !s.attempts[t].Added? then s
      else if s.count > max then At(s, t, Denied(s.attempts[t].n))
      else At(s, t, Idle).(blocks := s.blocks + [s.attempts[t].n])
    case Rollback(t) =>
      if t < |s.attempts| && s.attempts[t].Denied? then At(s, t, Idle).(count := Less(s.count, s.attempts[t].n)) else s
    case Free(k) =>
      if k < |s.blocks| then s.(count := Less(s.count, s.blocks[k]), blocks := s.blocks[..k] + s.blocks[k + 1..]) else s
  }

  function DoAll(max: Count, s: State, steps: seq<Step>): State
    decreases |steps|
  {
    if steps == [] then s else DoAll(max, Do(max, s, steps[0]), steps[1..])
  }

  // ---- counting ----

  function Live(blocks: seq<Count>): nat {
    if blocks == [] then 0 else Live(blocks[..|blocks| - 1]) + blocks[|blocks| - 1]
  }

  function Weight(attempt: Attempt): nat { if attempt.Idle? then 0 else attempt.n }

  function InProgress(attempts: seq<Attempt>): nat {
    if attempts == [] then 0 else InProgress(attempts[..|attempts| - 1]) + Weight(attempts[|attempts| - 1])
  }

  function Asked(s: State): nat { Live(s.blocks) + InProgress(s.attempts) }

  lemma {:induction false} LiveAppend(a: seq<Count>, b: seq<Count>)
    ensures Live(a + b) == Live(a) + Live(b)
  {
    if b == [] { assert a + b == a; } else {
      assert (a + b)[..|a + b| - 1] == a + b[..|b| - 1];
      LiveAppend(a, b[..|b| - 1]);
    }
  }

  lemma LiveOne(n: Count)
    ensures Live([n]) == n
  {
    assert [n][..0] == [];
  }

  lemma LiveWithout(blocks: seq<Count>, k: nat)
    requires k < |blocks|
    ensures Live(blocks) == Live(blocks[..k] + blocks[k + 1..]) + blocks[k]
  {
    hide Live;
    var before, after := blocks[..k], blocks[k + 1..];
    assert blocks == before + ([blocks[k]] + after);
    LiveAppend(before, [blocks[k]] + after);
    LiveAppend([blocks[k]], after);
    LiveAppend(before, after);
    LiveOne(blocks[k]);
  }

  lemma {:induction false} InProgressUpdate(attempts: seq<Attempt>, t: nat, attempt: Attempt)
    requires t < |attempts|
    ensures InProgress(attempts[t := attempt]) == InProgress(attempts) - Weight(attempts[t]) + Weight(attempt)
  {
    var n := |attempts| - 1;
    if t == n {
      assert attempts[t := attempt][..n] == attempts[..n];
    } else {
      assert attempts[t := attempt][..n] == attempts[..n][t := attempt];
      InProgressUpdate(attempts[..n], t, attempt);
    }
  }

  lemma {:induction false} InProgressAtLeast(attempts: seq<Attempt>, t: nat)
    requires t < |attempts|
    ensures InProgress(attempts) >= Weight(attempts[t])
  {
    if t < |attempts| - 1 { InProgressAtLeast(attempts[..|attempts| - 1], t); }
  }

  // ---- what every interleaving keeps ----

  /** How a step changes what the threads hold and ask for. */
  function Change(s: State, step: Step): int {
    match step
    case Add(t, n) => if t < |s.attempts| && s.attempts[t].Idle? then n as int else 0
    case Rollback(t) => if t < |s.attempts| && s.attempts[t].Denied? then 0 - s.attempts[t].n as int else 0
    case Free(k) => if k < |s.blocks| then 0 - s.blocks[k] as int else 0
    case _ => 0
  }

  lemma AskedAfter(max: Count, s: State, step: Step)
    ensures Asked(Do(max, s, step)) == Asked(s) + Change(s, step)
  {
    match step
    case Spawn => assert (s.attempts + [Idle])[..|s.attempts|] == s.attempts;
    case Add(t, n) => if t < |s.attempts| { InProgressUpdate(s.attempts, t, Added(n)); }
    case Load(t) =>
      if t < |s.attempts| && s.attempts[t].Added? {
        InProgressUpdate(s.attempts, t, Denied(s.attempts[t].n));
        InProgressUpdate(s.attempts, t, Idle);
        LiveAppend(s.blocks, [s.attempts[t].n]);
        assert [s.attempts[t].n][..0] == [];
      }
    case Rollback(t) => if t < |s.attempts| { InProgressUpdate(s.attempts, t, Idle); }
    case Free(k) => if k < |s.blocks| { LiveWithout(s.blocks, k); }
  }

  predicate Words(asked: nat, count: Count, words: nat) { asked == count + words * WORD }

  /** The counter is always the bytes held plus the bytes asked for, less whole words. */
  ghost predicate Counted(s: State) { exists words: nat :: Words(Asked(s), s.count, words) }

  lemma MoreCounted(asked: nat, count: Count, n: Count, words: nat)
    requires Words(asked, count, words)
    ensures Words(asked + n, Plus(count, n), if count + n < WORD then words else words + 1)
  {
  }

  lemma LessCounted(asked: nat, count: Count, n: Count, words: nat)
    requires Words(asked, count, words) && asked >= n
    ensures count < n ==> words >= 1
    ensures Words(asked - n, Less(count, n), if count >= n then words else words - 1)
  {
  }

  lemma StepCounts(max: Count, s: State, step: Step)
    requires Counted(s)
    ensures Counted(Do(max, s, step))
  {
    AskedAfter(max, s, step);
    var words :| Words(Asked(s), s.count, words);
    match step
    case Add(t, n) => MoreCounted(Asked(s), s.count, n, words);
    case Rollback(t) =>
      if t < |s.attempts| && s.attempts[t].Denied? {
        InProgressAtLeast(s.attempts, t);
        LessCounted(Asked(s), s.count, s.attempts[t].n, words);
      }
    case Free(k) =>
      if k < |s.blocks| {
        LiveWithout(s.blocks, k);
        LessCounted(Asked(s), s.count, s.blocks[k], words);
      }
    case _ => assert Words(Asked(Do(max, s, step)), Do(max, s, step).count, words);
  }

  /** No wrap anywhere on the way. */
  ghost predicate NeverWraps(max: Count, s: State, steps: seq<Step>)
    decreases |steps|
  {
    Asked(s) < WORD && (steps == [] || NeverWraps(max, Do(max, s, steps[0]), steps[1..]))
  }

  lemma LiveStep(max: Count, s: State, step: Step)
    requires Counted(s) && Asked(s) < WORD && Live(s.blocks) <= max
    ensures Live(Do(max, s, step).blocks) <= max
  {
    match step
    case Load(t) =>
      if t < |s.attempts| && s.attempts[t].Added? {
        InProgressAtLeast(s.attempts, t);
        LiveAppend(s.blocks, [s.attempts[t].n]);
        assert [s.attempts[t].n][..0] == [];
      }
    case Free(k) => if k < |s.blocks| { LiveWithout(s.blocks, k); }
    case _ =>
  }

  lemma {:induction false} RunKeeps(max: Count, s: State, steps: seq<Step>)
    requires Counted(s)
    ensures Counted(DoAll(max, s, steps))
    ensures NeverWraps(max, s, steps) ==> Asked(DoAll(max, s, steps)) < WORD
    ensures Live(s.blocks) <= max && NeverWraps(max, s, steps) ==> Live(DoAll(max, s, steps).blocks) <= max
    decreases |steps|
  {
    if steps != [] {
      StepCounts(max, s, steps[0]);
      if Live(s.blocks) <= max && NeverWraps(max, s, steps) { LiveStep(max, s, steps[0]); }
      RunKeeps(max, Do(max, s, steps[0]), steps[1..]);
    }
  }

  /** In every interleaving the counter is the bytes held plus the attempts under way, less
      whole words; and as long as that sum never reaches a word, it is exactly that sum and the
      buffers never hold more than the limit. */
  lemma LimitOverRuns(max: Count, steps: seq<Step>)
    ensures Counted(DoAll(max, EMPTY, steps))
    ensures var s := DoAll(max, EMPTY, steps);
      NeverWraps(max, EMPTY, steps) ==> s.count == Live(s.blocks) + InProgress(s.attempts) && Live(s.blocks) <= max
  {
    assert Words(Asked(EMPTY), EMPTY.count, 0);
    RunKeeps(max, EMPTY, steps);
  }

  /** An attempt is denied exactly when all that is held and asked for is over the limit, its
      own bytes or another thread's; and a denied attempt that is finished leaves the counter
      at what the others hold and ask for. */
  lemma DenialIsOnTheSum(max: Count, s: State, t: nat)
    requires Counted(s) && Asked(s) < WORD && t < |s.attempts| && s.attempts[t].Added?
    ensures Do(max, s, Load(t)).attempts[t].Denied? <==> Live(s.blocks) + InProgress(s.attempts) > max
    ensures Do(max, s, Load(t)).attempts[t].Denied? ==>
      Do(max, Do(max, s, Load(t)), Rollback(t)).count == Live(s.blocks) + InProgress(s.attempts[t := Idle])
  {
    var denied := Do(max, s, Load(t));
    StepCounts(max, s, Load(t));
    StepCounts(max, denied, Rollback(t));
    AskedAfter(max, s, Load(t));
    AskedAfter(max, denied, Rollback(t));
    if s.count > max { assert denied.attempts[t := Idle] == s.attempts[t := Idle]; }
  }

  lemma Cons(max: Count, s: State, step: Step, rest: seq<Step>)
    ensures DoAll(max, s, [step] + rest) == DoAll(max, Do(max, s, step), rest)
  {
    assert ([step] + rest)[1..] == rest;
  }

  /** Why a wrap has to be ruled out: the check of the counter alone would admit an attempt for
      a whole word less the bytes already held. The program cannot make such a buffer; what is
      needed of the sizes is in `SmallAttemptsKeepTheLimit`. */
  lemma TheCounterAloneWouldWrap(max: Count, held: Count) returns (steps: seq<Step>)
    requires 0 < held <= max
    ensures Live(DoAll(max, EMPTY, steps).blocks) == WORD > max
  {
    var rest: Count := WORD - held;
    var one := State(0, [], [Idle]);
    var two := State(held, [], [Added(held)]);
    var three := State(held, [held], [Idle]);
    var four := State(0, [held], [Added(rest)]);
    var five := State(0, [held, rest], [Idle]);
    assert Do(max, EMPTY, Spawn) == one && Do(max, one, Add(0, held)) == two && Do(max, two, Load(0)) == three;
    assert Do(max, three, Add(0, rest)) == four && Do(max, four, Load(0)) == five;
    steps := [Spawn] + ([Add(0, held)] + ([Load(0)] + ([Add(0, rest)] + ([Load(0)] + []))));
    Cons(max, four, Load(0), []);
    Cons(max, three, Add(0, rest), [Load(0)] + []);
    Cons(max, two, Load(0), [Add(0, rest)] + ([Load(0)] + []));
    Cons(max, one, Add(0, held), [Load(0)] + ([Add(0, rest)] + ([Load(0)] + [])));
    Cons(max, EMPTY, Spawn, [Add(0, held)] + ([Load(0)] + ([Add(0, rest)] + ([Load(0)] + []))));
    assert DoAll(max, five, []) == five;
    var blocks: seq<Count> := [held, rest];
    assert blocks[..1] == [held] && [held][..0] == [];
    assert Live([held]) == held && Live(blocks) == held + rest;
  }

  // ---- when the counter cannot wrap ----

  /** Every attempt asks for at most `most` bytes, and there are at most `threads` threads. */
  predicate Small(steps: seq<Step>, most: Count, threads: nat) {
    Spawns(steps) <= threads && forall i :: 0 <= i < |steps| && steps[i].Add? ==> steps[i].n <= most
  }

  function Spawns(steps: seq<Step>): nat {
    if steps == [] then 0 else (if steps[0].Spawn? then 1 else 0) + Spawns(steps[1..])
  }

  ghost predicate SmallState(s: State, most: Count) {
    forall t :: 0 <= t < |s.attempts| ==> Weight(s.attempts[t]) <= most
  }

  lemma {:induction false} InProgressAtMost(attempts: seq<Attempt>, most: Count, threads: nat)
    requires |attempts| <= threads && forall t :: 0 <= t < |attempts| ==> Weight(attempts[t]) <= most
    ensures InProgress(attempts) <= threads * most
  {
    if attempts == [] {
      assert threads * most >= 0;
    } else {
      InProgressAtMost(attempts[..|attempts| - 1], most, threads - 1);
      assert (threads - 1) * most + most == threads * most;
    }
  }

  lemma {:induction false} SmallRunNeverWraps(max: Count, s: State, steps: seq<Step>, most: Count, threads: nat)
    requires Counted(s) && Live(s.blocks) <= max && SmallState(s, most)
    requires forall i :: 0 <= i < |steps| && steps[i].Add? ==> steps[i].n <= most
    requires |s.attempts| + Spawns(steps) <= threads && max + threads * most < WORD
    ensures NeverWraps(max, s, steps)
    decreases |steps|
  {
    InProgressAtMost(s.attempts, most, threads);
    if steps != [] {
      StepCounts(max, s, steps[0]);
      LiveStep(max, s, steps[0]);
      SmallRunNeverWraps(max, Do(max, s, steps[0]), steps[1..], most, threads);
    }
  }

  /** So the limit holds in every interleaving of a known number of threads whose attempts are
      of a known size, as long as the limit and one attempt of each of them fit in a word. */
  lemma SmallAttemptsKeepTheLimit(max: Count, steps: seq<Step>, most: Count, threads: nat)
    requires Small(steps, most, threads) && max + threads * most < WORD
    ensures var s := DoAll(max, EMPTY, steps); Live(s.blocks) <= max && s.count == Live(s.blocks) + InProgress(s.attempts)
  {
    assert Words(Asked(EMPTY), EMPTY.count, 0);
    SmallRunNeverWraps(max, EMPTY, steps, most, threads);
    LimitOverRuns(max, steps);
  }
}
