/**
 The turns of requests on one isolate, and the guards of their limits, which fire from other
 threads. The state machine interleaves the two one atomic step at a time: taking and
 giving up the turn, the rounds of JavaScript in it, and for each guard the three steps of
 firing: leaving the watchdog's map, setting its flag, terminating through the turn.
 */
module TurnSafety {
  import opened Options

  datatype Limit = Wall | Cpu | Memory

  /** The turn of an isolate. `terminating` is V8's own flag. */
  datatype TurnView = TurnView(holder: Option<nat>, terminating: bool, memoryFlag: bool)

  function Given(t: TurnView, request: nat): TurnView {
    t.(holder := Some(request), terminating := false)
  }

  function Killed(t: TurnView, request: nat): TurnView {
    if t.holder == Some(request) then t.(terminating := true) else t
  }

  /** The turn in place. */
  class Turn {
    var holder: Option<nat>
    var terminating: bool
    var memoryFlag: bool

    ghost function View(): TurnView
      reads this
    {
      TurnView(holder, terminating, memoryFlag)
    }

    method Begin(request: nat)
      modifies `holder, `terminating
      ensures View() == Given(old(View()), request)
    {
      holder := Some(request);
      terminating := false;
    }

    /** `hit`: JavaScript of the ending turn ran into a memory limit. */
    method End() returns (hit: bool)
      modifies `holder, `memoryFlag
      ensures View() == old(View()).(holder := None, memoryFlag := false)
      ensures hit == old(memoryFlag)
    {
      holder := None;
      hit := memoryFlag;
      memoryFlag := false;
    }

    /** Whether the request held the turn. */
    method Terminate(request: nat) returns (cut: bool)
      modifies `terminating
      ensures View() == Killed(old(View()), request)
      ensures cut <==> holder == Some(request)
    {
      if holder != Some(request) { return false; }
      terminating := true;
      cut := true;
    }
  }

  // ---- guards ----

  datatype Stage = Waiting | Taken | Flagged | Spent | Withdrawn

  /** A deadline or a CPU budget. `turn` is the turn a guard was made for; a guard of a
      whole event has none. */
  datatype Guard = Guard(request: nat, limit: Limit, turn: Option<nat>, stage: Stage)

  /** The flags that a request reads to see that it was stopped. */
  datatype Hits = Hits(wall: set<nat>, cpu: set<nat>, memory: set<nat>)

  predicate Hit(h: Hits, request: nat) {
    request in h.wall || request in h.cpu || request in h.memory
  }

  /** The turn under way: whose it is, whether the event loop runs it or a phase that looks
      at no flag, and the guard made for this turn alone, if it has one. */
  datatype Mode = Mode(request: nat, loop: bool, own: Option<nat>)

  datatype Verdict = Open | Exits | Stopped

  /** Where the thread that holds the isolate is. */
  datatype Phase =
    | NoTurn
    | Checking(mode: Mode)
    | Running(mode: Mode)
    | Leaving(mode: Mode, verdict: Verdict)
    | Released(mode: Mode, verdict: Verdict)
    | Counted(mode: Mode, verdict: Verdict)

  datatype Cut = Cut(limit: Limit, guard: Option<nat>)

  /** What happened: the number of turns, what terminated the present one, who hit a memory
      limit, which limit fired for whom, and who ran JavaScript in which turn of its loop. */
  datatype Log = Log(turns: nat, cut: Option<Cut>, memoryBy: set<nat>, fired: set<(nat, Limit)>, drained: seq<nat>)

  datatype State = State(turn: TurnView, phase: Phase, guards: seq<Guard>, hits: Hits, ended: set<nat>, log: Log)

  const EMPTY := State(TurnView(None, false, false), NoTurn, [], Hits({}, {}, {}), {}, Log(0, None, {}, {}, []))

  datatype Step =
    // the thread of the isolate
    | Start(request: nat, loop: bool, perTurn: bool)
    | Check
    | Drain
    | HitMemory
    | Leave(exits: bool)
    | Account
    | Release
    | Count
    | Settle
    | Unwind
    | Expire(request: nat)
    // the guards
    | Arm(request: nat, limit: Limit)
    | Take(guard: nat)
    | Flag(guard: nat)
    | Kill(guard: nat)
    | Withdraw(guard: nat)

  predicate IsTerminated(s: State, request: nat) {
    s.turn.terminating || Hit(s.hits, request)
  }

  predicate Triggered(guard: Guard) { guard.stage.Flagged? || guard.stage.Spent? }

  /** A turn begins: a termination left from the turn before is cancelled. */
  function DoStart(s: State, request: nat, loop: bool, perTurn: bool): State {
    if !s.phase.NoTurn? || request in s.ended then s
    else
      var guarded := loop && perTurn;
      var mode := Mode(request, loop, if guarded then Some(|s.guards|) else None);
      s.(turn := Given(s.turn, request),
         phase := if loop then Checking(mode) else Running(mode),
         guards := if guarded then s.guards + [Guard(request, Wall, Some(s.log.turns + 1), Waiting)] else s.guards,
         log := s.log.(turns := s.log.turns + 1, cut := None))
  }

  function DoCheck(s: State): State {
    if !s.phase.Checking? then s
    else if IsTerminated(s, s.phase.mode.request) then s.(phase := Leaving(s.phase.mode, Stopped))
    else s.(phase := Running(s.phase.mode))
  }

  /** A round of callbacks. V8 runs none once it is terminating. */
  function DoDrain(s: State): State {
    if !s.phase.Running? || s.turn.terminating || !s.phase.mode.loop then s
    else s.(log := s.log.(drained := s.log.drained + [s.phase.mode.request]))
  }

  /** The limit callbacks of the heap and of the buffers run inside the JavaScript. */
  function DoHitMemory(s: State): State {
    if !s.phase.Running? then s
    else
      var request := s.phase.mode.request;
      s.(turn := s.turn.(memoryFlag := true, terminating := true),
         log := s.log.(cut := Some(Cut(Memory, None)), memoryBy := s.log.memoryBy + {request}, fired := s.log.fired + {(request, Memory)}))
  }

  function DoLeave(s: State, exits: bool): State {
    if !s.phase.Running? then s else s.(phase := Leaving(s.phase.mode, if exits then Exits else Open))
  }

  /** The CPU of the turn spent the budget. */
  function DoAccount(s: State): State {
    if !s.phase.Leaving? then s
    else
      var request := s.phase.mode.request;
      s.(hits := s.hits.(cpu := s.hits.cpu + {request}), log := s.log.(fired := s.log.fired + {(request, Cpu)}))
  }

  function DoRelease(s: State): State {
    if !s.phase.Leaving? then s
    else s.(turn := s.turn.(holder := None), phase := Released(s.phase.mode, s.phase.verdict))
  }

  function DoCount(s: State): State {
    if !s.phase.Released? then s
    else
      s.(turn := s.turn.(memoryFlag := false),
         phase := Counted(s.phase.mode, s.phase.verdict),
         hits := if s.turn.memoryFlag then s.hits.(memory := s.hits.memory + {s.phase.mode.request}) else s.hits)
  }

  /** The end of a poll: the guard of the turn is read and withdrawn, and a request that
      any flag stopped is over. */
  function DoSettle(s: State): State {
    if !s.phase.Counted? then s
    else
      var mode, verdict := s.phase.mode, s.phase.verdict;
      var own := mode.own;
      // the guard is read only at the end of a round that neither stopped nor left the loop
      var hits :=
        if verdict.Open? && own.Some? && own.value < |s.guards| && Triggered(s.guards[own.value])
        then s.hits.(wall := s.hits.wall + {mode.request}) else s.hits;
      var guards :=
        if own.Some? && own.value < |s.guards| && s.guards[own.value].stage.Waiting?
        then s.guards[own.value := s.guards[own.value].(stage := Withdrawn)] else s.guards;
      var over := verdict.Stopped? || (verdict.Open? && mode.loop && (s.turn.terminating || Hit(hits, mode.request)));
      s.(phase := NoTurn, hits := hits, guards := guards, ended := if over then s.ended + {mode.request} else s.ended)
  }

  /** V8 lets the termination go once no JavaScript is left to unwind. */
  function DoUnwind(s: State): State {
    if s.phase.Leaving? || s.phase.Released? || s.phase.Counted? then s.(turn := s.turn.(terminating := false)) else s
  }

  /** A parked request whose deadline the loop saw itself. */
  function DoExpire(s: State, request: nat): State {
    if !s.phase.NoTurn? then s
    else
      s.(hits := s.hits.(wall := s.hits.wall + {request}), ended := s.ended + {request},
         log := s.log.(fired := s.log.fired + {(request, Wall)}))
  }

  function Staged(s: State, i: nat, stage: Stage): State
    requires i < |s.guards|
  {
    s.(guards := s.guards[i := s.guards[i].(stage := stage)])
  }

  function DoTake(s: State, i: nat): State {
    if i < |s.guards| && s.guards[i].stage.Waiting? then Staged(s, i, Taken) else s
  }

  /** The flag. A CPU flag that is already set is not followed by a termination. */
  function DoFlag(s: State, i: nat): State {
    if i >= |s.guards| || !s.guards[i].stage.Taken? then s
    else
      var guard := s.guards[i];
      var s1 := s.(log := s.log.(fired := s.log.fired + {(guard.request, guard.limit)}));
      match guard.limit
      case Wall =>
        Staged(if guard.turn.None? then s1.(hits := s1.hits.(wall := s1.hits.wall + {guard.request})) else s1, i, Flagged)
      case _ =>
        Staged(s1.(hits := s1.hits.(cpu := s1.hits.cpu + {guard.request})), i, if guard.request in s.hits.cpu then Spent else Flagged)
  }

  function DoKill(s: State, i: nat): State {
    if i >= |s.guards| || !s.guards[i].stage.Flagged? then s
    else
      var guard := s.guards[i];
      var s1 := Staged(s, i, Spent);
      if s.turn.holder == Some(guard.request) then
        s1.(turn := Killed(s.turn, guard.request), log := s.log.(cut := Some(Cut(guard.limit, Some(i)))))
      else s1
  }

  function Do(s: State, step: Step): State {
    match step
    case Start(request, loop, perTurn) => DoStart(s, request, loop, perTurn)
    case Check => DoCheck(s)
    case Drain => DoDrain(s)
    case HitMemory => DoHitMemory(s)
    case Leave(exits) => DoLeave(s, exits)
    case Account => DoAccount(s)
    case Release => DoRelease(s)
    case Count => DoCount(s)
    case Settle => DoSettle(s)
    case Unwind => DoUnwind(s)
    case Expire(request) => DoExpire(s, request)
    case Arm(request, limit) =>
      if limit.Memory? then s else s.(guards := s.guards + [Guard(request, limit, None, Waiting)])
    case Take(i) => DoTake(s, i)
    case Flag(i) => DoFlag(s, i)
    case Kill(i) => DoKill(s, i)
    case Withdraw(i) =>
      if i < |s.guards| && s.guards[i].stage.Waiting? then Staged(s, i, Withdrawn) else s
  }

  function DoAll(s: State, steps: seq<Step>): State
    decreases |steps|
  {
    if steps == [] then s else DoAll(Do(s, steps[0]), steps[1..])
  }

  // ---- what every interleaving keeps ----

  predicate Fired(log: Log, request: nat) { exists limit :: (request, limit) in log.fired }

  /** The turn is held exactly while JavaScript of its request can run. */
  ghost predicate Holding(turn: TurnView, phase: Phase) {
    turn.holder == match phase
      case Checking(mode) => Some(mode.request)
      case Running(mode) => Some(mode.request)
      case Leaving(mode, _) => Some(mode.request)
      case _ => None
  }

  ghost predicate GuardsFired(guards: seq<Guard>, hits: Hits, log: Log) {
    forall i :: 0 <= i < |guards| ==>
      && !guards[i].limit.Memory?
      && (Triggered(guards[i]) ==>
        && (guards[i].request, guards[i].limit) in log.fired
        && (guards[i].limit.Cpu? ==> guards[i].request in hits.cpu)
        && (guards[i].limit.Wall? && guards[i].turn.None? ==> guards[i].request in hits.wall))
  }

  ghost predicate HitsFired(hits: Hits, log: Log) {
    && (forall r :: r in hits.wall ==> (r, Wall) in log.fired)
    && (forall r :: r in hits.cpu ==> (r, Cpu) in log.fired)
    && (forall r :: r in hits.memory ==> (r, Memory) in log.fired)
  }

  /** Memory is charged to the request whose turn hit it, at the end of that turn. */
  ghost predicate MemoryCharged(turn: TurnView, phase: Phase, hits: Hits, log: Log) {
    && (turn.memoryFlag ==> phase.Running? || phase.Leaving? || phase.Released?)
    && log.memoryBy == hits.memory + (if turn.memoryFlag && !phase.NoTurn? then {phase.mode.request} else {})
    && (forall r :: r in log.memoryBy ==> (r, Memory) in log.fired)
  }

  /** Whatever terminated the present turn is a limit of the request that has it. */
  ghost predicate CutIsOwn(s: State) {
    && (s.turn.terminating && !s.phase.NoTurn? ==> s.log.cut.Some?)
    && (s.log.cut.Some? && !s.phase.NoTurn? ==>
      var request, cut := s.phase.mode.request, s.log.cut.value;
      && (request, cut.limit) in s.log.fired
      && (cut.limit.Memory? <==> cut.guard.None?)
      && (cut.limit.Memory? ==> request in s.log.memoryBy && !s.phase.Checking?)
      && (cut.guard.Some? ==>
        && cut.guard.value < |s.guards| && s.guards[cut.guard.value].request == request
        && s.guards[cut.guard.value].limit == cut.limit && s.guards[cut.guard.value].stage.Spent?))
  }

  ghost predicate OwnGuard(s: State) {
    !s.phase.NoTurn? && s.phase.mode.own.Some? ==>
      && s.phase.mode.own.value < |s.guards|
      && s.guards[s.phase.mode.own.value].request == s.phase.mode.request
      && s.guards[s.phase.mode.own.value].limit.Wall?
      && s.guards[s.phase.mode.own.value].turn == Some(s.log.turns)
  }

  /** A guard of one turn is the guard of the present turn or is of an earlier one. */
  ghost predicate TurnGuards(s: State) {
    forall i :: 0 <= i < |s.guards| && s.guards[i].turn.Some? ==>
      && s.guards[i].turn.value <= s.log.turns
      && (!s.phase.NoTurn? && s.guards[i].turn.value == s.log.turns ==> s.phase.mode.own == Some(i))
  }

  ghost predicate EndedFired(s: State) {
    && (forall r :: r in s.ended ==> Fired(s.log, r))
    && ((s.phase.Leaving? || s.phase.Released? || s.phase.Counted?) && s.phase.verdict.Stopped? ==> Fired(s.log, s.phase.mode.request))
  }

  ghost predicate Inv(s: State) {
    && Holding(s.turn, s.phase)
    && GuardsFired(s.guards, s.hits, s.log)
    && HitsFired(s.hits, s.log)
    && MemoryCharged(s.turn, s.phase, s.hits, s.log)
    && CutIsOwn(s)
    && OwnGuard(s)
    && TurnGuards(s)
    && EndedFired(s)
  }

  lemma StartKeeps(s: State, request: nat, loop: bool, perTurn: bool)
    requires Inv(s)
    ensures Inv(DoStart(s, request, loop, perTurn))
  {
  }

  lemma CheckKeeps(s: State)
    requires Inv(s)
    ensures Inv(DoCheck(s))
  {
  }

  lemma DrainKeeps(s: State)
    requires Inv(s)
    ensures Inv(DoDrain(s))
  {
  }

  lemma HitMemoryKeeps(s: State)
    requires Inv(s)
    ensures Inv(DoHitMemory(s))
  {
  }

  lemma LeaveKeeps(s: State, exits: bool)
    requires Inv(s)
    ensures Inv(DoLeave(s, exits))
  {
  }

  lemma AccountKeeps(s: State)
    requires Inv(s)
    ensures Inv(DoAccount(s))
  {
  }

  lemma ReleaseKeeps(s: State)
    requires Inv(s)
    ensures Inv(DoRelease(s))
  {
  }

  lemma CountKeeps(s: State)
    requires Inv(s)
    ensures Inv(DoCount(s))
  {
  }

  lemma SettleKeeps(s: State)
    requires Inv(s)
    ensures Inv(DoSettle(s))
  {
  }

  lemma UnwindKeeps(s: State)
    requires Inv(s)
    ensures Inv(DoUnwind(s))
  {
  }

  lemma ExpireKeeps(s: State, request: nat)
    requires Inv(s)
    ensures Inv(DoExpire(s, request))
  {
  }

  lemma TakeKeeps(s: State, i: nat)
    requires Inv(s)
    ensures Inv(DoTake(s, i))
  {
  }

  lemma FlagGuards(s: State, i: nat)
    requires GuardsFired(s.guards, s.hits, s.log)
    ensures var t := DoFlag(s, i); GuardsFired(t.guards, t.hits, t.log)
  {
  }

  lemma FlagHits(s: State, i: nat)
    requires HitsFired(s.hits, s.log) && GuardsFired(s.guards, s.hits, s.log) && MemoryCharged(s.turn, s.phase, s.hits, s.log)
    ensures var t := DoFlag(s, i); HitsFired(t.hits, t.log) && MemoryCharged(t.turn, t.phase, t.hits, t.log)
  {
  }

  ghost predicate SameTurn(s: State, t: State) {
    && t.turn == s.turn && t.phase == s.phase && t.ended == s.ended
    && t.log.turns == s.log.turns && t.log.cut == s.log.cut && t.log.memoryBy == s.log.memoryBy
    && s.log.fired <= t.log.fired && |t.guards| == |s.guards|
    && forall k :: 0 <= k < |s.guards| ==>
        && t.guards[k].request == s.guards[k].request && t.guards[k].limit == s.guards[k].limit
        && t.guards[k].turn == s.guards[k].turn && (s.guards[k].stage.Spent? ==> t.guards[k].stage.Spent?)
  }

  lemma FlagFrame(s: State, i: nat)
    ensures SameTurn(s, DoFlag(s, i))
  {
  }

  lemma SameTurnKeeps(s: State, t: State)
    requires SameTurn(s, t) && OwnGuard(s) && TurnGuards(s) && EndedFired(s) && CutIsOwn(s)
    ensures OwnGuard(t) && TurnGuards(t) && EndedFired(t) && CutIsOwn(t)
  {
    forall r: nat | Fired(s.log, r) ensures Fired(t.log, r) {
      var limit :| (r, limit) in s.log.fired;
      assert (r, limit) in t.log.fired;
    }
  }

  lemma FlagKeeps(s: State, i: nat)
    requires Inv(s)
    ensures Inv(DoFlag(s, i))
  {
    FlagGuards(s, i);
    FlagHits(s, i);
    FlagFrame(s, i);
    SameTurnKeeps(s, DoFlag(s, i));
  }

  lemma KillKeeps(s: State, i: nat)
    requires Inv(s)
    ensures Inv(DoKill(s, i))
  {
  }

  lemma StepKeeps(s: State, step: Step)
    requires Inv(s)
    ensures Inv(Do(s, step))
  {
    match step
    case Start(request, loop, perTurn) => StartKeeps(s, request, loop, perTurn);
    case Check => CheckKeeps(s);
    case Drain => DrainKeeps(s);
    case HitMemory => HitMemoryKeeps(s);
    case Leave(exits) => LeaveKeeps(s, exits);
    case Account => AccountKeeps(s);
    case Release => ReleaseKeeps(s);
    case Count => CountKeeps(s);
    case Settle => SettleKeeps(s);
    case Unwind => UnwindKeeps(s);
    case Expire(request) => ExpireKeeps(s, request);
    case Arm(_, _) =>
    case Take(i) => TakeKeeps(s, i);
    case Flag(i) => FlagKeeps(s, i);
    case Kill(i) => KillKeeps(s, i);
    case Withdraw(_) =>
  }

  lemma {:induction false} RunKeeps(s: State, steps: seq<Step>)
    requires Inv(s)
    ensures Inv(DoAll(s, steps))
    decreases |steps|
  {
    if steps != [] {
      StepKeeps(s, steps[0]);
      RunKeeps(Do(s, steps[0]), steps[1..]);
    }
  }

  lemma ReachedKeeps(steps: seq<Step>)
    ensures Inv(DoAll(EMPTY, steps))
  {
    RunKeeps(EMPTY, steps);
  }

  // ---- the theorems ----

  /** While a request holds the turn, V8 is terminating only because a limit of that very
      request fired in that turn: a guard that was made for the request, or memory that its
      own JavaScript allocated. */
  lemma OnlyItsOwnLimitCuts(steps: seq<Step>)
    requires var s := DoAll(EMPTY, steps); s.turn.holder.Some? && s.turn.terminating
    ensures var s := DoAll(EMPTY, steps);
      var request := s.turn.holder.value;
      && s.log.cut.Some?
      && var cut := s.log.cut.value;
      && (request, cut.limit) in s.log.fired
      && (cut.guard.None? ==> cut.limit.Memory? && request in s.log.memoryBy)
      && (cut.guard.Some? ==> cut.guard.value < |s.guards| && s.guards[cut.guard.value].request == request)
  {
    ReachedKeeps(steps);
  }

  /** Between turns, the requests charged with a memory limit are exactly those whose turns
      hit one. */
  lemma MemoryIsChargedToItsTurn(steps: seq<Step>)
    requires DoAll(EMPTY, steps).phase.NoTurn?
    ensures var s := DoAll(EMPTY, steps); s.hits.memory == s.log.memoryBy && !s.turn.memoryFlag
  {
    ReachedKeeps(steps);
  }

  /** A request is ended only by a limit of its own. */
  lemma OnlyItsOwnLimitEnds(steps: seq<Step>, request: nat)
    requires request in DoAll(EMPTY, steps).ended
    ensures Fired(DoAll(EMPTY, steps).log, request)
  {
    ReachedKeeps(steps);
  }

  ghost predicate Doomed(s: State, request: nat) {
    Hit(s.hits, request) && !(s.phase.Running? && s.phase.mode.request == request && s.phase.mode.loop)
  }

  lemma DoomedStep(s: State, request: nat, step: Step)
    requires Doomed(s, request)
    ensures Doomed(Do(s, step), request)
    ensures |s.log.drained| <= |Do(s, step).log.drained|
    ensures forall k :: |s.log.drained| <= k < |Do(s, step).log.drained| ==> Do(s, step).log.drained[k] != request
    ensures s.log.drained == Do(s, step).log.drained[..|s.log.drained|]
  {
  }

  /** A request that a guard, the CPU accounting or a memory limit marked between its turns
      processes no callback any more, whatever else runs on the isolate: its next turn of
      the event loop ends before it drains one. */
  lemma {:induction false} MarkedRunsNothing(s: State, request: nat, steps: seq<Step>)
    requires Doomed(s, request)
    ensures var drained := DoAll(s, steps).log.drained;
      && |s.log.drained| <= |drained|
      && s.log.drained == drained[..|s.log.drained|]
      && forall k :: |s.log.drained| <= k < |drained| ==> drained[k] != request
    decreases |steps|
  {
    if steps != [] {
      DoomedStep(s, request, steps[0]);
      MarkedRunsNothing(Do(s, steps[0]), request, steps[1..]);
    }
  }

  /** Whose turn it is, if the event loop runs it. */
  predicate LoopTurnOf(s: State, request: nat) {
    !s.phase.NoTurn? && s.phase.mode.loop && s.phase.mode.request == request
  }

  /** A marked request is on no turn of its loop, or on one that can only stop it. */
  ghost predicate Stopping(s: State, request: nat) {
    && Hit(s.hits, request)
    && (LoopTurnOf(s, request) ==>
         s.phase.Checking? || ((s.phase.Leaving? || s.phase.Released? || s.phase.Counted?) && s.phase.verdict.Stopped?))
  }

  lemma StoppingStep(s: State, request: nat, step: Step)
    requires Stopping(s, request)
    ensures Stopping(Do(s, step), request)
    ensures request in s.ended ==> request in Do(s, step).ended
    ensures LoopTurnOf(s, request) && !LoopTurnOf(Do(s, step), request) ==> request in Do(s, step).ended
  {
  }

  lemma {:induction false} RunStops(s: State, request: nat, steps: seq<Step>)
    requires Stopping(s, request)
    ensures Stopping(DoAll(s, steps), request)
    ensures request in s.ended ==> request in DoAll(s, steps).ended
    decreases |steps|
  {
    if steps != [] {
      StoppingStep(s, request, steps[0]);
      RunStops(Do(s, steps[0]), request, steps[1..]);
    }
  }

  /** A marked request ends with its next turn of the event loop: from a state in which it is
      marked and on no such turn, however the run goes on, the step that ends such a turn of it
      puts it among the ended, and it stays there. */
  lemma MarkedEnds(s: State, request: nat, steps: seq<Step>, last: Step, later: seq<Step>)
    requires Hit(s.hits, request) && !LoopTurnOf(s, request)
    requires LoopTurnOf(DoAll(s, steps), request) && !LoopTurnOf(Do(DoAll(s, steps), last), request)
    ensures request in Do(DoAll(s, steps), last).ended
    ensures request in DoAll(Do(DoAll(s, steps), last), later).ended
  {
    var t := DoAll(s, steps);
    RunStops(s, request, steps);
    StoppingStep(t, request, last);
    RunStops(Do(t, last), request, later);
  }

  /** The turn was cut by the guard of an earlier turn of the same request. */
  predicate Stale(s: State) {
    && s.log.cut.Some? && !s.phase.NoTurn?
    && var guard := s.log.cut.value.guard;
      guard.Some? && guard.value < |s.guards| && s.guards[guard.value].turn.Some? && s.phase.mode.own != guard
  }

  /** A turn of the event loop that was cut ends its request, so it never waits for a wake
      that was cut with it. The one exception is a cut by the guard of an earlier turn: that
      request ends exactly if V8 is still terminating or something else marked it too. */
  lemma CutEndsTheRequest(steps: seq<Step>)
    requires var s := DoAll(EMPTY, steps);
      && s.phase.Counted? && s.phase.verdict.Open? && s.phase.mode.loop && s.log.cut.Some?
      && s.phase.mode.request !in s.ended
    ensures var s := DoAll(EMPTY, steps);
      && (!Stale(s) ==> s.phase.mode.request in DoSettle(s).ended)
      && (Stale(s) ==> s.guards[s.log.cut.value.guard.value].turn.value < s.log.turns)
      && (Stale(s) ==> (s.phase.mode.request in DoSettle(s).ended
        <==> s.turn.terminating || Hit(s.hits, s.phase.mode.request)
             || (s.phase.mode.own.Some? && s.phase.mode.own.value < |s.guards| && Triggered(s.guards[s.phase.mode.own.value]))))
  {
    ReachedKeeps(steps);
  }

  /** The exception happens: the watchdog takes the guard of the first turn of a socket as
      due, the turn ends before the flag is set, and the flag and the termination land in the
      second turn. Its JavaScript is cut, and the request waits on. */
  lemma GuardOfAnEarlierTurnCuts()
    ensures var cut := DoAll(EMPTY, FIRST_TURN + SECOND_TURN);
      cut.turn.terminating && cut.turn.holder == Some(7) && Stale(cut)
    ensures var after := DoAll(EMPTY, FIRST_TURN + SECOND_TURN + ITS_END);
      after.phase.NoTurn? && 7 !in after.ended && !Hit(after.hits, 7)
  {
    FirstTurn();
    SecondTurn();
    ItsEnd();
    RunsAppend(EMPTY, FIRST_TURN, SECOND_TURN);
    RunsAppend(EMPTY, FIRST_TURN + SECOND_TURN, ITS_END);
    hide DoAll;
  }

  lemma {:induction false} RunsAppend(s: State, steps: seq<Step>, more: seq<Step>)
    ensures DoAll(s, steps + more) == DoAll(DoAll(s, steps), more)
    decreases |steps|
  {
    if steps == [] { assert steps + more == more; } else {
      assert (steps + more)[1..] == steps[1..] + more;
      RunsAppend(Do(s, steps[0]), steps[1..], more);
    }
  }

  lemma Then(s: State, step: Step, rest: seq<Step>)
    ensures DoAll(s, [step] + rest) == DoAll(Do(s, step), rest)
  {
    assert ([step] + rest)[1..] == rest;
  }

  /** Request 7 with these guards. */
  function Seven(phase: Phase, held: bool, terminating: bool, guards: seq<Guard>, log: Log): State {
    State(TurnView(if held then Some(7) else None, terminating, false), phase, guards, Hits({}, {}, {}), {}, log)
  }

  const FIRST_DUE := Guard(7, Wall, Some(1), Taken)
  const FIRST_SPENT := Guard(7, Wall, Some(1), Spent)
  const SECOND_WAITS := Guard(7, Wall, Some(2), Waiting)
  const FIRST := Mode(7, true, Some(0))
  const SECOND := Mode(7, true, Some(1))
  const ONE := Log(1, None, {}, {}, [])
  const TWO := Log(2, None, {}, {}, [])
  const CUT := Log(2, Some(Cut(Wall, Some(0))), {}, {(7, Wall)}, [])

  const FIRST_TURN := [Start(7, true, true)] + ([Check] + ([Take(0)] + ([Leave(false)] + ([Release] + ([Count] + ([Settle] + []))))))

  const SECOND_TURN := [Start(7, true, true)] + ([Check] + ([Flag(0)] + ([Kill(0)] + [])))

  const ITS_END := [Leave(false)] + ([Release] + ([Unwind] + ([Count] + ([Settle] + []))))

  lemma FirstTurn()
    ensures DoAll(EMPTY, FIRST_TURN) == Seven(NoTurn, false, false, [FIRST_DUE], ONE)
  {
    var waiting, due := [Guard(7, Wall, Some(1), Waiting)], [FIRST_DUE];
    var s1 := Seven(Checking(FIRST), true, false, waiting, ONE);
    var s2 := Seven(Running(FIRST), true, false, waiting, ONE);
    var s3 := Seven(Running(FIRST), true, false, due, ONE);
    assert Do(EMPTY, Start(7, true, true)) == s1 && Do(s1, Check) == s2 && Do(s2, Take(0)) == s3;
    FirstTurnEnds();
    hide DoAll, Do;
    var rest := [Leave(false)] + ([Release] + ([Count] + ([Settle] + [])));
    Then(s2, Take(0), rest);
    Then(s1, Check, [Take(0)] + rest);
    Then(EMPTY, Start(7, true, true), [Check] + ([Take(0)] + rest));
  }

  lemma FirstTurnEnds()
    ensures DoAll(Seven(Running(FIRST), true, false, [FIRST_DUE], ONE), [Leave(false)] + ([Release] + ([Count] + ([Settle] + []))))
      == Seven(NoTurn, false, false, [FIRST_DUE], ONE)
  {
    var due := [FIRST_DUE];
    var s1 := Seven(Running(FIRST), true, false, due, ONE);
    var s2 := Seven(Leaving(FIRST, Open), true, false, due, ONE);
    var s3 := Seven(Released(FIRST, Open), false, false, due, ONE);
    var s4 := Seven(Counted(FIRST, Open), false, false, due, ONE);
    var s5 := Seven(NoTurn, false, false, due, ONE);
    assert Do(s1, Leave(false)) == s2 && Do(s2, Release) == s3 && Do(s3, Count) == s4 && Do(s4, Settle) == s5;
    assert DoAll(s5, []) == s5;
    hide DoAll, Do;
    Then(s4, Settle, []);
    Then(s3, Count, [Settle] + []);
    Then(s2, Release, [Count] + ([Settle] + []));
    Then(s1, Leave(false), [Release] + ([Count] + ([Settle] + [])));
  }

  lemma SecondTurn()
    ensures DoAll(Seven(NoTurn, false, false, [FIRST_DUE], ONE), SECOND_TURN)
      == Seven(Running(SECOND), true, true, [FIRST_SPENT, SECOND_WAITS], CUT)
  {
    var guards := [FIRST_DUE, SECOND_WAITS];
    var flagged := [FIRST_DUE.(stage := Flagged), SECOND_WAITS];
    var s1 := Seven(NoTurn, false, false, [FIRST_DUE], ONE);
    var s2 := Seven(Checking(SECOND), true, false, guards, TWO);
    var s3 := Seven(Running(SECOND), true, false, guards, TWO);
    var s4 := Seven(Running(SECOND), true, false, flagged, TWO.(fired := {(7, Wall)}));
    var s5 := Seven(Running(SECOND), true, true, [FIRST_SPENT, SECOND_WAITS], CUT);
    assert Do(s1, Start(7, true, true)) == s2 && Do(s2, Check) == s3 && Do(s3, Flag(0)) == s4 && Do(s4, Kill(0)) == s5;
    assert DoAll(s5, []) == s5;
    hide DoAll, Do;
    Then(s4, Kill(0), []);
    Then(s3, Flag(0), [Kill(0)] + []);
    Then(s2, Check, [Flag(0)] + ([Kill(0)] + []));
    Then(s1, Start(7, true, true), [Check] + ([Flag(0)] + ([Kill(0)] + [])));
  }

  lemma ItsEnd()
    ensures DoAll(Seven(Running(SECOND), true, true, [FIRST_SPENT, SECOND_WAITS], CUT), ITS_END)
      == Seven(NoTurn, false, false, [FIRST_SPENT, SECOND_WAITS.(stage := Withdrawn)], CUT)
  {
    var guards := [FIRST_SPENT, SECOND_WAITS];
    var s1 := Seven(Running(SECOND), true, true, guards, CUT);
    var s2 := Seven(Leaving(SECOND, Open), true, true, guards, CUT);
    var s3 := Seven(Released(SECOND, Open), false, true, guards, CUT);
    var s4 := Seven(Released(SECOND, Open), false, false, guards, CUT);
    var s5 := Seven(Counted(SECOND, Open), false, false, guards, CUT);
    var s6 := Seven(NoTurn, false, false, [FIRST_SPENT, SECOND_WAITS.(stage := Withdrawn)], CUT);
    assert Do(s1, Leave(false)) == s2 && Do(s2, Release) == s3 && Do(s3, Unwind) == s4;
    assert Do(s4, Count) == s5 && Do(s5, Settle) == s6;
    assert DoAll(s6, []) == s6;
    hide DoAll, Do;
    Then(s5, Settle, []);
    Then(s4, Count, [Settle] + []);
    Then(s3, Unwind, [Count] + ([Settle] + []));
    Then(s2, Release, [Unwind] + ([Count] + ([Settle] + [])));
    Then(s1, Leave(false), [Release] + ([Unwind] + ([Count] + ([Settle] + []))));
  }
}
