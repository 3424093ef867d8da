/** What the two gates promise over every run of an object. */
module GateTheorems {
  import opened Lists
  import opened Options
  import opened Storage
  import opened ObjectQueue
  import opened ObjectGates
  import opened GateInvariants

  // ---- the output gate ----

  /** The host has performed the op, and no write before it failed. */
  predicate Committed(p: Pipe, call: Call)
    requires |p.ended| == |p.replies|
  {
    Stored(call) in p.ended[..FirstFailed(p.ended, p.replies)]
  }

  /** The host failed the op, or was never asked because a write before it failed. */
  predicate Lost(p: Pipe, call: Call)
    requires |p.ended| == |p.replies|
  {
    Stored(call) in p.ended[FirstFailed(p.ended, p.replies)..] && Writes(call.op)
  }

  lemma {:induction false} QueuedPrefix(taken: seq<Msg>, j: nat)
    requires j <= |taken|
    ensures Queued(taken[..j]) <= Queued(taken)
    decreases |taken|
  {
    if j < |taken| {
      QueuedPrefix(taken[..|taken| - 1], j);
      assert taken[..|taken| - 1][..j] == taken[..j];
    } else {
      assert taken[..j] == taken;
    }
  }

  lemma QueuedNext(taken: seq<Msg>, n: nat)
    requires n < |taken|
    ensures |GateOf(taken[n], Queued(taken[..n]) != [])| <= 1
    ensures Queued(taken[..n + 1]) == Queued(taken[..n]) + GateOf(taken[n], Queued(taken[..n]) != [])
  {
    assert taken[..n + 1][..n] == taken[..n];
  }

  /** Work in the queue comes from a message, behind the work of the messages before it. */
  lemma {:induction false} QueuedFrom(taken: seq<Msg>, n: nat, i: nat) returns (j: nat)
    requires n <= |taken| && i < |Queued(taken[..n])|
    ensures j < n && Queued(taken[..j]) == Queued(taken[..n])[..i]
    ensures GateOf(taken[j], Queued(taken[..j]) != []) == [Queued(taken[..n])[i]]
    decreases n
  {
    assert n > 0;
    QueuedNext(taken, n - 1);
    hide Queued, GateOf;
    var before := Queued(taken[..n - 1]);
    TakeOfAppend(before, GateOf(taken[n - 1], before != []), i);
    if i < |before| {
      j := QueuedFrom(taken, n - 1, i);
    } else {
      j := n - 1;
    }
  }

  lemma {:induction false} StorageIsQueued(taken: seq<Msg>, i: nat)
    requires i < |taken| && taken[i].ObjectStorage?
    ensures Stored(taken[i].call) in Queued(taken)
    decreases |taken|
  {
    if i < |taken| - 1 {
      StorageIsQueued(taken[..|taken| - 1], i);
    } else {
      assert Queued(taken)[|Queued(taken)| - 1] == Stored(taken[i].call);
    }
  }

  lemma {:induction false} GateIndex(works: seq<Work>, gate: nat) returns (i: nat)
    requires gate in Gates(works)
    ensures i < |works| && works[i] == Barrier(gate)
  {
    if works[0] == Barrier(gate) {
      i := 0;
    } else {
      i := GateIndex(works[1..], gate);
      i := i + 1;
    }
  }

  /** Work that got past the queue before any failure had every earlier op committed. */
  lemma PassedIsCommitted(p: Pipe, at: nat) returns (j: nat)
    requires Piped(p) && at < |p.ended| && at <= FirstFailed(p.ended, p.replies)
    ensures j < |p.taken| && GateOf(p.taken[j], Queued(p.taken[..j]) != []) == [p.ended[at]]
    ensures forall i :: 0 <= i < j && p.made[i].ObjectStorage? ==> Committed(p, p.made[i].call)
  {
    assert Queued(p.taken)[at] == p.ended[at] && Queued(p.taken)[..at] == p.ended[..at];
    assert p.taken[..|p.taken|] == p.taken;
    j := QueuedFrom(p.taken, |p.taken|, at);
    forall i | 0 <= i < j && p.made[i].ObjectStorage? ensures Committed(p, p.made[i].call) {
      assert p.taken[..j][i] == p.made[i];
      StorageIsQueued(p.taken[..j], i);
      assert Stored(p.made[i].call) in p.ended[..at];
    }
  }

  /** An output that met no queue has no storage op before it. */
  lemma NothingBeforeFree(p: Pipe, e: Exits, out: nat, i: nat)
    requires Piped(p) && FreedEarly(p.taken, e.free) && Announced(p.made, e.outputs)
    requires out in e.free && out in e.outputs && i < e.outputs[out].since <= |p.made|
    ensures !p.made[i].ObjectStorage?
  {
    var j :| 0 <= j < |p.taken| && IsOut(p.taken[j]) && p.taken[j].out == out && Queued(p.taken[..j]) == [];
    assert p.made[j] == p.taken[j];
    assert p.taken[..j][i] == p.made[i];
    if p.made[i].ObjectStorage? { StorageIsQueued(p.taken[..j], i); }
  }

  lemma OpenIsCommitted(s: State, out: nat, i: nat)
    requires Piped(s.pipe) && FreedEarly(s.pipe.taken, s.exits.free)
    requires out in s.exits.outputs && GateOpen(s.pipe, s.exits, out)
    requires i < s.exits.outputs[out].since <= |s.pipe.made| && s.pipe.made[i].ObjectStorage?
    requires Announced(s.pipe.made, s.exits.outputs)
    ensures Committed(s.pipe, s.pipe.made[i].call)
  {
    var p, e := s.pipe, s.exits;
    if out in e.free {
      NothingBeforeFree(p, e, out, i);
    } else {
      var k := FirstFailed(p.ended, p.replies);
      RunMeaning(p.ended, p.replies);
      hide FreedEarly, Run, FirstFailed, Queued, Committed;
      var at := GateIndex(p.ended[..k], out);
      assert p.ended[at] == Barrier(out);
      var j := PassedIsCommitted(p, at);
      assert p.made[j] == p.taken[j] && p.made[j].out == out;
    }
  }

  /** Output gate, end to end: a response, an alarm outcome, a body chunk or a gated
      outbound call has left only if every storage op the guest made before it has been
      performed by the host, and none of them was a write that failed. */
  lemma OutputGate(built: seq<GuestCall>, actions: seq<Action>, out: nat, i: nat)
    requires var s := Reached(built, actions);
             && out in s.exits.left && out in s.exits.outputs && Gated(s.exits.outputs[out].kind)
             && i < s.exits.outputs[out].since && i < |s.pipe.made| && s.pipe.made[i].ObjectStorage?
    ensures var p := Reached(built, actions).pipe;
            |p.ended| == |p.replies| && Committed(p, p.made[i].call)
  {
    ReachedKeeps(built, actions);
    OpenIsCommitted(Reached(built, actions), out, i);
  }

  /** Frames wait in the same queue: one that reached the host had every op before it
      committed. */
  lemma FrameGate(built: seq<GuestCall>, actions: seq<Action>, at: nat) returns (j: nat)
    requires var p := Reached(built, actions).pipe;
             at < |p.ended| && |p.ended| == |p.replies| && p.ended[at].Socket? && at <= FirstFailed(p.ended, p.replies)
    ensures var p := Reached(built, actions).pipe;
            && j < |p.made| && p.made[j] == ObjectSocket(p.ended[at].frame)
            && |p.ended| == |p.replies|
            && forall i :: 0 <= i < j && p.made[i].ObjectStorage? ==> Committed(p, p.made[i].call)
  {
    ReachedKeeps(built, actions);
    var p := Reached(built, actions).pipe;
    j := PassedIsCommitted(p, at);
    assert p.made[j] == p.taken[j];
  }

  // ---- a failed write holds everything after it back, for good ----

  /** What was made and what was ended stays, with more behind it. */
  ghost predicate Grows(p: Pipe, q: Pipe) {
    p.made <= q.made && p.ended <= q.ended && p.replies <= q.replies
  }

  lemma MoveKeepsEnded(s: State, a: Action)
    ensures Grows(s.pipe, Move(s, a).pipe)
  {
    match a
    case Admit(kind, guest) =>
      GuestKeepsEnded(s.(next := s.next + 1, exits := s.exits.(events := s.exits.events[s.next := kind])), guest);
    case Deliver(guest) =>
      var i := NextCallback(s.js, s.inbox.pending);
      if i < |s.inbox.pending| { GuestKeepsEnded(Process(s, i), guest); }
    case Disconnect(event, guest) => GuestKeepsEnded(s.(bodies := s.bodies.(told := s.bodies.told + {event})), guest);
    case _ =>
  }

  lemma {:induction false} GuestKeepsEnded(s: State, calls: seq<GuestCall>)
    ensures Grows(s.pipe, Guest(s, calls).pipe)
    decreases |calls|
  {
    if calls != [] { GuestKeepsEnded(GuestStep(s, calls[0]), calls[1..]); }
  }

  lemma {:induction false} MovesKeepEnded(s: State, actions: seq<Action>)
    requires Inv(s)
    ensures Inv(Moves(s, actions)) && Grows(s.pipe, Moves(s, actions).pipe)
    decreases |actions|
  {
    if actions != [] {
      MoveKeeps(s, actions[0]);
      MoveKeepsEnded(s, actions[0]);
      MovesKeepEnded(Move(s, actions[0]), actions[1..]);
    }
  }

  lemma LostStays(p: Pipe, q: Pipe, call: Call)
    requires |p.ended| == |p.replies| && |q.ended| == |q.replies|
    requires p.ended <= q.ended && p.replies <= q.replies
    requires Lost(p, call)
    ensures Lost(q, call)
  {
    var k := FirstFailed(p.ended, p.replies);
    var k' := FirstFailed(q.ended, q.replies);
    assert FailedWrite(q.ended[k], q.replies[k]);
    assert forall i :: 0 <= i < k ==> q.ended[i] == p.ended[i] && q.replies[i] == p.replies[i];
    assert k' == k;
    var i :| 0 <= i < |p.ended| - k && p.ended[k..][i] == Stored(call);
    assert q.ended[k..][i] == Stored(call);
  }

  lemma {:induction false} CallIsIn(works: seq<Work>, call: Call)
    requires Stored(call) in works
    ensures call in CallsOf(works)
  {
    if works[0] != Stored(call) {
      assert Stored(call) in works[1..];
      CallIsIn(works[1..], call);
    }
  }

  lemma {:induction false} QueuedCalls(taken: seq<Msg>)
    ensures CallsOf(Queued(taken)) == CallsOfMsgs(taken)
    decreases |taken|
  {
    if taken != [] {
      var before, last := taken[..|taken| - 1], taken[|taken| - 1];
      var works := GateOf(last, Queued(before) != []);
      assert taken == before + [last] && Queued(taken) == Queued(before) + works;
      assert [last][1..] == [] && CallsOfMsgs([last]) == Called(last);
      hide Queued, GateOf, CallsOf, CallsOfMsgs;
      QueuedCalls(before);
      MsgCallsAppend(before, [last]);
      CallsOfAppend(Queued(before), works);
      GateCalls(last, Queued(before) != []);
    }
  }

  lemma NotTwice(made: seq<Call>, next: nat, a: seq<Call>, b: seq<Call>, c: seq<Call>, call: Call)
    requires Fresh(made, next) && made == a + b + c && call in a
    ensures call !in b
  {
    var i :| 0 <= i < |a| && a[i] == call;
    forall j | 0 <= j < |b| ensures b[j] != call {
      assert made[i] == a[i] && made[|a| + j] == b[j];
    }
  }

  lemma EndedCalls(p: Pipe, k: nat)
    requires Piped(p) && k <= |p.ended|
    ensures CallsOfMsgs(p.made) == CallsOf(p.ended[..k]) + CallsOf(p.ended[k..]) + (CallsOf(p.queue) + CallsOfMsgs(p.sched))
  {
    assert p.ended == p.ended[..k] + p.ended[k..];
    CallsOfAppend(p.ended[..k], p.ended[k..]);
    CallsOfAppend(p.ended, p.queue);
    QueuedCalls(p.taken);
    MsgCallsAppend(p.taken, p.sched);
  }

  /** The ops on the two sides of the first failed write have different ids. */
  lemma NotBoth(p: Pipe, next: nat, call: Call)
    requires Piped(p) && Fresh(CallsOfMsgs(p.made), next) && Lost(p, call)
    ensures !Committed(p, call)
  {
    var k := FirstFailed(p.ended, p.replies);
    var a, b := CallsOf(p.ended[..k]), CallsOf(p.ended[k..]);
    EndedCalls(p, k);
    CallIsIn(p.ended[k..], call);
    if Committed(p, call) {
      CallIsIn(p.ended[..k], call);
      NotTwice(CallsOfMsgs(p.made), next, a, b, CallsOf(p.queue) + CallsOfMsgs(p.sched), call);
    }
  }

  /** A write that failed, or came after one that did, holds back for good what the guest
      put out after it: in no later state has it left. */
  lemma LostWriteHoldsBack(built: seq<GuestCall>, actions: seq<Action>, later: seq<Action>, out: nat, i: nat)
    requires var s := Reached(built, actions);
             && |s.pipe.ended| == |s.pipe.replies|
             && i < |s.pipe.made| && s.pipe.made[i].ObjectStorage? && Lost(s.pipe, s.pipe.made[i].call)
    requires var t := Moves(Reached(built, actions), later);
             && out in t.exits.outputs && Gated(t.exits.outputs[out].kind)
             && i < t.exits.outputs[out].since
    ensures out !in Moves(Reached(built, actions), later).exits.left
  {
    ReachedKeeps(built, actions);
    var s := Reached(built, actions);
    var t := Moves(s, later);
    MovesKeepEnded(s, later);
    LostStays(s.pipe, t.pipe, s.pipe.made[i].call);
    NotBoth(t.pipe, t.next, s.pipe.made[i].call);
    if out in t.exits.left { OpenIsCommitted(t, out, i); }
  }

  // ---- and it waits for nothing else ----

  lemma BarrierAt(taken: seq<Msg>, j: nat)
    requires j < |taken| && IsGated(taken[j]) && Queued(taken[..j]) != []
    ensures |Queued(taken[..j])| < |Queued(taken)|
    ensures Queued(taken)[|Queued(taken[..j])|] == Barrier(taken[j].out)
  {
    QueuedNext(taken, j);
    QueuedPrefix(taken, j + 1);
    hide Queued;
  }

  /** No write before the barrier failed: its gate is open, or it is next and opens. */
  lemma PassedIsUnlocked(p: Pipe, j: nat)
    requires Piped(p) && j < |p.taken| && IsGated(p.taken[j]) && Queued(p.taken[..j]) != []
    requires |Queued(p.taken[..j])| <= FirstFailed(p.ended, p.replies)
    ensures p.taken[j].out in p.progress.unlocked
         || (p.queue != [] && p.queue[0] == Barrier(p.taken[j].out) && !p.progress.failed)
  {
    var at, k := |Queued(p.taken[..j])|, FirstFailed(p.ended, p.replies);
    BarrierAt(p.taken, j);
    RunMeaning(p.ended, p.replies);
    hide Queued, Run, Gates, FirstFailed;
    assert at < |p.ended| ==> p.ended[at] == Barrier(p.taken[j].out);
    if at < k {
      assert p.ended[..k][at] == Barrier(p.taken[j].out);
      GateIsIn(p.ended[..k], at);
    } else if at == |p.ended| {
      assert p.queue[0] == Queued(p.taken)[at];
    }
  }

  lemma {:induction false} GateIsIn(works: seq<Work>, i: nat)
    requires i < |works| && works[i].Barrier?
    ensures works[i].gate in Gates(works)
  {
    if i > 0 { GateIsIn(works[1..], i - 1); }
  }

  /** An output waits for nothing but the work before it: once the queue has ended that, and
      no write among it failed, the gate of the output is open, or its barrier is the next
      work of the queue and opens whatever the host answers. A later write does not hold it. */
  lemma OnlyEarlierWritesHoldItBack(built: seq<GuestCall>, actions: seq<Action>, j: nat, reply: StorageResult)
    requires var p := Reached(built, actions).pipe;
             && j < |p.taken| && IsGated(p.taken[j])
             && |p.ended| == |p.replies| && |Queued(p.taken[..j])| <= FirstFailed(p.ended, p.replies)
    ensures var s := Reached(built, actions);
            var out := s.pipe.taken[j].out;
            || GateOpen(s.pipe, s.exits, out)
            || (s.pipe.queue != [] && s.pipe.queue[0] == Barrier(out)
                && GateOpen(Move(s, Serve(reply)).pipe, Move(s, Serve(reply)).exits, out))
  {
    ReachedKeeps(built, actions);
    var s := Reached(built, actions);
    OpensNext(s, j, reply);
  }

  lemma OpensNext(s: State, j: nat, reply: StorageResult)
    requires Piped(s.pipe) && FreedAll(s.pipe.taken, s.exits.free)
    requires j < |s.pipe.taken| && IsGated(s.pipe.taken[j])
    requires |Queued(s.pipe.taken[..j])| <= FirstFailed(s.pipe.ended, s.pipe.replies)
    ensures var out := s.pipe.taken[j].out;
            || GateOpen(s.pipe, s.exits, out)
            || (s.pipe.queue != [] && s.pipe.queue[0] == Barrier(out)
                && GateOpen(Move(s, Serve(reply)).pipe, Move(s, Serve(reply)).exits, out))
  {
    if Queued(s.pipe.taken[..j]) != [] {
      PassedIsUnlocked(s.pipe, j);
      hide Piped, FreedAll, Queued;
    }
  }

  // ---- and nothing waits for ever ----

  /** Steps of the event loop and the queue task alone, until neither has anything left. */
  function Drain(s: State, host: Work -> StorageResult): (steps: seq<Action>)
    ensures forall i :: 0 <= i < |steps| ==> steps[i].Loop? || steps[i].Serve?
    decreases 2 * |s.pipe.sched| + |s.pipe.queue|
  {
    if s.pipe.sched != [] then [Loop] + Drain(Move(s, Loop), host)
    else if s.pipe.queue != [] then
      var serve := Serve(host(s.pipe.queue[0]));
      [serve] + Drain(Move(s, serve), host)
    else []
  }

  lemma {:induction false} DrainEnds(s: State, host: Work -> StorageResult)
    ensures var t := Moves(s, Drain(s, host)); t.pipe.sched == [] && t.pipe.queue == []
    decreases 2 * |s.pipe.sched| + |s.pipe.queue|
  {
    var steps := Drain(s, host);
    if steps != [] {
      var t := Move(s, steps[0]);
      assert steps[1..] == Drain(t, host);
      DrainEnds(t, host);
    }
  }

  ghost predicate FailsNoWrite(host: Work -> StorageResult) {
    forall work :: !FailedWrite(work, host(work))
  }

  lemma {:induction false} DrainFailsNothing(s: State, host: Work -> StorageResult)
    requires !s.pipe.progress.failed && FailsNoWrite(host)
    ensures !Moves(s, Drain(s, host)).pipe.progress.failed
    decreases 2 * |s.pipe.sched| + |s.pipe.queue|
  {
    var steps := Drain(s, host);
    if steps != [] {
      var t := Move(s, steps[0]);
      assert steps[1..] == Drain(t, host);
      if s.pipe.sched == [] { assert !FailedWrite(s.pipe.queue[0], host(s.pipe.queue[0])); }
      DrainFailsNothing(t, host);
    }
  }

  ghost predicate Done(p: Pipe) { Piped(p) && p.sched == [] && p.queue == [] }

  lemma DoneWork(p: Pipe, j: nat)
    requires Done(p) && j < |p.made|
    ensures p.taken == p.made && Queued(p.taken) == p.ended && Queued(p.taken[..j]) <= p.ended
  {
    assert p.taken + [] == p.taken && p.ended + [] == p.ended;
    QueuedPrefix(p.taken, j);
  }

  /** The barrier of a gated message has met its fate once all the work is done. */
  lemma DoneIsDecided(p: Pipe, j: nat)
    requires Done(p) && j < |p.made| && IsGated(p.made[j]) && Queued(p.taken[..j]) != []
    ensures p.made[j].out in p.progress.unlocked || p.made[j].out in p.progress.shut
  {
    DoneWork(p, j);
    BarrierAt(p.taken, j);
    RunMeaning(p.ended, p.replies);
    var at, k := |Queued(p.taken[..j])|, FirstFailed(p.ended, p.replies);
    hide Done, Queued, Run;
    if at < k {
      assert p.ended[..k][at] == p.ended[at];
      GateIsIn(p.ended[..k], at);
    } else {
      assert p.ended[k..][at - k] == p.ended[at];
      GateIsIn(p.ended[k..], at - k);
    }
  }

  lemma StoredFrom(msg: Msg, started: bool, call: Call)
    requires GateOf(msg, started) == [Stored(call)]
    ensures msg == ObjectStorage(call)
  {
  }

  /** The work that failed first is a write that is lost, and not committed. */
  lemma FirstIsLost(p: Pipe, next: nat)
    requires Piped(p) && Fresh(CallsOfMsgs(p.made), next) && FirstFailed(p.ended, p.replies) < |p.ended|
    ensures var work := p.ended[FirstFailed(p.ended, p.replies)]; work.Stored? && !Committed(p, work.call)
  {
    var k := FirstFailed(p.ended, p.replies);
    assert p.ended[k..][0] == p.ended[k];
    NotBoth(p, next, p.ended[k].call);
  }

  /** A storage op in the queue before a message is one the guest made before it. */
  lemma MadeBefore(taken: seq<Msg>, j: nat, k: nat) returns (i: nat)
    requires j <= |taken| && k < |Queued(taken[..j])| && Queued(taken[..j])[k].Stored?
    ensures i < j && taken[i] == ObjectStorage(Queued(taken[..j])[k].call)
  {
    i := QueuedFrom(taken, j, k);
    StoredFrom(taken[i], Queued(taken[..i]) != [], Queued(taken[..j])[k].call);
  }

  /** So if all of those are committed, no write failed before the barrier. */
  lemma FailedBefore(p: Pipe, next: nat, j: nat)
    requires Done(p) && j < |p.made| && Fresh(CallsOfMsgs(p.made), next) && CommittedBefore(p, j)
    ensures |Queued(p.taken[..j])| <= FirstFailed(p.ended, p.replies)
  {
    hide Queued, Fresh, CallsOfMsgs, Committed, CommittedBefore, FirstFailed;
    DoneWork(p, j);
    var k := FirstFailed(p.ended, p.replies);
    if k < |Queued(p.taken[..j])| {
      FirstIsLost(p, next);
      var i := MadeBefore(p.taken, j, k);
      ItIsCommitted(p, i, j);
    }
  }

  lemma ItIsCommitted(p: Pipe, i: nat, j: nat)
    requires |p.ended| == |p.replies| && i < j <= |p.made| && CommittedBefore(p, j) && p.made[i].ObjectStorage?
    ensures Committed(p, p.made[i].call)
  {
  }

  /** Every storage op the guest made before its j-th message is committed. */
  ghost predicate CommittedBefore(p: Pipe, j: nat)
    requires |p.ended| == |p.replies| && j <= |p.made|
  {
    forall i :: 0 <= i < j && p.made[i].ObjectStorage? ==> Committed(p, p.made[i].call)
  }

  ghost predicate DecidedWell(s: State, j: nat)
    requires j < |s.pipe.made| && IsGated(s.pipe.made[j]) && |s.pipe.ended| == |s.pipe.replies|
  {
    var out := s.pipe.made[j].out;
    && (GateOpen(s.pipe, s.exits, out) || out in s.pipe.progress.shut)
    && (CommittedBefore(s.pipe, j) ==> GateOpen(s.pipe, s.exits, out))
  }

  lemma DoneDecides(s: State, j: nat)
    requires Done(s.pipe) && FreedAll(s.pipe.taken, s.exits.free) && Fresh(CallsOfMsgs(s.pipe.made), s.next)
    requires j < |s.pipe.made| && IsGated(s.pipe.made[j])
    ensures DecidedWell(s, j)
  {
    DoneWork(s.pipe, j);
    if Queued(s.pipe.taken[..j]) != [] {
      DoneIsDecided(s.pipe, j);
      if CommittedBefore(s.pipe, j) {
        FailedBefore(s.pipe, s.next, j);
        PassedIsUnlocked(s.pipe, j);
      }
    }
  }

  /** Nothing waits for ever: from every state the event loop and the queue task can end all
      their work, whatever the host answers, and then every gated message of the guest has its
      gate open or shut; open, if every storage op before it was committed. */
  lemma NothingWaitsForEver(built: seq<GuestCall>, actions: seq<Action>, host: Work -> StorageResult)
    ensures var s := Reached(built, actions);
            var t := Moves(s, Drain(s, host));
            && s.pipe.made <= t.pipe.made && |t.pipe.ended| == |t.pipe.replies|
            && forall j :: 0 <= j < |s.pipe.made| && IsGated(s.pipe.made[j]) ==>
                 IsGated(t.pipe.made[j]) && DecidedWell(t, j)
  {
    ReachedKeeps(built, actions);
    var s := Reached(built, actions);
    var t := Moves(s, Drain(s, host));
    MovesKeepEnded(s, Drain(s, host));
    DrainEnds(s, host);
    assert Done(t.pipe) && FreedAll(t.pipe.taken, t.exits.free) && Fresh(CallsOfMsgs(t.pipe.made), t.next);
    hide Inv, DecidedWell, Done, FreedAll, Fresh;
    forall j | 0 <= j < |s.pipe.made| && IsGated(s.pipe.made[j])
      ensures IsGated(t.pipe.made[j]) && DecidedWell(t, j)
    {
      assert t.pipe.made[j] == s.pipe.made[j];
      DoneDecides(t, j);
    }
  }

  /** What is held has its barrier among the messages. */
  ghost predicate HeldAsked(s: State) {
    forall out :: out in s.exits.held ==> OutputBarrier(out) in s.pipe.made
  }

  lemma {:induction false} GuestKeepsHeld(s: State, calls: seq<GuestCall>)
    ensures Guest(s, calls).exits.held == s.exits.held
    decreases |calls|
  {
    if calls != [] { GuestKeepsHeld(GuestStep(s, calls[0]), calls[1..]); }
  }

  lemma MoveKeepsHeld(s: State, a: Action)
    requires HeldAsked(s)
    ensures HeldAsked(Move(s, a))
  {
    MoveKeepsEnded(s, a);
    match a
    case Admit(kind, guest) =>
      GuestKeepsHeld(s.(next := s.next + 1, exits := s.exits.(events := s.exits.events[s.next := kind])), guest);
    case Deliver(guest) =>
      var i := NextCallback(s.js, s.inbox.pending);
      if i < |s.inbox.pending| { GuestKeepsHeld(Process(s, i), guest); }
    case Disconnect(event, guest) => GuestKeepsHeld(s.(bodies := s.bodies.(told := s.bodies.told + {event})), guest);
    case _ =>
  }

  lemma {:induction false} MovesKeepHeld(s: State, actions: seq<Action>)
    requires HeldAsked(s)
    ensures HeldAsked(Moves(s, actions))
    decreases |actions|
  {
    if actions != [] {
      MoveKeepsHeld(s, actions[0]);
      MovesKeepHeld(Move(s, actions[0]), actions[1..]);
    }
  }

  lemma CanLeave(s: State, j: nat)
    requires Done(s.pipe) && FreedAll(s.pipe.taken, s.exits.free) && Announced(s.pipe.made, s.exits.outputs)
    requires !s.pipe.progress.failed && j < |s.pipe.made| && IsGated(s.pipe.made[j])
    ensures s.pipe.made[j].out in Move(s, Leave(s.pipe.made[j].out)).exits.left
  {
    DoneWork(s.pipe, j);
    RunMeaning(s.pipe.ended, s.pipe.replies);
    if Queued(s.pipe.taken[..j]) != [] { PassedIsUnlocked(s.pipe, j); }
  }

  ghost predicate AllCanLeave(e: Exits, made: seq<Msg>, t: State) {
    && (forall out :: out in e.held ==> out in Move(t, Leave(out)).exits.left)
    && (forall out: nat, kind :: Outbound(out, kind) in made && Gated(kind) ==> out in Move(t, Leave(out)).exits.left)
  }

  lemma DoneCanLeave(s: State, t: State)
    requires HeldAsked(s) && s.pipe.made <= t.pipe.made
    requires Done(t.pipe) && FreedAll(t.pipe.taken, t.exits.free) && Announced(t.pipe.made, t.exits.outputs)
    requires !t.pipe.progress.failed
    ensures AllCanLeave(s.exits, s.pipe.made, t)
  {
    hide Done, FreedAll, Announced, Move;
    forall j | 0 <= j < |s.pipe.made| && IsGated(s.pipe.made[j])
      ensures s.pipe.made[j].out in Move(t, Leave(s.pipe.made[j].out)).exits.left
    {
      assert t.pipe.made[j] == s.pipe.made[j];
      CanLeave(t, j);
    }
  }

  /** With a host that fails no write, after those steps every output that is held and every
      gated call of the guest can leave. */
  lemma EveryHeldOutputCanLeave(built: seq<GuestCall>, actions: seq<Action>, host: Work -> StorageResult)
    requires !Reached(built, actions).pipe.progress.failed && FailsNoWrite(host)
    ensures var s := Reached(built, actions);
            AllCanLeave(s.exits, s.pipe.made, Moves(s, Drain(s, host)))
  {
    ReachedKeeps(built, actions);
    var s := Reached(built, actions);
    var t := Moves(s, Drain(s, host));
    GuestKeepsHeld(EMPTY, built);
    MovesKeepHeld(Guest(EMPTY, built), actions);
    MovesKeepEnded(s, Drain(s, host));
    DrainEnds(s, host);
    DrainFailsNothing(s, host);
    hide AllCanLeave, HeldAsked, FailsNoWrite, Moves, Drain;
    DoneCanLeave(s, t);
  }

  // ---- which outbound calls are behind the gate ----

  /** Every output of this kind that left had the ops before it committed, in every run. */
  ghost predicate AlwaysGated(kind: Kind) {
    forall built: seq<GuestCall>, actions: seq<Action>, out: nat, i: nat ::
      !LeftEarly(Reached(built, actions), kind, out, i)
  }

  ghost predicate LeftEarly(s: State, kind: Kind, out: nat, i: nat) {
    && out in s.exits.left && out in s.exits.outputs && s.exits.outputs[out].kind == kind
    && i < s.exits.outputs[out].since && i < |s.pipe.made| && s.pipe.made[i].ObjectStorage?
    && Writes(s.pipe.made[i].call.op)
    && |s.pipe.ended| == |s.pipe.replies|
    && !Committed(s.pipe, s.pipe.made[i].call)
  }

  /** A call that takes no gate leaves while the write before it still waits. */
  lemma UngatedLeavesEarly(kind: Kind)
    requires !Gated(kind)
    ensures LeftEarly(Reached([SetAlarmAt(None), CallOut(kind)], [Loop, Loop]), kind, 1, 0)
  {
    var built := [SetAlarmAt(None), CallOut(kind)];
    var s1 := GuestStep(EMPTY, SetAlarmAt(None));
    var s2 := GuestStep(s1, CallOut(kind));
    assert built[1..] == [CallOut(kind)];
    assert [CallOut(kind)][1..] == [];
    assert Guest(EMPTY, built) == Guest(s1, [CallOut(kind)]) == Guest(s2, []) == s2;
    var s3 := Move(s2, Loop);
    var s4 := Move(s3, Loop);
    assert [Loop, Loop][1..] == [Loop] && [Loop][1..] == [];
    assert Moves(s2, [Loop, Loop]) == Moves(s3, [Loop]) == Moves(s4, []) == s4;
    assert s4.pipe.ended == [];
  }

  /** The output gate covers exactly the kinds that `output_gate` and `Held` cover: calls
      of the KV, storage, database, D1 and invoke bindings and all that goes to a client
      socket are not behind it. */
  lemma GatedKinds(kind: Kind)
    ensures AlwaysGated(kind) <==> Gated(kind)
  {
    if Gated(kind) {
      forall built: seq<GuestCall>, actions: seq<Action>, out: nat, i: nat
        ensures !LeftEarly(Reached(built, actions), kind, out, i)
      {
        if LeftEarly(Reached(built, actions), kind, out, i) { OutputGate(built, actions, out, i); }
      }
    } else {
      UngatedLeavesEarly(kind);
    }
  }

  // ---- the input gate ----

  predicate NoRead(calls: seq<Call>) {
    forall i :: 0 <= i < |calls| ==> !calls[i].input
  }

  lemma {:induction false} NoneCounted(calls: seq<Call>)
    requires CountInput(calls) == 0
    ensures NoRead(calls)
  {
    if calls != [] {
      NoneCounted(calls[1..]);
      forall i | 0 <= i < |calls| ensures !calls[i].input {
        if i > 0 { assert calls[i] == calls[1..][i - 1]; }
      }
    }
  }

  /** Input gate: while the object is not broken, the next callback is a storage result or
      no read is on its way anywhere, and an event goes in only if no read is on its way
      and no blockConcurrencyWhile callback runs. */
  lemma InputGate(built: seq<GuestCall>, actions: seq<Action>)
    requires !Reached(built, actions).js.failure
    ensures var s := Reached(built, actions);
            var i := NextCallback(s.js, s.inbox.pending);
            && (i < |s.inbox.pending| && s.inbox.pending[i].Other? ==> NoRead(Unended(s.pipe, s.inbox)))
            && (Admits(s.js) ==> NoRead(Unended(s.pipe, s.inbox)) && s.js.blocked <= 0)
  {
    ReachedKeeps(built, actions);
    var s := Reached(built, actions);
    if s.js.readCount <= 0 { NoneCounted(Unended(s.pipe, s.inbox)); }
  }

  /** Guest code that runs for anything but a storage result. */
  predicate RunsOtherGuestCode(s: State, a: Action) {
    match a
    case Admit(_, _) => Admits(s.js)
    case Deliver(_) =>
      var i := NextCallback(s.js, s.inbox.pending);
      i < |s.inbox.pending| && s.inbox.pending[i].Other?
    case Disconnect(event, _) => ToTell(s, event)
    case _ => false
  }

  /** One thing passes the input gate: with a read under way in an object that is not broken,
      a step runs other guest code exactly when it tells a fetch whose response has gone and
      whose body still streams that its client hung up. */
  lemma OnlyDisconnectPassesTheInputGate(built: seq<GuestCall>, actions: seq<Action>, a: Action)
    requires var s := Reached(built, actions); !s.js.failure && !NoRead(Unended(s.pipe, s.inbox))
    ensures RunsOtherGuestCode(Reached(built, actions), a) <==> a.Disconnect? && ToTell(Reached(built, actions), a.event)
  {
    InputGate(built, actions);
  }

  /** So the gate holds everything back exactly when there is no such fetch. */
  lemma InputGateIsTight(built: seq<GuestCall>, actions: seq<Action>)
    requires var s := Reached(built, actions); !s.js.failure && !NoRead(Unended(s.pipe, s.inbox))
    ensures (forall a: Action :: !RunsOtherGuestCode(Reached(built, actions), a))
       <==> (forall event: nat :: !ToTell(Reached(built, actions), event))
  {
    var s := Reached(built, actions);
    forall a: Action ensures RunsOtherGuestCode(s, a) <==> a.Disconnect? && ToTell(s, a.event) {
      OnlyDisconnectPassesTheInputGate(built, actions, a);
    }
    forall event: nat ensures RunsOtherGuestCode(s, Disconnect(event, [])) <==> ToTell(s, event) {}
  }

  lemma Then(s: State, a: Action, rest: seq<Action>)
    ensures Moves(s, [a] + rest) == Moves(Move(s, a), rest)
  {
    assert ([a] + rest)[1..] == rest;
  }

  /** An object whose first fetch was answered with a body that still streams. */
  const STREAMING := State(Js(0, false, 0, 0), 0, 1,
    Pipe([], false, [], START, [OutputBarrier(0)], [OutputBarrier(0)], [], []), Inbox([], [], []),
    Exits(map[0 := Response], map[0 := Output(Response, 0)], {0}, {0}, {0}), Bodies({}, {}, {}, {}, {}))

  const FIRST_FETCH := [Admit(Response, [Respond(0, true)])] + ([Hold(0)] + ([Loop] + ([Leave(0)] + [])))

  lemma FirstFetchStreams()
    ensures Moves(EMPTY, FIRST_FETCH) == STREAMING
  {
    var barrier := OutputBarrier(0);
    var exits := Exits(map[0 := Response], map[0 := Output(Response, 0)], {}, {}, {});
    var s1 := EMPTY.(next := 1, exits := exits);
    var s2 := s1.(pipe := EMPTY.pipe.(sched := [barrier], made := [barrier]), exits := exits.(held := {0}));
    var s3 := STREAMING.(exits := STREAMING.exits.(left := {}));
    assert [Respond(0, true)][1..] == [];
    var admitted := EMPTY.(next := 1, exits := exits.(outputs := map[]));
    assert Guest(admitted, [Respond(0, true)]) == Guest(GuestStep(admitted, Respond(0, true)), []) == s1;
    assert Move(EMPTY, Admit(Response, [Respond(0, true)])) == s1;
    assert Move(s1, Hold(0)) == s2 && Move(s2, Loop) == s3 && Move(s3, Leave(0)) == STREAMING;
    Then(s3, Leave(0), []);
    Then(s2, Loop, [Leave(0)] + []);
    Then(s1, Hold(0), [Loop] + ([Leave(0)] + []));
    Then(EMPTY, Admit(Response, [Respond(0, true)]), [Hold(0)] + ([Loop] + ([Leave(0)] + [])));
  }

  /** A second fetch reads the storage, and the client of the first hangs up. */
  const READING := STREAMING.(
    js := Js(0, false, 1, OpBytes(GetAlarm)), next := 3,
    pipe := Send(STREAMING.pipe, ObjectStorage(Call(2, GetAlarm, true))),
    exits := STREAMING.exits.(events := map[0 := Response, 1 := Response]),
    bodies := Bodies({}, {}, {0}, {}, {}))

  const READ_AND_HANG_UP := [Admit(Response, [ReadAlarm])] + ([HangUp(0)] + [])

  lemma ThenItReads()
    ensures Moves(STREAMING, READ_AND_HANG_UP) == READING
  {
    var admitted := STREAMING.(next := 2, exits := READING.exits);
    var s1 := READING.(bodies := STREAMING.bodies);
    assert STREAMING.exits.events[1 := Response] == READING.exits.events;
    assert [ReadAlarm][1..] == [];
    assert Guest(admitted, [ReadAlarm]) == Guest(GuestStep(admitted, ReadAlarm), []) == s1;
    assert Move(STREAMING, Admit(Response, [ReadAlarm])) == s1 && Move(s1, HangUp(0)) == READING;
    Then(s1, HangUp(0), []);
    Then(STREAMING, Admit(Response, [ReadAlarm]), [HangUp(0)] + []);
  }

  /** It happens: telling that guest runs its code with a read under way, here one more
      blockConcurrencyWhile. */
  lemma DisconnectPassesTheInputGate()
    ensures var s := Reached([], FIRST_FETCH + READ_AND_HANG_UP);
            && !s.js.failure && !NoRead(Unended(s.pipe, s.inbox)) && ToTell(s, 0)
            && Move(s, Disconnect(0, [Block])).js.blocked == s.js.blocked + 1
  {
    FirstFetchStreams();
    ThenItReads();
    MovesAppend(EMPTY, FIRST_FETCH, READ_AND_HANG_UP);
    var s := READING;
    assert Unended(s.pipe, s.inbox)[0].input;
    var told := s.(bodies := s.bodies.(told := {0}));
    assert [Block][1..] == [];
    assert Guest(told, [Block]) == Guest(GuestStep(told, Block), []);
    assert s.bodies.told + {0} == {0};
  }

  /** What a failed write leaves: the object admits nothing more. */
  lemma {:induction false} FailureSticks(s: State, actions: seq<Action>)
    requires s.js.failure
    ensures Moves(s, actions).js.failure && !Admits(Moves(s, actions).js)
    decreases |actions|
  {
    if actions != [] {
      match actions[0] {
        case Deliver(guest) =>
          var i := NextCallback(s.js, s.inbox.pending);
          if i < |s.inbox.pending| { GuestFailureSticks(Process(s, i), guest); }
        case Disconnect(event, guest) =>
          GuestFailureSticks(s.(bodies := s.bodies.(told := s.bodies.told + {event})), guest);
        case _ =>
      }
      FailureSticks(Move(s, actions[0]), actions[1..]);
    }
  }

  lemma {:induction false} GuestFailureSticks(s: State, calls: seq<GuestCall>)
    requires s.js.failure
    ensures Guest(s, calls).js.failure
    decreases |calls|
  {
    if calls != [] { GuestFailureSticks(GuestStep(s, calls[0]), calls[1..]); }
  }

  // ---- no stall ----

  /** The counters of the guest are what is really on its way, and what waits is bounded. */
  lemma CountersAreExact(built: seq<GuestCall>, actions: seq<Action>)
    ensures var s := Reached(built, actions);
            var unended := Unended(s.pipe, s.inbox);
            && CallsOfMsgs(s.pipe.made) == s.inbox.delivered + unended
            && s.js.readCount == CountInput(unended)
            && s.js.backlog == SumBytes(unended) < MAX_BACKLOG + LargestOp(CallsOfMsgs(s.pipe.made))
            && s.frames == FrameBytes(s.pipe.queue) + FrameBytesOfMsgs(s.pipe.sched) < MAX_WAITING_FRAMES + LargestFrame(s.pipe.made)
  {
    ReachedKeeps(built, actions);
  }

  function Measure(s: State): nat {
    3 * |s.pipe.sched| + 2 * |s.pipe.queue| + |s.inbox.callbacks|
  }

  predicate Quiet(s: State) {
    s.pipe.sched == [] && s.pipe.queue == [] && s.inbox.callbacks == []
  }

  function PumpStep(s: State, host: nat -> StorageResult): (t: State)
    requires !Quiet(s)
    ensures Measure(t) < Measure(s)
  {
    if s.pipe.sched != [] then Move(s, Loop)
    else if s.pipe.queue != [] then Move(s, Serve(host(|s.pipe.ended|)))
    else Move(s, Receive)
  }

  /** Lets the event loop, the queue task and the channel run until nothing moves. */
  function Pump(s: State, host: nat -> StorageResult): (t: State)
    ensures Quiet(t)
    decreases Measure(s)
  {
    if Quiet(s) then s else Pump(PumpStep(s, host), host)
  }

  lemma PumpStepKeeps(s: State, host: nat -> StorageResult)
    requires Inv(s) && !Quiet(s)
    ensures Inv(PumpStep(s, host)) && SameCalls(s, PumpStep(s, host))
  {
    if s.pipe.sched != [] {
      LoopKeeps(s);
    } else if s.pipe.queue != [] {
      ServeKeeps(s, host(|s.pipe.ended|));
    } else {
      ReceiveKeeps(s);
    }
  }

  lemma {:induction false} PumpKeeps(s: State, host: nat -> StorageResult)
    requires Inv(s)
    ensures Inv(Pump(s, host)) && SameCalls(s, Pump(s, host))
    decreases Measure(s)
  {
    if !Quiet(s) {
      PumpStepKeeps(s, host);
      PumpKeeps(PumpStep(s, host), host);
    }
  }

  /** No self-inflicted stall: whatever the host answers, a gate that a read holds closed
      comes to have a storage result behind it that it lets through, and that result ends
      the oldest op on its way. */
  lemma ClosedGateGetsAResult(built: seq<GuestCall>, actions: seq<Action>, host: nat -> StorageResult)
    requires Reading(Reached(built, actions).js)
    ensures var s := Reached(built, actions);
            var t := Pump(s, host);
            var i := NextCallback(t.js, t.inbox.pending);
            && i < |t.inbox.pending| && t.inbox.pending[i].StorageDone?
            && |Unended(s.pipe, s.inbox)| > 0
            && Unended(Move(t, Deliver([])).pipe, Move(t, Deliver([])).inbox) == Unended(s.pipe, s.inbox)[1..]
  {
    ReachedKeeps(built, actions);
    var s := Reached(built, actions);
    PumpKeeps(s, host);
    PumpedHasAResult(s, Pump(s, host));
  }

  lemma PumpedHasAResult(s: State, t: State)
    requires Counted(t.js, Unended(t.pipe, t.inbox)) && Reading(t.js) && Unended(t.pipe, t.inbox) == Unended(s.pipe, s.inbox)
    requires t.pipe.queue == [] && t.pipe.sched == [] && t.inbox.callbacks == []
    ensures var i := NextCallback(t.js, t.inbox.pending);
            && i < |t.inbox.pending| && t.inbox.pending[i].StorageDone?
            && |Unended(s.pipe, s.inbox)| > 0
            && Unended(Move(t, Deliver([])).pipe, Move(t, Deliver([])).inbox) == Unended(s.pipe, s.inbox)[1..]
  {
    var i := NextCallback(t.js, t.inbox.pending);
    var calls := CallsOfCallbacks(t.inbox.pending);
    assert Unended(t.pipe, t.inbox) == calls;
    if i == |t.inbox.pending| { OthersOnly(t.inbox.pending); assert false; }
    TakeCallback(t.inbox.pending, i);
    assert Guest(Process(t, i), []) == Process(t, i);
  }
}
