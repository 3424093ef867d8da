/**
 A turn of a Durable Object: the calls of durable_object.js, `drain_gated`, `answer` and
 `turn`, each shown to take only steps of the machine of `ObjectGates`, so what holds of
 every run holds of every turn. Guest code is `guest(n)` at the n-th time it may run.
 */
module DurableObject {
  import opened Lists
  import opened Storage
  import opened ObjectQueue
  import opened ObjectGates
  import opened GateInvariants

  const MAX_ROUNDS := 4

  function Storages(callbacks: seq<Callback>): seq<Callback> {
    if callbacks == [] then []
    else (if callbacks[0].StorageDone? then [callbacks[0]] else []) + Storages(callbacks[1..])
  }

  function Others(callbacks: seq<Callback>): seq<Callback> {
    if callbacks == [] then []
    else (if callbacks[0].Other? then [callbacks[0]] else []) + Others(callbacks[1..])
  }

  lemma {:induction false} SplitAppend(a: seq<Callback>, b: seq<Callback>)
    ensures Storages(a + b) == Storages(a) + Storages(b) && Others(a + b) == Others(a) + Others(b)
  {
    if a == [] { assert a + b == b; } else {
      assert (a + b)[1..] == a[1..] + b;
      SplitAppend(a[1..], b);
      Associate(if a[0].StorageDone? then [a[0]] else [], Storages(a[1..]), Storages(b));
      Associate(if a[0].Other? then [a[0]] else [], Others(a[1..]), Others(b));
    }
  }

  /** Taking the callback at `i` keeps the order of the two kinds apart. */
  lemma {:induction false} TakenInOrder(pending: seq<Callback>, i: nat)
    requires i < |pending| && (forall j :: 0 <= j < i ==> pending[j].Other?)
    requires pending[i].Other? ==> i == 0
    ensures Storages([pending[i]]) + Storages(Without(pending, i)) == Storages(pending)
    ensures Others([pending[i]]) + Others(Without(pending, i)) == Others(pending)
  {
    if i == 0 {
      assert Without(pending, 0) == pending[1..];
    } else {
      TakenInOrder(pending[1..], i - 1);
      assert Without(pending, i)[1..] == Without(pending[1..], i - 1);
    }
  }

  lemma MovesOne(s: State, a: Action)
    ensures Moves(s, [a]) == Move(s, a)
  {
    assert [a][1..] == [];
  }

  lemma MovesThen(s: State, trace: seq<Action>, a: Action)
    ensures Moves(s, trace + [a]) == Move(Moves(s, trace), a)
  {
    MovesAppend(s, trace, [a]);
    MovesOne(Moves(s, trace), a);
  }

  /** No callback is lost or doubled, and each of the two kinds keeps its order. */
  ghost predicate Kept(had: seq<Callback>, ran: seq<Callback>, pending: seq<Callback>) {
    && multiset(ran) + multiset(pending) == multiset(had)
    && Storages(ran) + Storages(pending) == Storages(had)
    && Others(ran) + Others(pending) == Others(had)
  }

  lemma Shift<T>(all: seq<T>, a: seq<T>, b: seq<T>, one: seq<T>, rest: seq<T>)
    requires a + b == all && one + rest == b
    ensures (a + one) + rest == all
  {
  }

  lemma ShiftMultiset(had: seq<Callback>, ran: seq<Callback>, pending: seq<Callback>, i: nat)
    requires i < |pending| && multiset(ran) + multiset(pending) == multiset(had)
    ensures multiset(ran + [pending[i]]) + multiset(Without(pending, i)) == multiset(had)
  {
    assert pending == pending[..i] + [pending[i]] + pending[i + 1..];
  }

  lemma KeptStep(had: seq<Callback>, ran: seq<Callback>, pending: seq<Callback>, i: nat)
    requires Kept(had, ran, pending)
    requires i < |pending| && (forall j :: 0 <= j < i ==> pending[j].Other?)
    requires pending[i].Other? ==> i == 0
    ensures Kept(had, ran + [pending[i]], Without(pending, i))
  {
    var one, rest := [pending[i]], Without(pending, i);
    ShiftMultiset(had, ran, pending, i);
    TakenInOrder(pending, i);
    SplitAppend(ran, one);
    Shift(Storages(had), Storages(ran), Storages(pending), Storages(one), Storages(rest));
    Shift(Others(had), Others(ran), Others(pending), Others(one), Others(rest));
  }

  lemma Settled(js: Js, pending: seq<Callback>)
    requires NextCallback(js, pending) == |pending|
    ensures if Reading(js) then forall i :: 0 <= i < |pending| ==> pending[i].Other? else pending == []
  {
  }

  /** What `drain_gated` promises of the callbacks it had. */
  ghost predicate Drained(had: seq<Callback>, ran: seq<Callback>, pending: seq<Callback>, js: Js) {
    && Kept(had, ran, pending)
    && (if Reading(js) then forall i :: 0 <= i < |pending| ==> pending[i].Other? else pending == [])
  }

  /** Every callback that ran was a storage result, or ran with the gate open or broken. */
  ghost predicate RanThroughGate(ran: seq<Callback>, gates: seq<Js>) {
    |gates| == |ran| && forall i :: 0 <= i < |ran| ==> ran[i].StorageDone? || !Reading(gates[i])
  }

  lemma RanNext(ran: seq<Callback>, gates: seq<Js>, callback: Callback, js: Js)
    requires RanThroughGate(ran, gates) && (callback.StorageDone? || !Reading(js))
    ensures RanThroughGate(ran + [callback], gates + [js])
  {
  }

  /** The output has its barrier, and the barrier has opened or closed. */
  predicate Resolved(p: Pipe, e: Exits, out: nat) {
    out in e.held && (GateOpen(p, e, out) || out in p.progress.shut)
  }

  /** A barrier for the output of an event, then the output itself if the barrier is open, or
      its end if it is shut. */
  function AnswerGate(s: State, out: nat): State {
    var held := Move(s, Hold(out));
    if out !in held.exits.held || Answered(held, out) then held
    else if GateOpen(held.pipe, held.exits, out) then Move(held, Leave(out))
    else Move(held, GiveUp(out))
  }

  /** What `answer` does for one event: its output, and the client that hung up. */
  function AnswerOne(s: State, out: nat, guest: seq<GuestCall>): State {
    Move(AnswerGate(s, out), Disconnect(out, guest))
  }

  function AnswerAll(s: State, outs: seq<nat>, guest: nat -> seq<GuestCall>): State {
    if outs == [] then s
    else AnswerOne(AnswerAll(s, outs[..|outs| - 1], guest), outs[|outs| - 1], guest(|outs| - 1))
  }

  /** An alarm is over once its caller is answered, a fetch once its handler and its body are
      over too. */
  predicate EventOver(s: State, out: nat) {
    Answered(s, out)
    && (out in s.exits.events && s.exits.events[out].Response? ==> out in s.bodies.done && out in s.bodies.streamed)
  }

  /** The events that stay in flight: those not over when `answer` has done with them. */
  function StillWaiting(s: State, outs: seq<nat>, guest: nat -> seq<GuestCall>): seq<nat> {
    if outs == [] then []
    else
      var n := |outs| - 1;
      StillWaiting(s, outs[..n], guest) + if EventOver(AnswerAll(s, outs, guest), outs[n]) then [] else [outs[n]]
  }

  lemma AnswerNext(s: State, outs: seq<nat>, i: nat, guest: nat -> seq<GuestCall>)
    requires i < |outs|
    ensures AnswerAll(s, outs[..i + 1], guest) == AnswerOne(AnswerAll(s, outs[..i], guest), outs[i], guest(i))
    ensures StillWaiting(s, outs[..i + 1], guest) ==
      StillWaiting(s, outs[..i], guest) + if EventOver(AnswerAll(s, outs[..i + 1], guest), outs[i]) then [] else [outs[i]]
  {
    assert outs[..i + 1][..i] == outs[..i];
  }

  /** Guest code moves no gate and takes nothing back. */
  ghost predicate OnlyMore(s: State, t: State) {
    && t.pipe.progress == s.pipe.progress
    && t.exits.free == s.exits.free && t.exits.events == s.exits.events
    && t.bodies.hungUp == s.bodies.hungUp
    && s.exits.outputs.Keys <= t.exits.outputs.Keys
    && s.bodies.done <= t.bodies.done && s.bodies.streamed <= t.bodies.streamed
    && s.exits.held <= t.exits.held && s.exits.left <= t.exits.left
    && s.bodies.given <= t.bodies.given && s.bodies.told <= t.bodies.told
  }

  lemma {:induction false} GuestOnlyMore(s: State, calls: seq<GuestCall>)
    ensures OnlyMore(s, Guest(s, calls))
    ensures Guest(s, calls).exits.held == s.exits.held && Guest(s, calls).exits.left == s.exits.left
    ensures Guest(s, calls).bodies.given == s.bodies.given && Guest(s, calls).bodies.told == s.bodies.told
    decreases |calls|
  {
    if calls != [] { GuestOnlyMore(GuestStep(s, calls[0]), calls[1..]); }
  }

  /** Nothing is owed to the event: its output has left or is given up if its gate opened or
      shut, and its guest knows of a client that hung up. */
  ghost predicate NothingOwed(s: State, out: nat) {
    (Resolved(s.pipe, s.exits, out) ==> Answered(s, out)) && !ToTell(s, out)
  }

  /** What one step of `answer` adds is of its own event, and what left had its gate open. */
  ghost predicate AddsOnly(s: State, t: State, out: nat) {
    && OnlyMore(s, t)
    && t.exits.held <= s.exits.held + {out} && t.exits.left <= s.exits.left + {out}
    && t.bodies.given <= s.bodies.given + {out} && t.bodies.told <= s.bodies.told + {out}
    && (out in t.exits.left && out !in s.exits.left ==> GateOpen(t.pipe, t.exits, out))
    && (out in t.bodies.given && out !in s.bodies.given ==> out in t.pipe.progress.shut)
    && (out in t.bodies.told && out !in s.bodies.told ==> out in t.bodies.hungUp && Answered(t, out))
  }

  predicate HeldKnown(e: Exits) { forall out :: out in e.held ==> out in e.outputs }

  lemma AnswerGateMeaning(s: State, out: nat)
    requires HeldKnown(s.exits)
    ensures var t := AnswerGate(s, out);
      AddsOnly(s, t, out) && HeldKnown(t.exits) && (Resolved(t.pipe, t.exits, out) ==> Answered(t, out))
  {
  }

  predicate SameEnds(s: State, t: State) { t.bodies.done == s.bodies.done && t.bodies.streamed == s.bodies.streamed }

  lemma AnswerOneMeaning(s: State, out: nat, guest: seq<GuestCall>)
    requires HeldKnown(s.exits)
    ensures var t := AnswerOne(s, out, guest);
      AddsOnly(s, t, out) && HeldKnown(t.exits) && NothingOwed(t, out)
    ensures AnswerOne(s, out, guest).bodies.told == s.bodies.told ==> SameEnds(s, AnswerOne(s, out, guest))
  {
    var t := AnswerGate(s, out);
    AnswerGateMeaning(s, out);
    if ToTell(t, out) { GuestOnlyMore(t.(bodies := t.bodies.(told := t.bodies.told + {out})), guest); }
  }

  /** The answer to one event leaves nothing owed to another, and ends none unless guest code
      ran. */
  lemma OthersStay(s: State, t: State, out: nat, other: nat)
    requires AddsOnly(s, t, out) && other != out
    ensures NothingOwed(s, other) ==> NothingOwed(t, other)
    ensures EventOver(s, other) ==> EventOver(t, other)
    ensures SameEnds(s, t) ==> (EventOver(t, other) <==> EventOver(s, other))
  {
  }

  /** What a pass of `answer` adds is of its own events; what left had its gate open, what was
      given up had it shut, and who was told had a client that hung up. */
  ghost predicate PassAdds(s: State, t: State, outs: seq<nat>) {
    && OnlyMore(s, t)
    && (forall out :: out in t.exits.left && out !in s.exits.left ==> out in outs && GateOpen(t.pipe, t.exits, out))
    && (forall out :: out in t.bodies.given && out !in s.bodies.given ==> out in outs && out in t.pipe.progress.shut)
    && (forall out :: out in t.bodies.told && out !in s.bodies.told ==> out in outs && out in t.bodies.hungUp && Answered(t, out))
    && (forall out :: out in t.exits.held && out !in s.exits.held ==> out in outs)
  }

  predicate Apart(outs: seq<nat>) { forall i, j :: 0 <= i < j < |outs| ==> outs[i] != outs[j] }

  lemma {:induction false} PassMeaning(s: State, outs: seq<nat>, guest: nat -> seq<GuestCall>)
    requires HeldKnown(s.exits) && Apart(outs)
    ensures var t := AnswerAll(s, outs, guest);
      && PassAdds(s, t, outs) && HeldKnown(t.exits)
      && forall out :: out in outs ==> NothingOwed(t, out)
  {
    if outs != [] {
      var n := |outs| - 1;
      var before, last := outs[..n], outs[n];
      var b, t := AnswerAll(s, before, guest), AnswerAll(s, outs, guest);
      assert outs == before + [last] && last !in before;
      assert t == AnswerOne(b, last, guest(n));
      hide AnswerOne, AnswerAll, Move, AddsOnly, PassAdds, NothingOwed;
      PassMeaning(s, before, guest);
      AnswerOneMeaning(b, last, guest(n));
      forall out | out in before ensures NothingOwed(t, out) { OthersStay(b, t, last, out); }
      PassesCompose(s, b, t, before, last);
    }
  }

  lemma PassesCompose(s: State, b: State, t: State, before: seq<nat>, last: nat)
    requires PassAdds(s, b, before) && AddsOnly(b, t, last)
    ensures PassAdds(s, t, before + [last])
  {
  }

  /** Which events stay in flight. Dropped is only an event that is over: its caller has its
      answer or never gets one, and a fetch has also ended its handler and its body. An event
      that stays is not over, unless guest code that ran later in the same pass ended it. */
  ghost predicate Stay(s: State, t: State, outs: seq<nat>, waiting: seq<nat>) {
    && (forall out :: out in waiting ==> out in outs)
    && (forall out :: out in outs && out !in waiting ==> EventOver(t, out))
    && (t.bodies.told == s.bodies.told ==> forall out :: out in waiting ==> !EventOver(t, out))
  }

  lemma StayStep(s: State, b: State, t: State, before: seq<nat>, last: nat, waiting: seq<nat>)
    requires Stay(s, b, before, waiting) && AddsOnly(b, t, last) && last !in before && s.bodies.told <= b.bodies.told
    requires t.bodies.told == b.bodies.told ==> SameEnds(b, t)
    ensures Stay(s, t, before + [last], waiting + if EventOver(t, last) then [] else [last])
  {
    assert b.bodies.told <= t.bodies.told;
    forall out | out in before
      ensures EventOver(b, out) ==> EventOver(t, out)
      ensures SameEnds(b, t) ==> (EventOver(t, out) <==> EventOver(b, out))
    {
      OthersStay(b, t, last, out);
    }
    hide EventOver, AddsOnly, SameEnds;
  }

  lemma {:induction false} StayMeaning(s: State, outs: seq<nat>, guest: nat -> seq<GuestCall>)
    requires HeldKnown(s.exits) && Apart(outs)
    ensures Stay(s, AnswerAll(s, outs, guest), outs, StillWaiting(s, outs, guest))
  {
    if outs != [] {
      var n := |outs| - 1;
      var before, last := outs[..n], outs[n];
      var b, t := AnswerAll(s, before, guest), AnswerAll(s, outs, guest);
      assert outs == before + [last] && last !in before;
      assert t == AnswerOne(b, last, guest(n));
      var waiting := StillWaiting(s, before, guest);
      assert StillWaiting(s, outs, guest) == waiting + if EventOver(t, last) then [] else [last];
      hide AnswerOne, AnswerAll, StillWaiting, Move, Stay, EventOver, AddsOnly, SameEnds, NothingOwed;
      PassMeaning(s, before, guest);
      StayMeaning(s, before, guest);
      AnswerOneMeaning(b, last, guest(n));
      StayStep(s, b, t, before, last, waiting);
    }
  }

  /** After a pass of `answer` in any state an object can be in, over any of its events: nothing
      is owed to them; what left had its gate open, what was given up had it shut, who was told
      had a client that hung up; and which events stay. */
  lemma AnswerMeaning(built: seq<GuestCall>, actions: seq<Action>, outs: seq<nat>, guest: nat -> seq<GuestCall>)
    requires Apart(outs)
    ensures var s := Reached(built, actions);
      var t, waiting := AnswerAll(s, outs, guest), StillWaiting(s, outs, guest);
      && PassAdds(s, t, outs)
      && (forall out :: out in outs ==> NothingOwed(t, out))
      && (forall out :: out in outs && out !in waiting ==> EventOver(t, out))
      && (t.bodies.told == s.bodies.told ==> forall out :: out in outs ==> (out in waiting <==> !EventOver(t, out)))
  {
    ReachedKeeps(built, actions);
    var s := Reached(built, actions);
    assert HeldKnown(s.exits);
    hide Inv, AnswerAll, StillWaiting, PassAdds, NothingOwed, EventOver;
    PassMeaning(s, outs, guest);
    StayMeaning(s, outs, guest);
  }

  /** Nothing that came can go in: no event, no callback. */
  ghost predicate Still(js: Js, mailbox: seq<Kind>, pending: seq<Callback>, callbacks: seq<Callback>) {
    && callbacks == []
    && (Admits(js) ==> mailbox == [])
    && (if Reading(js) then forall i :: 0 <= i < |pending| ==> pending[i].Other? else pending == [])
  }

  class ObjectContext {
    var blocked: int
    var failure: bool
    var readCount: int
    var backlog: int
    var next: nat
    var frames: int
    var callbacks: seq<Callback>
    var pending: seq<Callback>
    var delivered: seq<Call>
    var pipe: Pipe
    var exits: Exits
    var bodies: Bodies
    /** The events that wait, and the outputs owed to the events taken */
    var mailbox: seq<Kind>
    var inflight: seq<nat>

    function Gate(): Js reads this { Js(blocked, failure, readCount, backlog) }

    function View(): State
      reads this
    {
      State(Gate(), frames, next, pipe, Inbox(callbacks, pending, delivered), exits, bodies)
    }

    constructor ()
      ensures View() == EMPTY && mailbox == [] && inflight == []
    {
      blocked, failure, readCount, backlog := 0, false, 0, 0;
      next, frames, callbacks, pending, delivered := 0, 0, [], [], [];
      pipe, exits, bodies := EMPTY.pipe, EMPTY.exits, EMPTY.bodies;
      mailbox, inflight := [], [];
    }

    /** `call` of durable_object.js, which throws past the backlog limit. */
    method Call(op: StorageOp) returns (accepted: bool)
      modifies `pipe, `next, `backlog
      ensures View() == StorageCall(old(View()), op, false)
      ensures accepted == !Refused(old(Gate()), op)
    {
      if backlog >= MAX_BACKLOG && (op.Write? || (op.Get? && |op.keys| > 0)) { return false; }
      pipe := Send(pipe, ObjectStorage(ObjectQueue.Call(next, op, false)));
      next := next + 1;
      backlog := backlog + OpBytes(op);
      accepted := true;
    }

    /** `read`, which closes the input gate until the op ends. */
    method Read(op: StorageOp) returns (accepted: bool)
      modifies `pipe, `next, `backlog, `readCount
      ensures View() == StorageCall(old(View()), op, true)
      ensures accepted == !Refused(old(Gate()), op)
    {
      if backlog >= MAX_BACKLOG && (op.Write? || (op.Get? && |op.keys| > 0)) { return false; }
      pipe := Send(pipe, ObjectStorage(ObjectQueue.Call(next, op, true)));
      next := next + 1;
      backlog := backlog + OpBytes(op);
      readCount := readCount + 1;
      accepted := true;
    }

    method GuestCalls(g: GuestCall)
      modifies `blocked, `failure, `readCount, `backlog, `next, `frames, `pipe, `exits, `bodies
      ensures View() == GuestStep(old(View()), g)
    {
      match g {
        case GetKeys(keys) => var _ := Read(Get(keys));
        case ListEntries(list) => if list.List? { var _ := Read(list); }
        case ReadAlarm => var _ := Read(GetAlarm);
        case Sync => var _ := Call(Get([]));
        case WriteEntries(puts, deletes, deleteAll) => var _ := Call(Write(puts, deletes, deleteAll));
        case SetAlarmAt(at) => var _ := Call(SetAlarm(at));
        case Block => blocked := blocked + 1;
        case Unblock(ok) =>
          failure := failure || !ok;
          blocked := blocked - 1;
        case _ => GuestPutsOut(g);
      }
    }

    /** The calls that put something out, or end an answer. */
    method GuestPutsOut(g: GuestCall)
      requires g.SendFrame? || g.TellSocket? || g.Respond? || g.EndBody? || g.EndHandler? || g.WriteChunk? || g.CallOut?
      modifies `next, `frames, `pipe, `exits, `bodies
      ensures View() == GuestStep(old(View()), g)
    {
      match g {
        case SendFrame(bytes) =>
          if frames < MAX_WAITING_FRAMES {
            pipe := Send(pipe, ObjectSocket(Frame(next, bytes)));
            next, frames := next + 1, frames + bytes;
          }
        case TellSocket =>
          pipe := Send(pipe, ObjectSocket(Frame(next, 0)));
          next := next + 1;
        case Respond(event, streams) =>
          if event in exits.events && event !in exits.outputs {
            exits := AddOutput(exits, event, exits.events[event], |pipe.made|);
            if !streams { bodies := bodies.(streamed := bodies.streamed + {event}); }
          }
        case EndBody(event) => bodies := bodies.(streamed := bodies.streamed + {event});
        case EndHandler(event) => bodies := bodies.(done := bodies.done + {event});
        case WriteChunk =>
          exits := AddOutput(exits, next, BodyChunk, |pipe.made|);
          next := next + 1;
        case CallOut(kind) =>
          if !Held(kind) {
            exits := AddOutput(exits, next, kind, |pipe.made|);
            pipe := Send(pipe, Outbound(next, kind));
            next := next + 1;
          }
      }
    }

    method RunGuest(calls: seq<GuestCall>)
      modifies `blocked, `failure, `readCount, `backlog, `next, `frames, `pipe, `exits, `bodies
      ensures View() == Guest(old(View()), calls)
    {
      var i := 0;
      while i < |calls|
        invariant 0 <= i <= |calls|
        invariant Guest(View(), calls[i..]) == Guest(old(View()), calls)
      {
        assert calls[i..][1..] == calls[i + 1..];
        GuestCalls(calls[i]);
        i := i + 1;
      }
    }

    /** The next callback the gate lets through: an index of `pending`, or its length. */
    method NextIndex() returns (i: nat)
      ensures i == NextCallback(Gate(), pending)
    {
      i := 0;
      if !failure && readCount > 0 {
        while i < |pending| && !pending[i].StorageDone?
          invariant 0 <= i <= |pending|
          invariant forall j :: 0 <= j < i ==> pending[j].Other?
        {
          i := i + 1;
        }
      }
    }

    /** `process_single_callback` and the microtasks after it. */
    method ProcessCallback(i: nat, guest: seq<GuestCall>)
      requires i == NextCallback(Gate(), pending) < |pending|
      modifies `blocked, `failure, `readCount, `backlog, `next, `frames, `pipe, `exits, `bodies, `pending, `delivered
      ensures View() == Move(old(View()), Deliver(guest))
      ensures pending == old(Without(pending, i))
    {
      hide Guest;
      var callback := pending[i];
      pending := pending[..i] + pending[i + 1..];
      match callback {
        case StorageDone(call, result) =>
          backlog := backlog - OpBytes(call.op);
          if call.input { readCount := readCount - 1; }
          failure := failure || (Writes(call.op) && result.Error?);
          delivered := delivered + [call];
        case Other(_) =>
      }
      RunGuest(guest);
    }

    method DeliverOne(index: nat, guest: seq<GuestCall>, ghost s0: State, ghost trace: seq<Action>,
                      ghost had: seq<Callback>, ghost ran: seq<Callback>)
      returns (ghost more: seq<Callback>, ghost longer: seq<Action>)
      requires index == NextCallback(Gate(), pending) < |pending|
      requires View() == Moves(s0, trace) && Kept(had, ran, pending)
      modifies `blocked, `failure, `readCount, `backlog, `next, `frames, `pipe, `exits, `bodies, `pending, `delivered
      ensures more == ran + [old(pending[index])] && (old(pending[index]).StorageDone? || !Reading(old(Gate())))
      ensures View() == Moves(s0, longer) && Kept(had, more, pending) && |pending| == |old(pending)| - 1
    {
      hide Moves, Move, Guest, Kept;
      KeptStep(had, ran, pending, index);
      MovesThen(s0, trace, Deliver(guest));
      more, longer := ran + [pending[index]], trace + [Deliver(guest)];
      ProcessCallback(index, guest);
    }

    /** Takes what the channel has, then runs callbacks until the gate lets none through: any
        in front when it is open, the first storage result when a read holds it closed. */
    method DrainGated(guest: nat -> seq<GuestCall>, from: nat)
      returns (count: nat, ghost ran: seq<Callback>, ghost gates: seq<Js>, ghost trace: seq<Action>)
      modifies `blocked, `failure, `readCount, `backlog, `next, `frames, `pipe, `exits, `bodies, `pending, `delivered, `callbacks
      ensures View() == Moves(old(View()), trace)
      ensures callbacks == [] && |ran| == count
      ensures Drained(old(pending + callbacks), ran, pending, Gate())
      ensures RanThroughGate(ran, gates)
      ensures count == 0 ==> Gate() == old(Gate())
    {
      ghost var s0, had := View(), pending + callbacks;
      TakeCallbacks();
      count, ran, gates, trace := 0, [], [], [Receive];
      MovesOne(s0, Receive);
      hide Moves, Move, Guest, Kept, RanThroughGate, NextCallback;
      var index := NextIndex();
      while index < |pending|
        invariant index == NextCallback(Gate(), pending)
        invariant View() == Moves(s0, trace)
        invariant callbacks == [] && |ran| == count
        invariant Kept(had, ran, pending)
        invariant RanThroughGate(ran, gates)
        invariant count == 0 ==> Gate() == s0.js
        decreases |pending|
      {
        ghost var callback, js, earlier := pending[index], Gate(), ran;
        ran, trace := DeliverOne(index, guest(from + count), s0, trace, had, ran);
        RanNext(earlier, gates, callback, js);
        gates := gates + [js];
        count := count + 1;
        index := NextIndex();
      }
      Settled(Gate(), pending);
    }

    /** All that the channel has goes behind what already waits. */
    method TakeCallbacks()
      modifies `pending, `callbacks
      ensures View() == Move(old(View()), Receive) && callbacks == []
      ensures Kept(old(pending + callbacks), [], pending) && RanThroughGate([], [])
    {
      pending := pending + callbacks;
      callbacks := [];
    }

    /** Gives an output its barrier, once the guest has answered its event. */
    method HoldOutput(out: nat)
      modifies `pipe, `exits
      ensures View() == Move(old(View()), Hold(out))
      ensures pipe.progress == old(pipe.progress) && exits == old(exits).(held := exits.held)
      ensures exits.held == old(exits.held) || exits.held == old(exits.held) + {out}
    {
      if out in exits.outputs && Held(exits.outputs[out].kind) && out !in exits.held {
        pipe := Send(pipe, OutputBarrier(out));
        exits := exits.(held := exits.held + {out});
      }
    }

    /** The output of one event: its barrier, and what its gate makes of it. */
    method AnswerOutput(out: nat) returns (answered: bool, ghost trace: seq<Action>)
      modifies `pipe, `exits, `bodies
      ensures View() == Moves(old(View()), trace) == AnswerGate(old(View()), out)
    {
      ghost var s0 := View();
      answered := out in exits.outputs && exits.outputs[out].kind.Response? && out !in exits.held;
      HoldOutput(out);
      MovesOne(s0, Hold(out));
      trace := [Hold(out)];
      if out in exits.held && !(out in exits.left || out in bodies.given) {
        if GateOpen(pipe, exits, out) {
          MovesThen(s0, trace, Leave(out));
          trace := trace + [Leave(out)];
          if out in exits.outputs { exits := exits.(left := exits.left + {out}); }
          answered := true;
        } else {
          MovesThen(s0, trace, GiveUp(out));
          trace := trace + [GiveUp(out)];
          if out in pipe.progress.shut {
            bodies := bodies.(given := bodies.given + {out});
            answered := true;
          }
        }
      }
    }

    /** Tells the guest of an event that its client hung up, once. */
    method TellGuest(out: nat, guest: seq<GuestCall>) returns (told: bool)
      modifies `blocked, `failure, `readCount, `backlog, `next, `frames, `pipe, `exits, `bodies
      ensures View() == Move(old(View()), Disconnect(out, guest))
      ensures !told ==> View() == old(View())
    {
      told := ToTell(View(), out);
      if told {
        bodies := bodies.(told := bodies.told + {out});
        RunGuest(guest);
      }
    }

    method AnswerEvent(out: nat, guest: seq<GuestCall>) returns (answered: bool, ghost trace: seq<Action>)
      modifies `blocked, `failure, `readCount, `backlog, `next, `frames, `pipe, `exits, `bodies
      ensures View() == Moves(old(View()), trace) == AnswerOne(old(View()), out, guest)
      ensures !answered ==> Gate() == old(Gate())
    {
      ghost var s0 := View();
      hide Moves, Move, AnswerGate;
      var told;
      answered, trace := AnswerOutput(out);
      MovesThen(s0, trace, Disconnect(out, guest));
      trace := trace + [Disconnect(out, guest)];
      told := TellGuest(out, guest);
      answered := answered || told;
    }

    /** Goes through the events in flight, in order: lets out what its gate let out, gives up
        what its gate shut, tells the guests whose clients hung up, and keeps the events that
        are not over. */
    method Answer(guest: nat -> seq<GuestCall>) returns (answered: bool, ghost trace: seq<Action>)
      modifies `blocked, `failure, `readCount, `backlog, `next, `frames, `pipe, `exits, `bodies, `inflight
      ensures View() == Moves(old(View()), trace) == AnswerAll(old(View()), old(inflight), guest)
      ensures inflight == StillWaiting(old(View()), old(inflight), guest)
      ensures !answered ==> Gate() == old(Gate())
    {
      ghost var s0 := View();
      var kept: seq<nat> := [];
      answered, trace := false, [];
      var i := 0;
      assert View() == Moves(s0, trace) == AnswerAll(s0, [], guest) && kept == StillWaiting(s0, [], guest);
      hide Moves, Move, AnswerOne, AnswerAll, StillWaiting, EventOver;
      while i < |inflight|
        invariant 0 <= i <= |inflight| && inflight == old(inflight)
        invariant View() == Moves(s0, trace) == AnswerAll(s0, inflight[..i], guest)
        invariant kept == StillWaiting(s0, inflight[..i], guest)
        invariant !answered ==> Gate() == s0.js
      {
        ghost var more;
        var one;
        AnswerNext(s0, inflight, i, guest);
        one, more := AnswerEvent(inflight[i], guest(i));
        MovesAppend(s0, trace, more);
        trace := trace + more;
        answered := answered || one;
        if !EventOver(View(), inflight[i]) { kept := kept + [inflight[i]]; }
        i := i + 1;
      }
      assert inflight[..i] == inflight;
      inflight := kept;
    }

    method AdmitEvent(guest: seq<GuestCall>)
      requires Admits(Gate()) && mailbox != []
      modifies `blocked, `failure, `readCount, `backlog, `next, `frames, `pipe, `exits, `bodies, `mailbox, `inflight
      ensures View() == Move(old(View()), Admit(old(mailbox)[0], guest))
      ensures mailbox == old(mailbox)[1..] && inflight == old(inflight) + [old(next)]
    {
      exits := exits.(events := exits.events[next := mailbox[0]]);
      mailbox, inflight := mailbox[1..], inflight + [next];
      next := next + 1;
      RunGuest(guest);
    }

    /** Takes events, in order, as long as the gate lets them in. */
    method AdmitEvents(guest: nat -> seq<GuestCall>, from: nat) returns (admitted: nat, ghost trace: seq<Action>)
      modifies `blocked, `failure, `readCount, `backlog, `next, `frames, `pipe, `exits, `bodies, `mailbox, `inflight
      ensures View() == Moves(old(View()), trace)
      ensures admitted <= |old(mailbox)| && mailbox == old(mailbox)[admitted..]
      ensures Admits(Gate()) ==> mailbox == []
      ensures admitted == 0 ==> View() == old(View()) && inflight == old(inflight)
    {
      ghost var s0 := View();
      admitted, trace := 0, [];
      while !failure && !(blocked > 0) && !(readCount > 0) && mailbox != []
        invariant View() == Moves(s0, trace)
        invariant admitted <= |old(mailbox)| && mailbox == old(mailbox)[admitted..]
        invariant admitted == 0 ==> View() == s0 && inflight == old(inflight)
        decreases |mailbox|
      {
        ghost var action := Admit(mailbox[0], guest(from + admitted));
        MovesThen(s0, trace, action);
        trace := trace + [action];
        AdmitEvent(guest(from + admitted));
        admitted := admitted + 1;
      }
    }

    /** A round of a turn. `stop`: it did nothing, or found the object broken. `ran` counts the
        times that guest code could run. */
    method Round(guest: nat -> seq<GuestCall>, from: nat)
      returns (admitted: nat, ran: nat, stop: bool, ghost trace: seq<Action>)
      modifies this
      ensures View() == Moves(old(View()), trace)
      ensures admitted <= |old(mailbox)| && mailbox == old(mailbox)[admitted..]
      ensures stop ==> failure || Still(Gate(), mailbox, pending, callbacks)
    {
      hide Moves, Move, AnswerAll, StillWaiting, Kept, RanThroughGate;
      ghost var s0 := View();
      ghost var deliveries, answers, done, gates;
      var count;
      admitted, trace := AdmitEvents(guest, from);
      count, done, gates, deliveries := DrainGated(guest, from + admitted);
      MovesAppend(s0, trace, deliveries);
      trace := trace + deliveries;
      ran := admitted + count;

      // a broken object answers nothing more
      if failure { return admitted, ran, true, trace; }

      var answered;
      ran := ran + |inflight|;
      answered, answers := Answer((i: nat) => guest(from + admitted + count + i));
      MovesAppend(s0, trace, answers);
      trace := trace + answers;
      stop := admitted == 0 && count == 0 && !answered;
    }

    /** One turn: rounds of taking events, running callbacks and answering. If it does not
        ask to be woken again and the object is not broken, nothing that came can go in. */
    method Turn(guest: nat -> seq<GuestCall>) returns (took: nat, again: bool, ghost trace: seq<Action>)
      modifies this
      ensures View() == Moves(old(View()), trace)
      ensures took <= |old(mailbox)| && mailbox == old(mailbox)[took..]
      ensures again || failure || Still(Gate(), mailbox, pending, callbacks)
    {
      ghost var s0 := View();
      took, again, trace := 0, false, [];
      assert View() == Moves(s0, trace);
      hide Moves, Still;
      var steps, round := 0, 0;
      while round < MAX_ROUNDS
        invariant 0 <= round <= MAX_ROUNDS
        invariant View() == Moves(s0, trace)
        invariant took <= |old(mailbox)| && mailbox == old(mailbox)[took..]
        invariant round == MAX_ROUNDS ==> again
      {
        var admitted, ran, stop, more := Round(guest, steps);
        MovesAppend(s0, trace, more);
        trace, took, steps := trace + more, took + admitted, steps + ran;
        if stop { return; }
        // the last round did something, so the turn asks for another
        if round == MAX_ROUNDS - 1 { again := true; }
        round := round + 1;
      }
    }
  }
}
