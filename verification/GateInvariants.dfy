/** What every step of the object keeps, one part of `Inv` at a time. */
module GateInvariants {
  import opened Lists
  import opened Storage
  import opened ObjectQueue
  import opened ObjectGates

  // ---- lists ----

  lemma {:induction false} MsgCallsAppend(a: seq<Msg>, b: seq<Msg>)
    ensures CallsOfMsgs(a + b) == CallsOfMsgs(a) + CallsOfMsgs(b)
  {
    if a == [] { assert a + b == b; } else {
      assert (a + b)[1..] == a[1..] + b;
      MsgCallsAppend(a[1..], b);
      Associate(Called(a[0]), CallsOfMsgs(a[1..]), CallsOfMsgs(b));
    }
  }

  lemma {:induction false} CallbackCallsAppend(a: seq<Callback>, b: seq<Callback>)
    ensures CallsOfCallbacks(a + b) == CallsOfCallbacks(a) + CallsOfCallbacks(b)
  {
    if a == [] { assert a + b == b; } else {
      assert (a + b)[1..] == a[1..] + b;
      CallbackCallsAppend(a[1..], b);
      Associate(if a[0].StorageDone? then [a[0].call] else [], CallsOfCallbacks(a[1..]), CallsOfCallbacks(b));
    }
  }

  lemma {:induction false} CountInputAppend(a: seq<Call>, b: seq<Call>)
    ensures CountInput(a + b) == CountInput(a) + CountInput(b)
  {
    if a == [] { assert a + b == b; } else {
      assert (a + b)[1..] == a[1..] + b;
      CountInputAppend(a[1..], b);
    }
  }

  lemma {:induction false} SumBytesAppend(a: seq<Call>, b: seq<Call>)
    ensures SumBytes(a + b) == SumBytes(a) + SumBytes(b)
  {
    if a == [] { assert a + b == b; } else {
      assert (a + b)[1..] == a[1..] + b;
      SumBytesAppend(a[1..], b);
    }
  }

  lemma {:induction false} LargestOpAppend(a: seq<Call>, call: Call)
    ensures LargestOp(a + [call]) >= LargestOp(a) && LargestOp(a + [call]) >= OpBytes(call.op)
  {
    if a == [] { assert a + [call] == [call]; } else {
      assert (a + [call])[1..] == a[1..] + [call];
      LargestOpAppend(a[1..], call);
    }
  }

  lemma {:induction false} FrameBytesAppend(a: seq<Work>, b: seq<Work>)
    ensures FrameBytes(a + b) == FrameBytes(a) + FrameBytes(b)
  {
    if a == [] { assert a + b == b; } else {
      assert (a + b)[1..] == a[1..] + b;
      FrameBytesAppend(a[1..], b);
    }
  }

  lemma {:induction false} MsgFramesAppend(a: seq<Msg>, b: seq<Msg>)
    ensures FrameBytesOfMsgs(a + b) == FrameBytesOfMsgs(a) + FrameBytesOfMsgs(b)
  {
    if a == [] { assert a + b == b; } else {
      assert (a + b)[1..] == a[1..] + b;
      MsgFramesAppend(a[1..], b);
    }
  }

  lemma {:induction false} LargestFrameAppend(a: seq<Msg>, msg: Msg)
    ensures LargestFrame(a + [msg]) >= LargestFrame(a)
    ensures msg.ObjectSocket? ==> LargestFrame(a + [msg]) >= msg.frame.bytes
  {
    if a == [] { assert a + [msg] == [msg]; } else {
      assert (a + [msg])[1..] == a[1..] + [msg];
      LargestFrameAppend(a[1..], msg);
    }
  }

  lemma {:induction false} MovesAppend(s: State, trace: seq<Action>, more: seq<Action>)
    ensures Moves(s, trace + more) == Moves(Moves(s, trace), more)
    decreases |trace|
  {
    if trace == [] { assert trace + more == more; } else {
      assert (trace + more)[1..] == trace[1..] + more;
      MovesAppend(Move(s, trace[0]), trace[1..], more);
    }
  }

  // ---- sending a message ----

  function Called(msg: Msg): seq<Call> {
    if msg.ObjectStorage? then [msg.call] else []
  }

  lemma SendPiped(p: Pipe, msg: Msg)
    requires Piped(p)
    ensures Piped(Send(p, msg))
  {
    Associate(p.taken, p.sched, [msg]);
  }

  lemma SendUnended(p: Pipe, inbox: Inbox, msg: Msg)
    ensures CallsOfMsgs(Send(p, msg).made) == CallsOfMsgs(p.made) + Called(msg)
    ensures Unended(Send(p, msg), inbox) == Unended(p, inbox) + Called(msg)
  {
    MsgCallsAppend(p.made, [msg]);
    MsgCallsAppend(p.sched, [msg]);
    assert [msg][1..] == [];
    Associate(CallsOfCallbacks(inbox.pending) + CallsOfCallbacks(inbox.callbacks) + CallsOf(p.queue), CallsOfMsgs(p.sched), Called(msg));
  }

  lemma SendOrdered(made: seq<Call>, delivered: seq<Call>, unended: seq<Call>, more: seq<Call>)
    requires Ordered(made, delivered, unended)
    ensures Ordered(made + more, delivered, unended + more)
  {
    Associate(delivered, unended, more);
  }

  lemma SendFrames(frames: int, p: Pipe, msg: Msg)
    requires FramesCounted(frames, p.queue, p.sched) && FramesBounded(frames, p.made)
    requires msg.ObjectSocket? && msg.frame.bytes > 0 ==> frames < MAX_WAITING_FRAMES
    ensures var sent := frames + if msg.ObjectSocket? then msg.frame.bytes else 0;
            && FramesCounted(sent, Send(p, msg).queue, Send(p, msg).sched)
            && FramesBounded(sent, Send(p, msg).made)
  {
    MsgFramesAppend(p.sched, [msg]);
    LargestFrameAppend(p.made, msg);
  }

  lemma SendAnnounced(made: seq<Msg>, outputs: map<nat, Output>, msg: Msg)
    requires Announced(made, outputs)
    requires IsOut(msg) ==> msg.out in outputs && outputs[msg.out].since <= |made|
    requires msg.Outbound? ==> outputs[msg.out].kind == msg.kind
    ensures Announced(made + [msg], outputs)
  {
  }

  /** A message leaves the gates and the outputs as they are. */
  lemma SendReleased(p: Pipe, e: Exits, msg: Msg)
    requires Released(p, e)
    ensures Released(Send(p, msg), e)
  {
  }

  lemma CallCounted(js: Js, unended: seq<Call>, made: seq<Call>, call: Call)
    requires Counted(js, unended) && BacklogBounded(js, made) && !Refused(js, call.op)
    ensures var called := js.(backlog := js.backlog + OpBytes(call.op),
                              readCount := js.readCount + if call.input then 1 else 0);
            Counted(called, unended + [call]) && BacklogBounded(called, made + [call])
  {
    CountInputAppend(unended, [call]);
    SumBytesAppend(unended, [call]);
    LargestOpAppend(made, call);
  }

  lemma CallFresh(calls: seq<Call>, next: nat, call: Call)
    requires Fresh(calls, next) && call.id == next
    ensures Fresh(calls + [call], next + 1)
  {
  }

  lemma CallKeepsCalls(s: State, call: Call)
    requires CallInv(s.js, s.next, s.pipe, s.inbox) && !Refused(s.js, call.op) && call.id == s.next
    ensures var t := StorageCall(s, call.op, call.input); CallInv(t.js, t.next, t.pipe, t.inbox)
  {
    var made, unended := CallsOfMsgs(s.pipe.made), Unended(s.pipe, s.inbox);
    SendUnended(s.pipe, s.inbox, ObjectStorage(call));
    SendOrdered(made, s.inbox.delivered, unended, [call]);
    CallCounted(s.js, unended, made, call);
    CallFresh(made, s.next, call);
  }

  lemma PlainSendCalls(js: Js, next: nat, p: Pipe, inbox: Inbox, msg: Msg, next': nat)
    requires CallInv(js, next, p, inbox) && !msg.ObjectStorage? && next <= next'
    ensures CallInv(js, next', Send(p, msg), inbox)
  {
    SendUnended(p, inbox, msg);
    assert CallsOfMsgs(p.made) + [] == CallsOfMsgs(p.made);
    assert Unended(p, inbox) + [] == Unended(p, inbox);
  }

  lemma SendExits(next: nat, p: Pipe, e: Exits, msg: Msg, next': nat)
    requires ExitInv(next, p, e) && next <= next'
    requires IsOut(msg) ==> msg.out in e.outputs
    requires msg.Outbound? ==> e.outputs[msg.out].kind == msg.kind
    ensures ExitInv(next', Send(p, msg), e)
  {
    SendAnnounced(p.made, e.outputs, msg);
    SendReleased(p, e, msg);
  }

  lemma StorageCallKeeps(s: State, op: StorageOp, input: bool)
    requires Inv(s)
    ensures Inv(StorageCall(s, op, input))
  {
    if !Refused(s.js, op) {
      var msg := ObjectStorage(Call(s.next, op, input));
      SendPiped(s.pipe, msg);
      CallKeepsCalls(s, msg.call);
      SendFrames(s.frames, s.pipe, msg);
      SendExits(s.next, s.pipe, s.exits, msg, s.next + 1);
    }
  }

  /** Any other message; `exits` already has the output it names. */
  lemma PlainSendKeeps(s: State, msg: Msg, exits: Exits, next: nat)
    requires Inv(s) && !msg.ObjectStorage? && s.next <= next
    requires ExitInv(next, s.pipe, exits)
    requires IsOut(msg) ==> msg.out in exits.outputs
    requires msg.Outbound? ==> exits.outputs[msg.out].kind == msg.kind
    requires msg.ObjectSocket? && msg.frame.bytes > 0 ==> s.frames < MAX_WAITING_FRAMES
    ensures Inv(s.(pipe := Send(s.pipe, msg), next := next, exits := exits,
                   frames := s.frames + if msg.ObjectSocket? then msg.frame.bytes else 0))
  {
    SendPiped(s.pipe, msg);
    PlainSendCalls(s.js, s.next, s.pipe, s.inbox, msg, next);
    SendFrames(s.frames, s.pipe, msg);
    SendExits(next, s.pipe, exits, msg, next);
  }

  /** A new output changes nothing that was announced or released. */
  lemma OutputKeeps(next: nat, p: Pipe, e: Exits, out: nat, kind: Kind, next': nat)
    requires ExitInv(next, p, e) && out !in e.outputs && out < next' && next <= next'
    ensures ExitInv(next', p, AddOutput(e, out, kind, |p.made|))
  {
    OutputAnnounced(p.made, e.outputs, out, kind);
    OutputReleased(p, e, out, kind);
  }

  lemma OutputAnnounced(made: seq<Msg>, outputs: map<nat, Output>, out: nat, kind: Kind)
    requires Announced(made, outputs) && out !in outputs
    ensures Announced(made, outputs[out := Output(kind, |made|)])
  {
  }

  lemma OutputReleased(p: Pipe, e: Exits, out: nat, kind: Kind)
    requires Released(p, e) && out !in e.outputs
    ensures Released(p, AddOutput(e, out, kind, |p.made|))
  {
  }

  lemma NextKeepsCalls(js: Js, next: nat, p: Pipe, inbox: Inbox, js': Js, next': nat)
    requires CallInv(js, next, p, inbox) && next <= next'
    requires js'.readCount == js.readCount && js'.backlog == js.backlog
    ensures CallInv(js', next', p, inbox)
  {
  }

  lemma SendFrameKeeps(s: State, bytes: nat)
    requires Inv(s)
    ensures Inv(GuestStep(s, SendFrame(bytes)))
  {
    hide Piped, CallInv, FrameInv, Announced, FreedEarly, FreedAll, Released;
    if s.frames < MAX_WAITING_FRAMES {
      PlainSendKeeps(s, ObjectSocket(Frame(s.next, bytes)), s.exits, s.next + 1);
    }
  }

  lemma TellSocketKeeps(s: State)
    requires Inv(s)
    ensures Inv(GuestStep(s, TellSocket))
  {
    hide Piped, CallInv, FrameInv, Announced, FreedEarly, FreedAll, Released;
    PlainSendKeeps(s, ObjectSocket(Frame(s.next, 0)), s.exits, s.next + 1);
  }

  lemma RespondKeeps(s: State, event: nat, streams: bool)
    requires Inv(s)
    ensures Inv(GuestStep(s, Respond(event, streams)))
  {
    hide Piped, CallInv, FrameInv, Announced, FreedEarly, FreedAll, Released;
    if event in s.exits.events && event !in s.exits.outputs {
      OutputKeeps(s.next, s.pipe, s.exits, event, s.exits.events[event], s.next);
    }
  }

  lemma WriteChunkKeeps(s: State)
    requires Inv(s)
    ensures Inv(GuestStep(s, WriteChunk))
  {
    hide Piped, CallInv, FrameInv, Announced, FreedEarly, FreedAll, Released;
    OutputKeeps(s.next, s.pipe, s.exits, s.next, BodyChunk, s.next + 1);
    NextKeepsCalls(s.js, s.next, s.pipe, s.inbox, s.js, s.next + 1);
  }

  lemma CallOutKeeps(s: State, kind: Kind)
    requires Inv(s)
    ensures Inv(GuestStep(s, CallOut(kind)))
  {
    hide Piped, CallInv, FrameInv, Announced, FreedEarly, FreedAll, Released;
    if !Held(kind) {
      OutputKeeps(s.next, s.pipe, s.exits, s.next, kind, s.next + 1);
      PlainSendKeeps(s, Outbound(s.next, kind), AddOutput(s.exits, s.next, kind, |s.pipe.made|), s.next + 1);
    }
  }

  lemma GuestStepKeeps(s: State, g: GuestCall)
    requires Inv(s)
    ensures Inv(GuestStep(s, g))
  {
    match g
    case GetKeys(keys) => StorageCallKeeps(s, Get(keys), true);
    case ListEntries(list) => if list.List? { StorageCallKeeps(s, list, true); }
    case ReadAlarm => StorageCallKeeps(s, GetAlarm, true);
    case Sync => StorageCallKeeps(s, Get([]), false);
    case WriteEntries(puts, deletes, deleteAll) => StorageCallKeeps(s, Write(puts, deletes, deleteAll), false);
    case SetAlarmAt(at) => StorageCallKeeps(s, SetAlarm(at), false);
    case SendFrame(bytes) => SendFrameKeeps(s, bytes);
    case TellSocket => TellSocketKeeps(s);
    case Respond(event, streams) => RespondKeeps(s, event, streams);
    case EndBody(_) =>
    case EndHandler(_) =>
    case WriteChunk => WriteChunkKeeps(s);
    case CallOut(kind) => CallOutKeeps(s, kind);
    case Block => NextKeepsCalls(s.js, s.next, s.pipe, s.inbox, GuestStep(s, g).js, s.next);
    case Unblock(_) => NextKeepsCalls(s.js, s.next, s.pipe, s.inbox, GuestStep(s, g).js, s.next);
  }

  lemma {:induction false} GuestKeeps(s: State, calls: seq<GuestCall>)
    requires Inv(s)
    ensures Inv(Guest(s, calls))
    decreases |calls|
  {
    if calls != [] {
      GuestStepKeeps(s, calls[0]);
      GuestKeeps(GuestStep(s, calls[0]), calls[1..]);
    }
  }

  lemma HeldExits(next: nat, p: Pipe, e: Exits, out: nat)
    requires ExitInv(next, p, e) && out in e.outputs
    ensures ExitInv(next, p, e.(held := e.held + {out}))
  {
    assert Released(p, e.(held := e.held + {out}));
  }

  lemma HoldKeeps(s: State, out: nat)
    requires Inv(s)
    ensures Inv(Move(s, Hold(out)))
  {
    hide Piped, CallInv, FrameInv, ExitInv;
    if out in s.exits.outputs && Held(s.exits.outputs[out].kind) && out !in s.exits.held {
      HeldExits(s.next, s.pipe, s.exits, out);
      PlainSendKeeps(s, OutputBarrier(out), s.exits.(held := s.exits.held + {out}), s.next);
    }
  }

  // ---- the event loop ----

  /** A step that moves storage ops along, and neither makes nor ends one. */
  ghost predicate SameCalls(s: State, t: State) {
    t.js == s.js && Unended(t.pipe, t.inbox) == Unended(s.pipe, s.inbox)
  }

  lemma QueuedAppend(taken: seq<Msg>, msg: Msg)
    ensures Queued(taken + [msg]) == Queued(taken) + GateOf(msg, Queued(taken) != [])
  {
    assert (taken + [msg])[..|taken|] == taken;
  }

  lemma TakeQueued(taken: seq<Msg>, ended: seq<Work>, queue: seq<Work>, msg: Msg, started: bool)
    requires Queued(taken) == ended + queue && (started <==> Queued(taken) != [])
    ensures Queued(taken + [msg]) == ended + (queue + GateOf(msg, started))
    ensures started || GateOf(msg, started) != [] <==> Queued(taken + [msg]) != []
  {
    QueuedAppend(taken, msg);
    Associate(ended, queue, GateOf(msg, started));
  }

  lemma TakePiped(p: Pipe)
    requires Piped(p) && p.sched != []
    ensures Piped(TakePipe(p))
  {
    TakeQueued(p.taken, p.ended, p.queue, p.sched[0], p.started);
    TakeChannel(p.taken, p.sched);
  }

  lemma TakeChannel(taken: seq<Msg>, sched: seq<Msg>)
    requires sched != []
    ensures taken + sched == (taken + [sched[0]]) + sched[1..]
  {
    assert sched == [sched[0]] + sched[1..];
    Associate(taken, [sched[0]], sched[1..]);
  }

  /** A call moves to the list before its own, at the seam of the two. */
  lemma Shift(before: seq<Call>, list: seq<Call>, moved: seq<Call>, rest: seq<Call>)
    ensures before + (list + moved) + rest == before + list + (moved + rest)
  {
    Associate(before, list, moved);
    Associate(before + list, moved, rest);
  }

  lemma GateCalls(msg: Msg, started: bool)
    ensures CallsOf(GateOf(msg, started)) == Called(msg)
  {
    var works := GateOf(msg, started);
    if works != [] { assert works[1..] == []; }
  }

  lemma TakeUnended(p: Pipe, inbox: Inbox)
    requires p.sched != []
    ensures Unended(TakePipe(p), inbox) == Unended(p, inbox)
  {
    var works, before := GateOf(p.sched[0], p.started), CallsOfCallbacks(inbox.pending) + CallsOfCallbacks(inbox.callbacks);
    CallsOfAppend(p.queue, works);
    GateCalls(p.sched[0], p.started);
    assert CallsOfMsgs(p.sched) == Called(p.sched[0]) + CallsOfMsgs(p.sched[1..]);
    Shift(before, CallsOf(p.queue), Called(p.sched[0]), CallsOfMsgs(p.sched[1..]));
  }

  lemma TakeFrames(frames: int, p: Pipe)
    requires FramesCounted(frames, p.queue, p.sched) && p.sched != []
    ensures FramesCounted(frames, TakePipe(p).queue, TakePipe(p).sched)
  {
    FrameBytesAppend(p.queue, GateOf(p.sched[0], p.started));
  }

  lemma FreeStays(taken: seq<Msg>, msg: Msg, out: nat)
    requires FreeBefore(taken, out)
    ensures FreeBefore(taken + [msg], out)
  {
    var j :| 0 <= j < |taken| && IsOut(taken[j]) && taken[j].out == out && Queued(taken[..j]) == [];
    assert (taken + [msg])[..j] == taken[..j] && (taken + [msg])[j] == taken[j];
  }

  lemma TakeFreed(p: Pipe, e: Exits)
    requires Piped(p) && FreedEarly(p.taken, e.free) && p.sched != []
    ensures FreedEarly(TakePipe(p).taken, TakeExits(e, p.sched[0], p.started).free)
  {
    var msg := p.sched[0];
    var taken := p.taken + [msg];
    forall out | out in TakeExits(e, msg, p.started).free ensures FreeBefore(taken, out) {
      if out in e.free {
        FreeStays(p.taken, msg, out);
      } else {
        assert taken[|p.taken|] == msg && taken[..|p.taken|] == p.taken;
      }
    }
  }

  lemma TakeFreedAll(p: Pipe, e: Exits)
    requires Piped(p) && FreedAll(p.taken, e.free) && p.sched != []
    ensures FreedAll(TakePipe(p).taken, TakeExits(e, p.sched[0], p.started).free)
  {
    var msg := p.sched[0];
    var taken, free := p.taken + [msg], TakeExits(e, msg, p.started).free;
    assert taken[..|p.taken|] == p.taken;
    forall j | 0 <= j < |taken| && IsGated(taken[j]) && Queued(taken[..j]) == [] ensures taken[j].out in free {
      if j < |p.taken| { assert taken[..j] == p.taken[..j]; }
    }
  }

  lemma TakeReleased(p: Pipe, e: Exits)
    requires Piped(p) && Announced(p.made, e.outputs) && Released(p, e) && p.sched != []
    ensures Released(TakePipe(p), TakeExits(e, p.sched[0], p.started))
  {
    assert p.made[|p.taken|] == p.sched[0];
  }

  lemma LoopKeeps(s: State)
    requires Inv(s) && s.pipe.sched != []
    ensures Inv(Move(s, Loop)) && SameCalls(s, Move(s, Loop))
  {
    hide Piped, Ordered, Counted, BacklogBounded, Fresh, FramesCounted, FramesBounded, Announced, FreedEarly, FreedAll, Released;
    TakePiped(s.pipe);
    TakeUnended(s.pipe, s.inbox);
    TakeFrames(s.frames, s.pipe);
    TakeFreed(s.pipe, s.exits);
    TakeFreedAll(s.pipe, s.exits);
    TakeReleased(s.pipe, s.exits);
  }

  // ---- the queue task ----

  lemma ServePiped(p: Pipe, reply: StorageResult)
    requires Piped(p) && p.queue != []
    ensures Piped(ServePipe(p, reply))
  {
    RunAppend(p.ended, p.replies, p.queue[0], reply);
    assert p.queue == [p.queue[0]] + p.queue[1..];
    Associate(p.ended, [p.queue[0]], p.queue[1..]);
  }

  lemma AnswerCalls(p: Pipe, reply: StorageResult)
    requires p.queue != []
    ensures CallsOfCallbacks(AnswerOf(p, reply)) == if p.queue[0].Stored? then [p.queue[0].call] else []
  {
    var answer := AnswerOf(p, reply);
    if answer != [] { assert answer[1..] == []; }
  }

  lemma ServeUnended(p: Pipe, inbox: Inbox, reply: StorageResult)
    requires p.queue != []
    ensures Unended(ServePipe(p, reply), inbox.(callbacks := inbox.callbacks + AnswerOf(p, reply))) == Unended(p, inbox)
  {
    var first := if p.queue[0].Stored? then [p.queue[0].call] else [];
    CallbackCallsAppend(inbox.callbacks, AnswerOf(p, reply));
    AnswerCalls(p, reply);
    assert CallsOf(p.queue) == first + CallsOf(p.queue[1..]);
    Shift(CallsOfCallbacks(inbox.pending), CallsOfCallbacks(inbox.callbacks), first, CallsOf(p.queue[1..]));
  }

  lemma ServeReleased(p: Pipe, e: Exits, reply: StorageResult)
    requires Released(p, e) && p.queue != []
    ensures Released(ServePipe(p, reply), e)
  {
    assert p.progress.unlocked <= ServePipe(p, reply).progress.unlocked;
  }

  lemma ServeFrames(frames: int, p: Pipe, reply: StorageResult)
    requires FramesCounted(frames, p.queue, p.sched) && FramesBounded(frames, p.made) && p.queue != []
    ensures var left := frames - WorkBytes(p.queue[0]);
      FramesCounted(left, ServePipe(p, reply).queue, p.sched) && FramesBounded(left, p.made)
  {
  }

  lemma ServeKeeps(s: State, reply: StorageResult)
    requires Inv(s) && s.pipe.queue != []
    ensures Inv(Move(s, Serve(reply))) && SameCalls(s, Move(s, Serve(reply)))
  {
    hide Piped, Ordered, Counted, BacklogBounded, Fresh, FramesCounted, FramesBounded, Announced, FreedEarly, FreedAll, Released;
    ServePiped(s.pipe, reply);
    ServeFrames(s.frames, s.pipe, reply);
    ServeUnended(s.pipe, s.inbox, reply);
    ServeReleased(s.pipe, s.exits, reply);
  }

  // ---- the object ----

  lemma ReceiveKeeps(s: State)
    requires Inv(s)
    ensures Inv(Move(s, Receive)) && SameCalls(s, Move(s, Receive))
  {
    hide Piped, Ordered, Counted, BacklogBounded, Fresh, FrameInv, ExitInv;
    CallbackCallsAppend(s.inbox.pending, s.inbox.callbacks);
    var received := CallsOfCallbacks(s.inbox.pending + s.inbox.callbacks);
    assert received + [] == received;
  }

  lemma ArriveCalls(callbacks: seq<Callback>, id: nat)
    ensures CallsOfCallbacks(callbacks + [Other(id)]) == CallsOfCallbacks(callbacks)
  {
    CallbackCallsAppend(callbacks, [Other(id)]);
    assert [Other(id)][1..] == [];
    assert CallsOfCallbacks(callbacks) + [] == CallsOfCallbacks(callbacks);
  }

  lemma ArriveKeeps(s: State, id: nat)
    requires Inv(s)
    ensures Inv(Move(s, Arrive(id))) && SameCalls(s, Move(s, Arrive(id)))
  {
    hide Piped, Ordered, Counted, BacklogBounded, Fresh, FrameInv, ExitInv;
    ArriveCalls(s.inbox.callbacks, id);
    assert Unended(s.pipe, Move(s, Arrive(id)).inbox) == Unended(s.pipe, s.inbox);
  }

  lemma {:induction false} OthersOnly(callbacks: seq<Callback>)
    requires forall j :: 0 <= j < |callbacks| ==> callbacks[j].Other?
    ensures CallsOfCallbacks(callbacks) == []
  {
    if callbacks != [] { OthersOnly(callbacks[1..]); }
  }

  /** The callback that runs is the first storage op on its way, or none of them. */
  lemma {:induction false} TakeCallback(pending: seq<Callback>, i: nat)
    requires i < |pending|
    requires forall j :: 0 <= j < i ==> pending[j].Other?
    ensures CallsOfCallbacks(pending)
         == (if pending[i].StorageDone? then [pending[i].call] else []) + CallsOfCallbacks(Without(pending, i))
  {
    if i == 0 {
      assert Without(pending, 0) == pending[1..];
    } else {
      TakeCallback(pending[1..], i - 1);
      assert Without(pending, i)[1..] == Without(pending[1..], i - 1);
    }
  }

  lemma SettleCounted(js: Js, call: Call, result: StorageResult, rest: seq<Call>)
    requires Counted(js, [call] + rest)
    ensures Counted(Settle(js, call, result), rest)
  {
    CountInputAppend([call], rest);
    SumBytesAppend([call], rest);
  }

  lemma FirstUnended(first: seq<Call>, rest: seq<Call>, a: seq<Call>, b: seq<Call>, c: seq<Call>)
    ensures (first + rest) + a + b + c == first + (rest + a + b + c)
  {
    Associate(first, rest, a);
    Associate(first, rest + a, b);
    Associate(first, rest + a + b, c);
  }

  lemma ProcessUnended(p: Pipe, inbox: Inbox, i: nat)
    requires i < |inbox.pending| && forall j :: 0 <= j < i ==> inbox.pending[j].Other?
    ensures Unended(p, inbox) ==
      (if inbox.pending[i].StorageDone? then [inbox.pending[i].call] else [])
      + Unended(p, inbox.(pending := Without(inbox.pending, i)))
  {
    TakeCallback(inbox.pending, i);
    FirstUnended(if inbox.pending[i].StorageDone? then [inbox.pending[i].call] else [],
                 CallsOfCallbacks(Without(inbox.pending, i)), CallsOfCallbacks(inbox.callbacks), CallsOf(p.queue), CallsOfMsgs(p.sched));
  }

  lemma DeliverOrdered(made: seq<Call>, delivered: seq<Call>, call: Call, rest: seq<Call>)
    requires Ordered(made, delivered, [call] + rest)
    ensures Ordered(made, delivered + [call], rest)
  {
    Associate(delivered, [call], rest);
  }

  lemma ProcessKeepsCalls(s: State, i: nat)
    requires CallInv(s.js, s.next, s.pipe, s.inbox) && i == NextCallback(s.js, s.inbox.pending) < |s.inbox.pending|
    ensures var t := Process(s, i); CallInv(t.js, t.next, t.pipe, t.inbox)
  {
    ProcessUnended(s.pipe, s.inbox, i);
    var rest := Unended(s.pipe, Process(s, i).inbox);
    if s.inbox.pending[i].StorageDone? {
      var call := s.inbox.pending[i].call;
      SettleCounted(s.js, call, s.inbox.pending[i].result, rest);
      DeliverOrdered(CallsOfMsgs(s.pipe.made), s.inbox.delivered, call, rest);
    } else {
      assert [] + rest == rest;
    }
  }

  lemma AdmitExits(next: nat, p: Pipe, e: Exits, kind: Kind)
    requires ExitInv(next, p, e)
    ensures ExitInv(next + 1, p, e.(events := e.events[next := kind]))
  {
    assert Released(p, e.(events := e.events[next := kind]));
  }

  lemma LeaveExits(next: nat, p: Pipe, e: Exits, out: nat)
    requires ExitInv(next, p, e) && out in e.outputs && GateOpen(p, e, out)
    ensures ExitInv(next, p, e.(left := e.left + {out}))
  {
    assert Released(p, e.(left := e.left + {out}));
  }

  lemma AdmitKeeps(s: State, kind: Kind, guest: seq<GuestCall>)
    requires Inv(s)
    ensures Inv(Move(s, Admit(kind, guest)))
  {
    hide Piped, CallInv, FrameInv, ExitInv;
    if Admits(s.js) {
      AdmitExits(s.next, s.pipe, s.exits, kind);
      NextKeepsCalls(s.js, s.next, s.pipe, s.inbox, s.js, s.next + 1);
      GuestKeeps(s.(next := s.next + 1, exits := s.exits.(events := s.exits.events[s.next := kind])), guest);
    }
  }

  lemma DeliverKeeps(s: State, guest: seq<GuestCall>)
    requires Inv(s)
    ensures Inv(Move(s, Deliver(guest)))
  {
    hide Piped, CallInv, FrameInv, ExitInv;
    var i := NextCallback(s.js, s.inbox.pending);
    if i < |s.inbox.pending| {
      ProcessKeepsCalls(s, i);
      GuestKeeps(Process(s, i), guest);
    }
  }

  lemma DisconnectKeeps(s: State, event: nat, guest: seq<GuestCall>)
    requires Inv(s)
    ensures Inv(Move(s, Disconnect(event, guest)))
  {
    hide Piped, CallInv, FrameInv, ExitInv;
    if ToTell(s, event) { GuestKeeps(s.(bodies := s.bodies.(told := s.bodies.told + {event})), guest); }
  }

  lemma LeaveKeeps(s: State, out: nat)
    requires Inv(s)
    ensures Inv(Move(s, Leave(out)))
  {
    hide Piped, CallInv, FrameInv, ExitInv;
    if out in s.exits.outputs && GateOpen(s.pipe, s.exits, out) { LeaveExits(s.next, s.pipe, s.exits, out); }
  }

  lemma MoveKeeps(s: State, a: Action)
    requires Inv(s)
    ensures Inv(Move(s, a))
  {
    hide Piped, CallInv, FrameInv, ExitInv;
    match a
    case Admit(kind, guest) => AdmitKeeps(s, kind, guest);
    case Receive => ReceiveKeeps(s);
    case Deliver(guest) => DeliverKeeps(s, guest);
    case HangUp(_) =>
    case Disconnect(event, guest) => DisconnectKeeps(s, event, guest);
    case Hold(out) => HoldKeeps(s, out);
    case Leave(out) => LeaveKeeps(s, out);
    case GiveUp(_) =>
    case Loop => if s.pipe.sched != [] { LoopKeeps(s); }
    case Serve(reply) => if s.pipe.queue != [] { ServeKeeps(s, reply); }
    case Arrive(id) => ArriveKeeps(s, id);
  }

  lemma {:induction false} MovesKeep(s: State, actions: seq<Action>)
    requires Inv(s)
    ensures Inv(Moves(s, actions))
    decreases |actions|
  {
    if actions != [] {
      MoveKeeps(s, actions[0]);
      MovesKeep(Move(s, actions[0]), actions[1..]);
    }
  }

  /** The invariant of the whole machine: it holds after the constructor and any steps. */
  lemma ReachedKeeps(built: seq<GuestCall>, actions: seq<Action>)
    ensures Inv(Reached(built, actions))
  {
    assert Inv(EMPTY);
    GuestKeeps(EMPTY, built);
    MovesKeep(Guest(EMPTY, built), actions);
  }
}
