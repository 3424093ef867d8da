/**
 Both gates of a Durable Object as one state machine: the counters of durable_object.js, the
 scheduler channel, the object queue, the callback channel and `pending`. Guest code is any
 list of calls, and the host answers anything. A step of the queue takes its work when the
 host has answered it, so the op under way is the first of `queue`.
 */
module ObjectGates {
  import opened Options
  import opened Storage
  import opened ObjectQueue

  const MAX_BACKLOG := 32 * 1024 * 1024
  const MAX_WAITING_FRAMES := 64 * 1024 * 1024

  /** What can leave the object. */
  datatype Kind =
    | Response | AlarmOutcome | BodyChunk
    | Fetch | BindingFetch | BindingWorker | BindingDurableObject
    | BindingKv | BindingStorage | BindingDatabase | BindingD1 | BindingInvoke
    | WebSocketConnect | WebSocketSend | WebSocketClose

  /** Held in the object until its gate opens. The others are messages of the guest. */
  predicate Held(kind: Kind) {
    kind.Response? || kind.AlarmOutcome? || kind.BodyChunk?
  }

  predicate Gated(kind: Kind) {
    Held(kind) || kind.Fetch? || kind.BindingFetch? || kind.BindingWorker? || kind.BindingDurableObject?
  }

  datatype Msg =
    | ObjectStorage(call: Call)
    | ObjectSocket(frame: Frame)
    | OutputBarrier(out: nat)
    | Outbound(out: nat, kind: Kind)

  datatype Callback =
    | StorageDone(call: Call, result: StorageResult)
    | Other(id: nat)

  /** An output of the guest. `since`: the messages it had made by then. */
  datatype Output = Output(kind: Kind, since: nat)

  /** The variables of durable_object.js. */
  datatype Js = Js(blocked: int, failure: bool, readCount: int, backlog: int)

  /** The scheduler channel and the queue task, with what went through them. */
  datatype Pipe = Pipe(sched: seq<Msg>, started: bool, queue: seq<Work>, progress: Progress,
                       made: seq<Msg>, taken: seq<Msg>, ended: seq<Work>, replies: seq<StorageResult>)

  /** The callback channel, what waits behind the input gate, and the storage ops delivered. */
  datatype Inbox = Inbox(callbacks: seq<Callback>, pending: seq<Callback>, delivered: seq<Call>)

  /** The events taken and their outputs. `free`: outputs that met no queue. */
  datatype Exits = Exits(events: map<nat, Kind>, outputs: map<nat, Output>, held: set<nat>, free: set<nat>, left: set<nat>)

  /** What becomes of the events: whose handler and whose body are over, whose client hung
      up, who was given up behind a shut gate, and who was told of its client. */
  datatype Bodies = Bodies(done: set<nat>, streamed: set<nat>, hungUp: set<nat>, given: set<nat>, told: set<nat>)

  /** `frames`: the bytes of the frames that wait. */
  datatype State = State(js: Js, frames: int, next: nat, pipe: Pipe, inbox: Inbox, exits: Exits, bodies: Bodies)

  const EMPTY := State(Js(0, false, 0, 0), 0, 0, Pipe([], false, [], START, [], [], [], []),
                       Inbox([], [], []), Exits(map[], map[], {}, {}, {}), Bodies({}, {}, {}, {}, {}))

  // ---- the guest ----

  datatype GuestCall =
    | GetKeys(keys: seq<Key>)
    | ListEntries(list: StorageOp)
    | ReadAlarm
    | Sync
    | WriteEntries(puts: seq<(Key, Blob)>, deletes: seq<Key>, deleteAll: bool)
    | SetAlarmAt(at: Option<int>)
    | SendFrame(bytes: nat)
    | TellSocket
    | Respond(event: nat, streams: bool)
    | EndBody(event: nat)
    | EndHandler(event: nat)
    | WriteChunk
    | CallOut(kind: Kind)
    | Block
    | Unblock(ok: bool)

  function Send(p: Pipe, msg: Msg): Pipe {
    p.(sched := p.sched + [msg], made := p.made + [msg])
  }

  /** Past the backlog limit `call` refuses what would add keys or values to it. */
  predicate Refused(js: Js, op: StorageOp) {
    js.backlog >= MAX_BACKLOG && (op.Write? || (op.Get? && |op.keys| > 0))
  }

  function StorageCall(s: State, op: StorageOp, input: bool): State {
    if Refused(s.js, op) then s
    else s.(
      pipe := Send(s.pipe, ObjectStorage(Call(s.next, op, input))),
      next := s.next + 1,
      js := s.js.(backlog := s.js.backlog + OpBytes(op),
                  readCount := s.js.readCount + if input then 1 else 0))
  }

  function AddOutput(e: Exits, out: nat, kind: Kind, since: nat): Exits {
    e.(outputs := e.outputs[out := Output(kind, since)])
  }

  function GuestStep(s: State, g: GuestCall): State {
    match g
    case GetKeys(keys) => StorageCall(s, Get(keys), true)
    case ListEntries(list) => if list.List? then StorageCall(s, list, true) else s
    case ReadAlarm => StorageCall(s, GetAlarm, true)
    case Sync => StorageCall(s, Get([]), false)
    case WriteEntries(puts, deletes, deleteAll) => StorageCall(s, Write(puts, deletes, deleteAll), false)
    case SetAlarmAt(at) => StorageCall(s, SetAlarm(at), false)
    case SendFrame(bytes) =>
      if s.frames >= MAX_WAITING_FRAMES then s
      else s.(pipe := Send(s.pipe, ObjectSocket(Frame(s.next, bytes))), next := s.next + 1, frames := s.frames + bytes)
    case TellSocket =>
      // accepting, closing and the attachment: no bytes are counted and no limit is asked
      s.(pipe := Send(s.pipe, ObjectSocket(Frame(s.next, 0))), next := s.next + 1)
    case Respond(event, streams) =>
      // a body that does not stream is over with the response
      if event in s.exits.events && event !in s.exits.outputs
      then s.(exits := AddOutput(s.exits, event, s.exits.events[event], |s.pipe.made|),
              bodies := if streams then s.bodies else s.bodies.(streamed := s.bodies.streamed + {event}))
      else s
    case EndBody(event) => s.(bodies := s.bodies.(streamed := s.bodies.streamed + {event}))
    case EndHandler(event) => s.(bodies := s.bodies.(done := s.bodies.done + {event}))
    case WriteChunk =>
      s.(next := s.next + 1, exits := AddOutput(s.exits, s.next, BodyChunk, |s.pipe.made|))
    case CallOut(kind) =>
      if Held(kind) then s
      else s.(pipe := Send(s.pipe, Outbound(s.next, kind)), next := s.next + 1,
              exits := AddOutput(s.exits, s.next, kind, |s.pipe.made|))
    case Block => s.(js := s.js.(blocked := s.js.blocked + 1))
    case Unblock(ok) => s.(js := s.js.(blocked := s.js.blocked - 1, failure := s.js.failure || !ok))
  }

  function Guest(s: State, calls: seq<GuestCall>): State
    decreases |calls|
  {
    if calls == [] then s else Guest(GuestStep(s, calls[0]), calls[1..])
  }

  // ---- the steps of the object, the scheduler and the queue task ----

  /** `gate`: the object is broken before it is blocked or reading. */
  predicate Reading(js: Js) { !js.failure && js.readCount > 0 }

  predicate Admits(js: Js) { !js.failure && js.blocked <= 0 && js.readCount <= 0 }

  function FirstStorage(pending: seq<Callback>): (i: nat)
    ensures i <= |pending|
    ensures i < |pending| ==> pending[i].StorageDone?
    ensures forall j :: 0 <= j < i ==> pending[j].Other?
  {
    if pending == [] || pending[0].StorageDone? then 0 else 1 + FirstStorage(pending[1..])
  }

  /** The callback `drain_gated` takes next: its index, or the length if there is none. */
  function NextCallback(js: Js, pending: seq<Callback>): (i: nat)
    ensures i <= |pending|
    ensures forall j :: 0 <= j < i ==> pending[j].Other?
    ensures i < |pending| && Reading(js) ==> pending[i].StorageDone?
  {
    if Reading(js) then FirstStorage(pending) else 0
  }

  function Without(pending: seq<Callback>, i: nat): seq<Callback>
    requires i < |pending|
  {
    pending[..i] + pending[i + 1..]
  }

  /** The reactions of a storage promise: `ended`, `open`, and the `catch` of a write. */
  function Settle(js: Js, call: Call, result: StorageResult): Js {
    js.(backlog := js.backlog - OpBytes(call.op),
        readCount := js.readCount - (if call.input then 1 else 0),
        failure := js.failure || (Writes(call.op) && result.Error?))
  }

  /** Runs the callback at `i` of `pending`, without the guest code that follows it. */
  function Process(s: State, i: nat): State
    requires i < |s.inbox.pending|
  {
    var rest := s.inbox.(pending := Without(s.inbox.pending, i));
    match s.inbox.pending[i]
    case StorageDone(call, result) =>
      s.(js := Settle(s.js, call, result), inbox := rest.(delivered := rest.delivered + [call]))
    case Other(_) => s.(inbox := rest)
  }

  predicate GateOpen(p: Pipe, e: Exits, out: nat) {
    out in e.free || out in p.progress.unlocked
  }

  /** The caller of an event waits no more: its answer has left, or was given up. */
  predicate Answered(s: State, event: nat) {
    event in s.exits.left || event in s.bodies.given
  }

  /** A fetch whose caller is answered, whose body still streams and whose client hung up,
      and whose guest does not know it yet. */
  predicate ToTell(s: State, event: nat) {
    && event in s.exits.events && s.exits.events[event].Response?
    && Answered(s, event)
    && event !in s.bodies.streamed && event in s.bodies.hungUp && event !in s.bodies.told
  }

  /** `answer` looks at the gate before its first event only, so `Leave`, `GiveUp` and
      `Disconnect` do not ask whether the object is broken. */
  datatype Action =
    | Admit(kind: Kind, guest: seq<GuestCall>)
    | Receive
    | Deliver(guest: seq<GuestCall>)
    | HangUp(event: nat)
    | Disconnect(event: nat, guest: seq<GuestCall>)
    | Hold(out: nat)
    | Leave(out: nat)
    | GiveUp(out: nat)
    | Loop
    | Serve(reply: StorageResult)
    | Arrive(id: nat)

  /** What the event loop queues for a message: a barrier only behind other work. */
  function GateOf(msg: Msg, started: bool): seq<Work> {
    match msg
    case ObjectStorage(call) => [Stored(call)]
    case ObjectSocket(frame) => [Socket(frame)]
    case OutputBarrier(out) => if started then [Barrier(out)] else []
    case Outbound(out, kind) => if Gated(kind) && started then [Barrier(out)] else []
  }

  function TakePipe(p: Pipe): Pipe
    requires p.sched != []
  {
    var works := GateOf(p.sched[0], p.started);
    p.(sched := p.sched[1..], taken := p.taken + [p.sched[0]],
       queue := p.queue + works, started := p.started || works != [])
  }

  function TakeExits(e: Exits, msg: Msg, started: bool): Exits {
    match msg
    case OutputBarrier(out) => if started then e else e.(free := e.free + {out})
    case Outbound(out, kind) =>
      if !Gated(kind) then e.(left := e.left + {out})
      else if started then e else e.(free := e.free + {out})
    case _ => e
  }

  function ServePipe(p: Pipe, reply: StorageResult): Pipe
    requires p.queue != []
  {
    p.(queue := p.queue[1..], progress := Step(p.progress, p.queue[0], reply),
       ended := p.ended + [p.queue[0]], replies := p.replies + [reply])
  }

  function AnswerOf(p: Pipe, reply: StorageResult): seq<Callback>
    requires p.queue != []
  {
    match p.queue[0]
    case Stored(call) => [StorageDone(call, if p.progress.failed then Error(STORAGE_FAILED) else reply)]
    case _ => []
  }

  function WorkBytes(work: Work): nat {
    if work.Socket? then work.frame.bytes else 0
  }

  function Move(s: State, a: Action): State {
    match a
    case Admit(kind, guest) =>
      if !Admits(s.js) then s
      else Guest(s.(next := s.next + 1, exits := s.exits.(events := s.exits.events[s.next := kind])), guest)
    case Receive => s.(inbox := s.inbox.(pending := s.inbox.pending + s.inbox.callbacks, callbacks := []))
    case Deliver(guest) =>
      var i := NextCallback(s.js, s.inbox.pending);
      if i == |s.inbox.pending| then s else Guest(Process(s, i), guest)
    case HangUp(event) => s.(bodies := s.bodies.(hungUp := s.bodies.hungUp + {event}))
    case Disconnect(event, guest) =>
      if ToTell(s, event) then Guest(s.(bodies := s.bodies.(told := s.bodies.told + {event})), guest) else s
    case Hold(out) =>
      if out in s.exits.outputs && Held(s.exits.outputs[out].kind) && out !in s.exits.held
      then s.(pipe := Send(s.pipe, OutputBarrier(out)), exits := s.exits.(held := s.exits.held + {out}))
      else s
    case Leave(out) =>
      if out in s.exits.outputs && GateOpen(s.pipe, s.exits, out)
      then s.(exits := s.exits.(left := s.exits.left + {out}))
      else s
    case GiveUp(out) =>
      if out in s.exits.held && out in s.pipe.progress.shut
      then s.(bodies := s.bodies.(given := s.bodies.given + {out}))
      else s
    case Loop =>
      if s.pipe.sched == [] then s
      else s.(pipe := TakePipe(s.pipe), exits := TakeExits(s.exits, s.pipe.sched[0], s.pipe.started))
    case Serve(reply) =>
      if s.pipe.queue == [] then s
      else s.(pipe := ServePipe(s.pipe, reply),
              inbox := s.inbox.(callbacks := s.inbox.callbacks + AnswerOf(s.pipe, reply)),
              frames := s.frames - WorkBytes(s.pipe.queue[0]))
    case Arrive(id) => s.(inbox := s.inbox.(callbacks := s.inbox.callbacks + [Other(id)]))
  }

  function Moves(s: State, actions: seq<Action>): State
    decreases |actions|
  {
    if actions == [] then s else Moves(Move(s, actions[0]), actions[1..])
  }

  /** The object after its constructor and any steps. */
  function Reached(built: seq<GuestCall>, actions: seq<Action>): State {
    Moves(Guest(EMPTY, built), actions)
  }

  // ---- what every step keeps: the pipeline ----

  /** Everything the event loop ever queued for the messages it took. */
  function Queued(taken: seq<Msg>): seq<Work> {
    if taken == [] then []
    else
      var before := Queued(taken[..|taken| - 1]);
      before + GateOf(taken[|taken| - 1], before != [])
  }

  function CallsOfMsgs(msgs: seq<Msg>): seq<Call> {
    if msgs == [] then []
    else (if msgs[0].ObjectStorage? then [msgs[0].call] else []) + CallsOfMsgs(msgs[1..])
  }

  function CallsOfCallbacks(callbacks: seq<Callback>): seq<Call> {
    if callbacks == [] then []
    else (if callbacks[0].StorageDone? then [callbacks[0].call] else []) + CallsOfCallbacks(callbacks[1..])
  }

  /** The storage ops on their way, the one that ends first in front. */
  function Unended(p: Pipe, inbox: Inbox): seq<Call> {
    CallsOfCallbacks(inbox.pending) + CallsOfCallbacks(inbox.callbacks) + CallsOf(p.queue) + CallsOfMsgs(p.sched)
  }

  function CountInput(calls: seq<Call>): nat {
    if calls == [] then 0 else (if calls[0].input then 1 else 0) + CountInput(calls[1..])
  }

  function SumBytes(calls: seq<Call>): nat {
    if calls == [] then 0 else OpBytes(calls[0].op) + SumBytes(calls[1..])
  }

  function LargestOp(calls: seq<Call>): nat {
    if calls == [] then 0
    else
      var rest := LargestOp(calls[1..]);
      if OpBytes(calls[0].op) > rest then OpBytes(calls[0].op) else rest
  }

  function FrameBytes(works: seq<Work>): nat {
    if works == [] then 0 else (if works[0].Socket? then works[0].frame.bytes else 0) + FrameBytes(works[1..])
  }

  function FrameBytesOfMsgs(msgs: seq<Msg>): nat {
    if msgs == [] then 0 else (if msgs[0].ObjectSocket? then msgs[0].frame.bytes else 0) + FrameBytesOfMsgs(msgs[1..])
  }

  function LargestFrame(msgs: seq<Msg>): nat {
    if msgs == [] then 0
    else
      var rest := LargestFrame(msgs[1..]);
      if msgs[0].ObjectSocket? && msgs[0].frame.bytes > rest then msgs[0].frame.bytes else rest
  }

  /** The channels lose and reorder nothing, and the queue task is where its work puts it. */
  ghost predicate Piped(p: Pipe) {
    && p.made == p.taken + p.sched
    && Queued(p.taken) == p.ended + p.queue
    && (p.started <==> Queued(p.taken) != [])
    && Progressed(p.ended, p.replies, p.progress)
  }

  ghost predicate Progressed(ended: seq<Work>, replies: seq<StorageResult>, progress: Progress) {
    |ended| == |replies| && progress == Run(ended, replies)
  }

  /** Every storage op the guest made is delivered or on its way, once, in the order made. */
  ghost predicate Ordered(made: seq<Call>, delivered: seq<Call>, unended: seq<Call>) {
    made == delivered + unended
  }

  ghost predicate Counted(js: Js, unended: seq<Call>) {
    && js.readCount == CountInput(unended)
    && js.backlog == SumBytes(unended)
  }

  ghost predicate FramesCounted(frames: int, queue: seq<Work>, sched: seq<Msg>) {
    frames == FrameBytes(queue) + FrameBytesOfMsgs(sched)
  }

  ghost predicate BacklogBounded(js: Js, made: seq<Call>) {
    js.backlog < MAX_BACKLOG + LargestOp(made)
  }

  ghost predicate FramesBounded(frames: int, made: seq<Msg>) {
    frames < MAX_WAITING_FRAMES + LargestFrame(made)
  }

  predicate IsOut(msg: Msg) { msg.OutputBarrier? || msg.Outbound? }

  /** A message for an output comes after everything the guest made before the output. */
  ghost predicate Announced(made: seq<Msg>, outputs: map<nat, Output>) {
    forall j :: 0 <= j < |made| && IsOut(made[j]) ==>
      && made[j].out in outputs
      && outputs[made[j].out].since <= j
      && (made[j].Outbound? ==> outputs[made[j].out].kind == made[j].kind)
  }

  ghost predicate Numbered(next: nat, length: nat, e: Exits) {
    && (forall out :: out in e.outputs ==> out < next && e.outputs[out].since <= length)
    && (forall event :: event in e.events ==> event < next)
    && (forall out :: out in e.held ==> out in e.outputs)
  }

  /** An output that met no queue was taken before any storage or socket op. */
  ghost predicate FreeBefore(taken: seq<Msg>, out: nat) {
    exists j :: 0 <= j < |taken| && IsOut(taken[j]) && taken[j].out == out && Queued(taken[..j]) == []
  }

  ghost predicate FreedEarly(taken: seq<Msg>, free: set<nat>) {
    forall out :: out in free ==> FreeBefore(taken, out)
  }

  predicate IsGated(msg: Msg) {
    msg.OutputBarrier? || (msg.Outbound? && Gated(msg.kind))
  }

  /** And every output that met no queue is free. */
  ghost predicate FreedAll(taken: seq<Msg>, free: set<nat>) {
    forall j :: 0 <= j < |taken| && IsGated(taken[j]) && Queued(taken[..j]) == [] ==> taken[j].out in free
  }

  ghost predicate Released(p: Pipe, e: Exits) {
    forall out :: out in e.left ==> out in e.outputs && (Gated(e.outputs[out].kind) ==> GateOpen(p, e, out))
  }

  /** A later storage op has a larger id. */
  ghost predicate Fresh(calls: seq<Call>, next: nat) {
    && (forall i :: 0 <= i < |calls| ==> calls[i].id < next)
    && (forall i, j :: 0 <= i < j < |calls| ==> calls[i].id < calls[j].id)
  }

  /** The storage ops: none is lost, and the counters of the guest are right. */
  ghost predicate CallInv(js: Js, next: nat, p: Pipe, inbox: Inbox) {
    var unended := Unended(p, inbox);
    var made := CallsOfMsgs(p.made);
    && Ordered(made, inbox.delivered, unended)
    && Counted(js, unended)
    && BacklogBounded(js, made)
    && Fresh(made, next)
  }

  ghost predicate FrameInv(frames: int, p: Pipe) {
    FramesCounted(frames, p.queue, p.sched) && FramesBounded(frames, p.made)
  }

  /** The outputs: what left had its gate open. */
  ghost predicate ExitInv(next: nat, p: Pipe, e: Exits) {
    && Announced(p.made, e.outputs)
    && Numbered(next, |p.made|, e)
    && FreedEarly(p.taken, e.free)
    && FreedAll(p.taken, e.free)
    && Released(p, e)
  }

  ghost predicate Inv(s: State) {
    && Piped(s.pipe)
    && CallInv(s.js, s.next, s.pipe, s.inbox)
    && FrameInv(s.frames, s.pipe)
    && ExitInv(s.next, s.pipe, s.exits)
  }
}
