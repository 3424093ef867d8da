/**
 A response body on its way to the host: the pump reads the guest's body and writes to a
 bounded channel that keeps one slot for the end, waits for room when it is full, and the
 host reads, leaves or closes the stream at any time.
 */
module ResponseStream {
  type Bytes = seq<nat>

  datatype Chunk = Data(bytes: Bytes) | Done | Error(message: string)

  predicate Terminal(chunk: Chunk) { !chunk.Data? }

  /** `sender` is whether the manager still has the sending side, `taken` whether the host
      took the receiving side out of the manager. */
  datatype Channel = Channel(mark: nat, buffer: seq<Chunk>, sender: bool, receiver: bool, taken: bool)

  function Created(mark: nat): Channel { Channel(mark, [], true, true, false) }

  /** The slot past the mark is for the end of the body. */
  function Free(c: Channel): int { c.mark + 1 - |c.buffer| }

  function TryWrite(c: Channel, chunk: Chunk): (Channel, bool) {
    if !c.sender then (c, false)
    else if !Terminal(chunk) && Free(c) <= 1 then (c, false)
    else if !c.receiver then (c.(sender := false), false)
    else if Free(c) <= 0 then (c, false)
    else (c.(buffer := c.buffer + [chunk]), true)
  }

  /** A receiver that goes drops what it did not read. */
  function Dropped(c: Channel): Channel { c.(receiver := false, buffer := []) }

  function Closed(c: Channel): Channel {
    if c.taken then c.(sender := false) else Dropped(c).(sender := false)
  }

  /** The channel in place. */
  class StreamChannel {
    const mark: nat
    var buffer: seq<Chunk>
    var sender: bool
    var receiver: bool
    var taken: bool

    constructor (mark: nat)
      ensures View() == Created(mark)
    {
      this.mark, buffer, sender, receiver, taken := mark, [], true, true, false;
    }

    ghost function View(): Channel
      reads this
    {
      Channel(mark, buffer, sender, receiver, taken)
    }

    method TryWriteChunk(chunk: Chunk) returns (ok: bool)
      modifies `buffer, `sender
      ensures (View(), ok) == TryWrite(old(View()), chunk)
    {
      if !sender { return false; }
      var capacity := mark + 1 - |buffer|;
      if chunk.Data? && capacity <= 1 { return false; }
      if !receiver {
        sender := false;
        return false;
      }
      if capacity <= 0 { return false; }
      buffer := buffer + [chunk];
      ok := true;
    }

    method CloseStream()
      modifies `buffer, `sender, `receiver
      ensures View() == Closed(old(View()))
    {
      sender := false;
      if !taken {
        receiver := false;
        buffer := [];
      }
    }
  }

  // ---- the pump and the host ----

  /** Where the pump is. `roomy` is whether it comes from a wait that found room. */
  datatype Pump =
    | Reading
    | Writing(chunk: Bytes, roomy: bool)
    | Refused(chunk: Bytes)
    | Waiting(chunk: Bytes)
    | Failing(message: string)
    | Ending(cancelled: bool)
    | Finished

  /** The outcome of the guest's body. */
  datatype Outcome = Unknown | Ended | Threw(message: string) | Cancelled

  /** `produced` are the non-empty chunks the guest's body gave, `written` those the channel
      took, and `received` what the host read. */
  datatype State = State(channel: Channel, pump: Pump, produced: seq<Bytes>, written: seq<Bytes>, outcome: Outcome, received: seq<Chunk>)

  function Start(mark: nat): State { State(Created(mark), Reading, [], [], Unknown, []) }

  datatype Step =
    // the guest's body
    | Gives(chunk: Bytes)
    | Ends
    | Throws(message: string)
    // the pump
    | Write
    | CheckClosed
    | HasRoom
    | WaitCancelled
    | Finish
    // the host
    | TakeReceiver
    | Receive
    | Leave
    | Close

  function DoWrite(s: State): State {
    if !s.pump.Writing? then s
    else
      var (channel, ok) := TryWrite(s.channel, Data(s.pump.chunk));
      if ok then s.(channel := channel, pump := Reading, written := s.written + [s.pump.chunk])
      else s.(channel := channel, pump := Refused(s.pump.chunk))
  }

  /** The wait ends when two slots are free, or when none can come free: no sender,
      no receiver, or a channel that can never have two. */
  predicate WaitOver(c: Channel) { !c.sender || !c.receiver || Free(c) >= 2 || c.mark == 0 }

  function DoFinish(s: State): State {
    match s.pump
    case Failing(message) => s.(channel := TryWrite(s.channel, Error(message)).0, pump := Finished)
    case Ending(_) => s.(channel := TryWrite(s.channel, Done).0, pump := Finished)
    case _ => s
  }

  function Do(s: State, step: Step): State {
    match step
    case Gives(chunk) =>
      if !s.pump.Reading? || chunk == [] then s
      else s.(pump := Writing(chunk, false), produced := s.produced + [chunk])
    case Ends => if s.pump.Reading? then s.(pump := Ending(false), outcome := Ended) else s
    case Throws(message) => if s.pump.Reading? then s.(pump := Failing(message), outcome := Threw(message)) else s
    case Write => DoWrite(s)
    case CheckClosed =>
      if !s.pump.Refused? then s
      else if s.channel.sender then s.(pump := Waiting(s.pump.chunk))
      else s.(pump := Ending(true), outcome := Cancelled)
    case HasRoom =>
      if s.pump.Waiting? && WaitOver(s.channel)
      then s.(pump := Writing(s.pump.chunk, s.channel.sender && s.channel.receiver && Free(s.channel) >= 2)) else s
    case WaitCancelled =>
      if s.pump.Waiting? then s.(channel := Closed(s.channel), pump := Writing(s.pump.chunk, false)) else s
    case Finish => DoFinish(s)
    case TakeReceiver => if s.channel.receiver then s.(channel := s.channel.(taken := true)) else s
    case Receive =>
      if s.channel.receiver && s.channel.buffer != []
      then s.(channel := s.channel.(buffer := s.channel.buffer[1..]), received := s.received + [s.channel.buffer[0]]) else s
    case Leave => s.(channel := Dropped(s.channel))
    case Close => s.(channel := Closed(s.channel))
  }

  function DoAll(s: State, steps: seq<Step>): State
    decreases |steps|
  {
    if steps == [] then s else DoAll(Do(s, steps[0]), steps[1..])
  }

  // ---- what every run keeps ----

  function Chunks(bytes: seq<Bytes>): (r: seq<Chunk>)
    ensures |r| == |bytes|
    ensures forall i :: 0 <= i < |r| ==> r[i] == Data(bytes[i])
  {
    seq(|bytes|, i requires 0 <= i < |bytes| => Data(bytes[i]))
  }

  /** The end that the outcome calls for. */
  function End(outcome: Outcome): seq<Chunk> {
    match outcome
    case Ended => [Done]
    case Threw(message) => [Error(message)]
    case _ => []
  }

  /** All that the body is, for the host. */
  function Whole(s: State): seq<Chunk> { Chunks(s.produced) + End(s.outcome) }

  function InHand(pump: Pump): seq<Bytes> {
    if pump.Writing? || pump.Refused? || pump.Waiting? then [pump.chunk] else []
  }

  /** What the channel took: the written chunks, and the end once it is in. */
  ghost predicate Took(s: State, sent: seq<Chunk>) {
    && (sent == Chunks(s.written) || (s.pump.Finished? && sent == Chunks(s.written) + End(s.outcome)))
    && (s.channel.receiver ==> s.received + s.channel.buffer == sent)
    && (!s.channel.receiver ==> s.received <= sent && s.channel.buffer == [])
  }

  ghost predicate InOrder(s: State) {
    && s.written <= s.produced
    && (!s.outcome.Cancelled? ==> s.produced == s.written + InHand(s.pump))
    && (s.outcome.Cancelled? ==> !s.channel.sender && (s.pump.Finished? || s.pump == Ending(true)))
    && (s.outcome.Unknown? <==> s.pump.Reading? || s.pump.Writing? || s.pump.Refused? || s.pump.Waiting?)
    && (s.pump.Failing? ==> s.outcome == Threw(s.pump.message))
    && (s.pump.Ending? ==> s.outcome == if s.pump.cancelled then Cancelled else Ended)
  }

  ghost predicate Bounded(s: State) {
    && |s.channel.buffer| <= s.channel.mark + (if s.pump.Finished? then 1 else 0)
    && (s.pump.Writing? && s.pump.roomy && s.channel.sender && s.channel.receiver ==> Free(s.channel) >= 2)
  }

  ghost predicate Inv(s: State) {
    InOrder(s) && Bounded(s) && exists sent :: Took(s, sent)
  }

  lemma WriteKeeps(s: State)
    requires Inv(s)
    ensures Inv(DoWrite(s))
  {
    var sent :| Took(s, sent);
    if s.pump.Writing? && TryWrite(s.channel, Data(s.pump.chunk)).1 {
      var more := sent + [Data(s.pump.chunk)];
      assert Chunks(s.written + [s.pump.chunk]) == Chunks(s.written) + [Data(s.pump.chunk)];
      assert s.received + (s.channel.buffer + [Data(s.pump.chunk)]) == more;
      assert Took(DoWrite(s), more);
    } else {
      assert Took(DoWrite(s), sent);
    }
  }

  /** The end always has its slot: whatever was refused before, it goes in while both sides
      of the channel are there. */
  lemma TheEndFits(s: State)
    requires Inv(s) && (s.pump.Ending? || s.pump.Failing?) && s.channel.sender && s.channel.receiver
    ensures DoFinish(s).channel.buffer == s.channel.buffer + End(s.outcome)
  {
  }

  lemma FinishKeeps(s: State)
    requires Inv(s)
    ensures Inv(DoFinish(s))
  {
    var sent :| Took(s, sent);
    if (s.pump.Ending? || s.pump.Failing?) && s.channel.sender && s.channel.receiver {
      var more := sent + End(s.outcome);
      assert s.received + (s.channel.buffer + End(s.outcome)) == more;
      assert Took(DoFinish(s), more);
    } else {
      assert Took(DoFinish(s), sent);
    }
  }

  lemma ReceiveKeeps(s: State)
    requires Inv(s)
    ensures Inv(Do(s, Receive))
  {
    var sent :| Took(s, sent);
    if s.channel.receiver && s.channel.buffer != [] {
      assert s.channel.buffer == [s.channel.buffer[0]] + s.channel.buffer[1..];
      assert (s.received + [s.channel.buffer[0]]) + s.channel.buffer[1..] == s.received + s.channel.buffer;
    }
    assert Took(Do(s, Receive), sent);
  }

  lemma StepKeeps(s: State, step: Step)
    requires Inv(s)
    ensures Inv(Do(s, step))
  {
    match step
    case Write => WriteKeeps(s);
    case Finish => FinishKeeps(s);
    case Receive => ReceiveKeeps(s);
    case _ =>
      var sent :| Took(s, sent);
      assert Took(Do(s, step), sent);
  }

  lemma {:induction false} RunKeeps(s: State, steps: seq<Step>)
    requires Inv(s)
    ensures Inv(DoAll(s, steps))
    decreases |steps|
  {
    if steps != [] {
      StepKeeps(s, steps[0]);
      RunKeeps(Do(s, steps[0]), steps[1..]);
    }
  }

  lemma StartKeeps(mark: nat)
    ensures Inv(Start(mark))
  {
    assert Took(Start(mark), []);
  }

  /** What the host receives is an unbroken beginning of the guest's chunks and their end:
      Done only after all of them when the body ended, an error only after all of them when
      it threw, and neither for a stream that was closed. The buffer never holds more data
      than the mark. */
  lemma TheHostReadsThePrefix(mark: nat, steps: seq<Step>)
    ensures var s := DoAll(Start(mark), steps);
      && s.received <= Whole(s)
      && (Done in s.received ==> s.outcome.Ended? && s.received == Whole(s))
      && (forall message :: Error(message) in s.received ==> s.outcome == Threw(message) && s.received == Whole(s))
      && (!s.pump.Finished? ==> |s.channel.buffer| <= mark)
  {
    StartKeeps(mark);
    RunKeeps(Start(mark), steps);
    MarkStays(Start(mark), steps);
    var s := DoAll(Start(mark), steps);
    var sent :| Took(s, sent);
    assert Chunks(s.written) <= Chunks(s.produced);
    if s.pump.Finished? && sent == Chunks(s.written) + End(s.outcome) {
      assert s.outcome.Cancelled? ==> sent == Chunks(s.written);
    }
    assert s.received <= sent;
    assert sent <= Whole(s);
    LastIsTheEnd(s);
  }

  lemma LastIsTheEnd(s: State)
    requires s.received <= Whole(s)
    ensures forall chunk :: chunk in s.received && Terminal(chunk) ==> [chunk] == End(s.outcome) && s.received == Whole(s)
  {
    var whole := Whole(s);
    forall chunk | chunk in s.received && Terminal(chunk) ensures [chunk] == End(s.outcome) && s.received == whole {
      var i :| 0 <= i < |s.received| && s.received[i] == chunk;
      assert whole[i] == chunk;
      assert i == |whole| - 1;
    }
  }

  lemma {:induction false} MarkStays(s: State, steps: seq<Step>)
    ensures DoAll(s, steps).channel.mark == s.channel.mark
    decreases |steps|
  {
    if steps != [] { MarkStays(Do(s, steps[0]), steps[1..]); }
  }

  /** A write retried after a wait that found room succeeds, however much the host read in
      between, as long as the stream is open. */
  lemma TheRetrySucceeds(mark: nat, steps: seq<Step>)
    requires var s := DoAll(Start(mark), steps); s.pump.Writing? && s.pump.roomy && s.channel.sender && s.channel.receiver
    ensures var s := DoAll(Start(mark), steps); DoWrite(s).pump.Reading? && DoWrite(s).written == s.written + [s.pump.chunk]
  {
    StartKeeps(mark);
    RunKeeps(Start(mark), steps);
  }

  /** A mark of zero has no room for data: no chunk is ever written. Any other mark takes a
      chunk exactly when it has fewer than that many in its buffer. */
  lemma WritesWithinTheMark(c: Channel, bytes: Bytes)
    ensures TryWrite(c, Data(bytes)).1 <==> c.sender && c.receiver && |c.buffer| < c.mark
  {
  }
}
