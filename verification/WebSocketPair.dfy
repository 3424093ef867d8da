/**
 The sockets of a worker. `Socket` is one of them: early messages stay in it until the
 upgrade gives it a connection; then it moves messages both ways, choosing each time the first
 thing that is ready, in the order of its select. `PairTable` is how the scheduler decides
 which pair of a request gets the connection.
 */
module WebSocketPair {
  import opened Lists
  import opened Options

  type Message = seq<nat>

  datatype End = Client | Server

  datatype Command = Attach | Accept | Send(message: Message) | Close(code: nat)

  /** What goes to the peer. */
  datatype Frame = Message(message: Message) | CloseFrame(code: nat)

  /** What goes to the guest. */
  datatype Event = Received(message: Message) | Failed | Closed(code: nat)

  /** `Early` waits for the connection. */
  datatype Phase =
    | Early(kept: seq<Message>, attached: bool, accepted: bool)
    | Open(accepted: bool)
    | Over

  datatype Upgrade = Pending | Connected | Refused

  /** The world around a socket: the cancellation of its request, how its upgrade went, the
      guest's commands still in the channel, and the peer's messages still in theirs. */
  datatype World = World(cancelled: bool, upgrade: Upgrade, commands: seq<Command>, channelOpen: bool, peer: seq<Event>, peerOpen: bool)

  /** What has come out so far. */
  datatype Outcome = Outcome(wire: seq<Frame>, events: seq<Event>)

  datatype Socket = Socket(end: End, phase: Phase, world: World, outcome: Outcome)

  /** What went in so far: the guest's sends, its close, and all the peer said. */
  datatype Inputs = Inputs(sent: seq<Message>, closed: Option<nat>, said: seq<Event>)

  function Frames(messages: seq<Message>): seq<Frame> {
    if messages == [] then [] else Frames(messages[..|messages| - 1]) + [Frame.Message(messages[|messages| - 1])]
  }

  function Tell(s: Socket, event: Event): Socket {
    s.(outcome := s.outcome.(events := s.outcome.events + [event]))
  }

  function Put(s: Socket, frame: Frame): Socket {
    s.(outcome := s.outcome.(wire := s.outcome.wire + [frame]))
  }

  function Ended(s: Socket, code: nat): Socket { Tell(s, Closed(code)).(phase := Over) }

  function Popped(s: Socket): Socket
    requires s.world.commands != []
  {
    s.(world := s.world.(commands := s.world.commands[1..]))
  }

  /** One turn of the loop before the connection. */
  function PollEarly(s: Socket): Socket
    requires s.phase.Early?
  {
    if s.world.cancelled then Ended(s, 1006)
    else if s.phase.attached && s.world.upgrade.Connected? then
      s.(phase := Open(s.phase.accepted), outcome := s.outcome.(wire := s.outcome.wire + Frames(s.phase.kept)))
    else if s.phase.attached && s.world.upgrade.Refused? then Ended(s, 1006)
    else if s.world.commands != [] then
      match s.world.commands[0]
      case Attach => Popped(s).(phase := s.phase.(attached := true))
      case Accept => Popped(s).(phase := s.phase.(accepted := true))
      case Send(message) => Popped(s).(phase := s.phase.(kept := s.phase.kept + [message]))
      case Close(code) => Ended(Popped(s), code)
    else if !s.world.channelOpen then Ended(s, 1006)
    else s
  }

  /** The code that says, on the wire, that the request was cancelled. */
  function StopCode(end: End): nat { if end.Client? then 1001 else 1011 }

  /** One turn of the loop of a connected socket. */
  function PollOpen(s: Socket): Socket
    requires s.phase.Open?
  {
    if s.world.cancelled then Ended(Put(s, CloseFrame(StopCode(s.end))), 1006)
    else if s.world.commands != [] then
      match s.world.commands[0]
      case Attach => Popped(s)
      case Accept => Popped(s).(phase := Open(true))
      case Send(message) => Put(Popped(s), Frame.Message(message))
      case Close(code) => Ended(Put(Popped(s), CloseFrame(code)), code)
    else if !s.world.channelOpen then s.(phase := Over)
    else if s.phase.accepted && s.world.peer != [] then
      var event := s.world.peer[0];
      var s1 := Tell(s.(world := s.world.(peer := s.world.peer[1..])), event);
      if event.Closed? then s1.(phase := Over) else s1
    else if s.phase.accepted && !s.world.peerOpen then Ended(s, 1006)
    else s
  }

  function Poll(s: Socket): Socket {
    match s.phase
    case Early(_, _, _) => PollEarly(s)
    case Open(_) => PollOpen(s)
    case Over => s
  }

  datatype Step =
    | Turn
    | Order(command: Command)
    | DropChannel
    | Cancel
    | Upgraded(upgrade: Upgrade)
    | PeerSays(event: Event)
    | PeerGone

  /** A close takes the channel out of the scheduler's table: nothing is ordered after it. */
  function Step1(s: Socket, step: Step): Socket {
    match step
    case Turn => Poll(s)
    case Order(command) =>
      if !s.world.channelOpen then s
      else s.(world := s.world.(commands := s.world.commands + [command], channelOpen := !command.Close?))
    case DropChannel => s.(world := s.world.(channelOpen := false))
    case Cancel => s.(world := s.world.(cancelled := true))
    case Upgraded(upgrade) => if s.world.upgrade.Pending? then s.(world := s.world.(upgrade := upgrade)) else s
    case PeerSays(event) => if s.world.peerOpen then s.(world := s.world.(peer := s.world.peer + [event])) else s
    case PeerGone => s.(world := s.world.(peerOpen := false))
  }

  function Note(s: Socket, inputs: Inputs, step: Step): Inputs {
    match step
    case Order(Send(message)) => if s.world.channelOpen then inputs.(sent := inputs.sent + [message]) else inputs
    case Order(Close(code)) => if s.world.channelOpen then inputs.(closed := Some(code)) else inputs
    case PeerSays(event) => if s.world.peerOpen then inputs.(said := inputs.said + [event]) else inputs
    case _ => inputs
  }

  /** How a socket came to its end. */
  datatype Ending = Cancelled | UpgradeRefused | GuestClosed(code: nat) | PeerClosed(code: nat) | PeerLost | ChannelDropped(connected: bool)

  /** How the next turn ends the socket, if it does. */
  function Ends(s: Socket): Option<Ending> {
    if s.phase.Over? then None
    else if s.world.cancelled then Some(Cancelled)
    else if s.phase.Early? && s.phase.attached && !s.world.upgrade.Pending? then
      if s.world.upgrade.Refused? then Some(UpgradeRefused) else None
    else if s.world.commands != [] then
      if s.world.commands[0].Close? then Some(GuestClosed(s.world.commands[0].code)) else None
    else if !s.world.channelOpen then Some(ChannelDropped(s.phase.Open?))
    else if s.phase.Early? || !s.phase.accepted then None
    else if s.world.peer != [] then
      if s.world.peer[0].Closed? then Some(PeerClosed(s.world.peer[0].code)) else None
    else if !s.world.peerOpen then Some(PeerLost)
    else None
  }

  datatype Run = Run(socket: Socket, inputs: Inputs, ending: Option<Ending>)

  function Do(run: Run, step: Step): Run {
    Run(Step1(run.socket, step), Note(run.socket, run.inputs, step),
        if step.Turn? && Ends(run.socket).Some? then Ends(run.socket) else run.ending)
  }

  function DoAll(run: Run, steps: seq<Step>): Run
    decreases |steps|
  {
    if steps == [] then run else DoAll(Do(run, steps[0]), steps[1..])
  }

  const NEW_WORLD := World(false, Pending, [], true, [], true)

  /** The server end of a new pair. */
  const PAIR := Run(Socket(Server, Early([], false, false), NEW_WORLD, Outcome([], [])), Inputs([], None, []), None)

  /** A client socket that has just connected. */
  const CONNECTED := Run(Socket(Client, Open(false), NEW_WORLD, Outcome([], [])), Inputs([], None, []), None)

  // ---- the task in place ----

  /** The socket after `n` turns of its loop. */
  function Polls(s: Socket, n: nat): Socket {
    if n == 0 then s else Poll(Polls(s, n - 1))
  }

  /** What waits for the socket. */
  function Ready(world: World): nat { |world.commands| + |world.peer| }

  /** A turn that changes anything ends the socket, connects it, or takes what waited. */
  lemma Progress(s: Socket)
    requires !s.phase.Over?
    ensures var t := Poll(s);
      t == s || t.phase.Over? || (s.phase.Early? && t.phase.Open?)
      || (s.phase.Early? == t.phase.Early? && Ready(t.world) < Ready(s.world))
  {
  }

  /** A socket task; its environment changes `world` between its runs. */
  class SocketTask {
    const end: End
    var world: World
    var kept: seq<Message>
    var attached: bool
    var accepted: bool
    var connected: bool
    var over: bool
    var wire: seq<Frame>
    var events: seq<Event>

    constructor (end: End)
      ensures View() == if end.Server? then PAIR.socket else CONNECTED.socket
    {
      this.end, world, kept, attached, accepted := end, NEW_WORLD, [], false, false;
      connected, over, wire, events := end.Client?, false, [], [];
    }

    function View(): Socket
      reads this
    {
      Socket(end, if over then Over else if connected then Open(accepted) else Early(kept, attached, accepted),
             world, Outcome(wire, events))
    }

    method End(code: nat)
      modifies `over, `events
      ensures over && events == old(events) + [Closed(code)]
    {
      events := events + [Closed(code)];
      over := true;
    }

    method Pop() returns (command: Command)
      requires world.commands != []
      modifies `world
      ensures command == old(world.commands[0]) && world == old(world).(commands := old(world).commands[1..])
    {
      command := world.commands[0];
      world := world.(commands := world.commands[1..]);
    }

    /** One turn of the loop before the connection; the early messages go out in order. */
    method TurnEarly()
      requires !over && !connected
      modifies this
      ensures View() == Poll(old(View()))
    {
      if world.cancelled {
        End(1006);
      } else if attached && world.upgrade.Connected? {
        Flush();
        connected := true;
      } else if attached && world.upgrade.Refused? {
        End(1006);
      } else if world.commands != [] {
        var command := Pop();
        match command {
          case Attach => attached := true;
          case Accept => accepted := true;
          case Send(message) => kept := kept + [message];
          case Close(code) => End(code);
        }
      } else if !world.channelOpen {
        End(1006);
      }
    }

    method Flush()
      modifies `wire
      ensures wire == old(wire) + Frames(kept)
    {
      var i := 0;
      while i < |kept|
        invariant i <= |kept| && wire == old(wire) + Frames(kept[..i])
      {
        assert kept[..i + 1][..i] == kept[..i];
        Associate(old(wire), Frames(kept[..i]), [Frame.Message(kept[i])]);
        wire := wire + [Frame.Message(kept[i])];
        i := i + 1;
      }
      assert kept[..i] == kept;
    }

    /** One turn of the loop of a connected socket. */
    method TurnOpen()
      requires !over && connected
      modifies this
      ensures View() == Poll(old(View()))
    {
      if world.cancelled {
        wire := wire + [CloseFrame(StopCode(end))];
        End(1006);
      } else if world.commands != [] {
        var command := Pop();
        match command {
          case Attach =>
          case Accept => accepted := true;
          case Send(message) => wire := wire + [Frame.Message(message)];
          case Close(code) =>
            wire := wire + [CloseFrame(code)];
            End(code);
        }
      } else if !world.channelOpen {
        over := true;
      } else if accepted && world.peer != [] {
        var event := world.peer[0];
        world := world.(peer := world.peer[1..]);
        events := events + [event];
        if event.Closed? { over := true; }
      } else if accepted && !world.peerOpen {
        End(1006);
      }
    }

    /** One turn; `idle` when there is nothing more to do. */
    method Turn() returns (idle: bool)
      requires !over
      modifies this
      ensures View() == Poll(old(View()))
      ensures over ==> idle
      ensures idle ==> Poll(View()) == View()
      ensures !idle ==> (connected && !old(connected)) || (connected == old(connected) && Ready(world) < old(Ready(world)))
    {
      var ready, wasOpen := Ready(world), connected;
      Progress(View());
      if connected { TurnOpen(); } else { TurnEarly(); }
      idle := over || (Ready(world) == ready && connected == wasOpen);
    }

    /** The loop, as long as anything is ready: it takes turns of the machine until none
        changes anything more. */
    method Run() returns (ghost turns: nat)
      modifies this
      ensures View() == Polls(old(View()), turns) && Poll(View()) == View()
    {
      turns := 0;
      var idle := over;
      assert over ==> Poll(View()) == View();
      hide Poll;
      while !idle
        invariant View() == Polls(old(View()), turns)
        invariant (over ==> idle) && (idle ==> Poll(View()) == View())
        decreases !idle, !connected, Ready(world)
      {
        idle := Turn();
        turns := turns + 1;
      }
    }
  }

  // ---- what every run keeps ----

  function Sends(commands: seq<Command>): seq<Message> {
    if commands == [] then [] else (if commands[0].Send? then [commands[0].message] else []) + Sends(commands[1..])
  }

  /** The data frames of the connection. */
  function DataOf(wire: seq<Frame>): seq<Message> {
    if wire == [] then []
    else DataOf(wire[..|wire| - 1]) + if wire[|wire| - 1].Message? then [wire[|wire| - 1].message] else []
  }

  function Kept(phase: Phase): seq<Message> { if phase.Early? then phase.kept else [] }

  /** What the socket did with the guest's messages: on the wire, or kept for it. */
  function Handled(s: Socket): seq<Message> { DataOf(s.outcome.wire) + Kept(s.phase) }

  ghost predicate DataInOrder(handled: seq<Message>, rest: seq<Message>, over: bool, sent: seq<Message>) {
    handled <= sent && (!over ==> handled + rest == sent)
  }

  ghost predicate CloseFrameLast(wire: seq<Frame>, over: bool) {
    forall i :: 0 <= i < |wire| && wire[i].CloseFrame? ==> over && i == |wire| - 1
  }

  /** Nothing is lost or reordered before the end, and a close frame is the last frame. */
  ghost predicate WireInOrder(s: Socket, sent: seq<Message>) {
    && DataInOrder(Handled(s), Sends(s.world.commands), s.phase.Over?, sent)
    && CloseFrameLast(s.outcome.wire, s.phase.Over?)
    && (s.phase.Early? ==> s.outcome.wire == [])
  }

  /** The guest hears the peer in order, and a close event is the last event. `own` is
      whether the last event is the socket's and not the peer's. */
  ghost predicate EventsInOrder(s: Socket, said: seq<Event>, own: bool) {
    && (own ==> s.phase.Over? && s.outcome.events != [] && s.outcome.events[|s.outcome.events| - 1].Closed?)
    && (var heard := s.outcome.events[..|s.outcome.events| - if own then 1 else 0]; heard + s.world.peer == said)
    && (forall i :: 0 <= i < |s.outcome.events| && s.outcome.events[i].Closed? ==> s.phase.Over? && i == |s.outcome.events| - 1)
    && (!s.phase.Over? && s.outcome.events != [] ==> s.phase == Open(true))
  }

  lemma {:induction false} SendsAppend(commands: seq<Command>, command: Command)
    ensures Sends(commands + [command]) == Sends(commands) + if command.Send? then [command.message] else []
  {
    if commands == [] {
      assert commands + [command] == [command];
      assert [command][1..] == [];
    } else {
      assert (commands + [command])[1..] == commands[1..] + [command];
      SendsAppend(commands[1..], command);
      Associate(if commands[0].Send? then [commands[0].message] else [], Sends(commands[1..]), if command.Send? then [command.message] else []);
    }
  }

  lemma DataPut(wire: seq<Frame>, frame: Frame)
    ensures DataOf(wire + [frame]) == DataOf(wire) + if frame.Message? then [frame.message] else []
  {
    assert (wire + [frame])[..|wire|] == wire;
  }

  lemma {:induction false} DataFlush(messages: seq<Message>)
    ensures DataOf(Frames(messages)) == messages
    ensures forall i :: 0 <= i < |Frames(messages)| ==> Frames(messages)[i].Message?
  {
    if messages != [] {
      var n := |messages| - 1;
      DataFlush(messages[..n]);
      DataPut(Frames(messages[..n]), Frame.Message(messages[n]));
    }
  }

  lemma OneMore(handled: seq<Message>, message: Message, rest: seq<Message>, sent: seq<Message>)
    requires DataInOrder(handled, [message] + rest, false, sent)
    ensures DataInOrder(handled + [message], rest, false, sent)
  {
    assert handled + ([message] + rest) == handled + [message] + rest;
  }

  lemma NothingMore(messages: seq<Message>)
    ensures messages + [] == messages && [] + messages == messages
  {
  }

  function OpenedWith(s: Socket, wire: seq<Frame>): Socket
    requires s.phase.Early?
  {
    s.(phase := Open(s.phase.accepted), outcome := s.outcome.(wire := wire))
  }

  lemma FlushHandled(s: Socket, wire: seq<Frame>)
    requires s.phase.Early? && s.outcome.wire == [] && DataOf(wire) == s.phase.kept
    ensures Handled(OpenedWith(s, wire)) == Handled(s)
  {
    NothingMore(s.phase.kept);
  }

  lemma EarlyFlush(s: Socket, sent: seq<Message>)
    requires s.phase.Early? && WireInOrder(s, sent) && !s.world.cancelled && s.phase.attached && s.world.upgrade.Connected?
    ensures WireInOrder(PollEarly(s), sent)
  {
    var wire := Frames(s.phase.kept);
    DataFlush(s.phase.kept);
    FlushHandled(s, wire);
    assert PollEarly(s) == OpenedWith(s, wire) by {
      assert s.outcome.wire + wire == wire;
    }
  }

  lemma EarlyKeep(s: Socket, sent: seq<Message>)
    requires s.phase.Early? && WireInOrder(s, sent) && s.world.commands != [] && s.world.commands[0].Send?
    ensures var message := s.world.commands[0].message;
      WireInOrder(Popped(s).(phase := s.phase.(kept := s.phase.kept + [message])), sent)
  {
    var message, rest := s.world.commands[0].message, Sends(s.world.commands[1..]);
    OneMore(Handled(s), message, rest, sent);
    assert DataOf(s.outcome.wire) + s.phase.kept + [message] == DataOf(s.outcome.wire) + (s.phase.kept + [message]);
  }

  /** An end drops what is kept, and no more. */
  lemma EarlyEnd(s: Socket, commands: seq<Command>, code: nat, sent: seq<Message>)
    requires s.phase.Early? && WireInOrder(s, sent)
    ensures WireInOrder(Ended(s.(world := s.world.(commands := commands)), code), sent)
  {
    assert DataOf(s.outcome.wire) == [];
  }

  lemma EarlyWire(s: Socket, sent: seq<Message>)
    requires s.phase.Early? && WireInOrder(s, sent)
    ensures WireInOrder(PollEarly(s), sent)
  {
    forall code: nat, commands ensures WireInOrder(Ended(s.(world := s.world.(commands := commands)), code), sent) {
      EarlyEnd(s, commands, code, sent);
    }
    if s.world.cancelled || (s.phase.attached && s.world.upgrade.Refused?) {
      assert s.(world := s.world.(commands := s.world.commands)) == s;
    } else if s.phase.attached && s.world.upgrade.Connected? {
      EarlyFlush(s, sent);
    } else if s.world.commands != [] {
      if s.world.commands[0].Send? { EarlyKeep(s, sent); }
    } else {
      assert s.(world := s.world.(commands := s.world.commands)) == s;
    }
  }

  lemma PutFrame(s: Socket, frame: Frame)
    requires s.phase.Open?
    ensures Handled(Put(s, frame)) == Handled(s) + if frame.Message? then [frame.message] else []
  {
    DataPut(s.outcome.wire, frame);
    assert DataOf(s.outcome.wire) + [] == DataOf(s.outcome.wire);
    assert DataOf(s.outcome.wire + [frame]) + [] == DataOf(s.outcome.wire + [frame]);
  }

  lemma OpenSend(s: Socket, sent: seq<Message>)
    requires s.phase.Open? && WireInOrder(s, sent) && s.world.commands != [] && s.world.commands[0].Send?
    ensures WireInOrder(Put(Popped(s), Frame.Message(s.world.commands[0].message)), sent)
  {
    var message, rest := s.world.commands[0].message, Sends(s.world.commands[1..]);
    PutFrame(Popped(s), Frame.Message(message));
    OneMore(Handled(s), message, rest, sent);
  }

  lemma OpenEnd(s: Socket, sent: seq<Message>, frame: Frame, code: nat)
    requires s.phase.Open? && WireInOrder(s, sent) && frame.CloseFrame?
    ensures WireInOrder(Ended(Put(s, frame), code), sent)
  {
    PutFrame(s, frame);
  }

  lemma OpenWire(s: Socket, sent: seq<Message>)
    requires s.phase.Open? && WireInOrder(s, sent)
    ensures WireInOrder(PollOpen(s), sent)
  {
    if s.world.cancelled {
      OpenEnd(s, sent, CloseFrame(StopCode(s.end)), 1006);
    } else if s.world.commands != [] {
      match s.world.commands[0]
      case Send(message) => OpenSend(s, sent);
      case Close(code) => OpenEnd(Popped(s), sent, CloseFrame(code), code);
      case _ =>
    }
  }

  lemma OrderWire(s: Socket, command: Command, sent: seq<Message>)
    requires WireInOrder(s, sent)
    ensures var more := if command.Send? then sent + [command.message] else sent;
      WireInOrder(s.(world := s.world.(commands := s.world.commands + [command], channelOpen := !command.Close?)), more)
  {
    SendsAppend(s.world.commands, command);
    if command.Send? {
      assert Handled(s) + (Sends(s.world.commands) + [command.message]) == Handled(s) + Sends(s.world.commands) + [command.message];
    }
  }

  lemma StepWire(run: Run, step: Step)
    requires WireInOrder(run.socket, run.inputs.sent)
    ensures WireInOrder(Do(run, step).socket, Do(run, step).inputs.sent)
  {
    var s := run.socket;
    match step
    case Turn =>
      if s.phase.Early? { EarlyWire(s, run.inputs.sent); }
      if s.phase.Open? { OpenWire(s, run.inputs.sent); }
    case Order(command) => OrderWire(s, command, run.inputs.sent);
    case _ =>
  }

  // ---- events ----

  ghost predicate Heard(s: Socket, said: seq<Event>) { EventsInOrder(s, said, true) || EventsInOrder(s, said, false) }

  lemma TellOwn(s: Socket, said: seq<Event>, code: nat)
    requires EventsInOrder(s, said, false) && !s.phase.Over?
    ensures EventsInOrder(Ended(s, code), said, true)
  {
    var events := s.outcome.events + [Closed(code)];
    assert events[..|events| - 1] == s.outcome.events == s.outcome.events[..|s.outcome.events| - 0];
  }

  lemma HearPeer(s: Socket, said: seq<Event>)
    requires EventsInOrder(s, said, false) && s.phase == Open(true) && s.world.peer != []
    ensures var event := s.world.peer[0];
      EventsInOrder(Tell(s.(world := s.world.(peer := s.world.peer[1..]), phase := if event.Closed? then Over else s.phase), event), said, false)
  {
    var events, event := s.outcome.events, s.world.peer[0];
    assert events[..|events| - 0] == events && (events + [event])[..|events + [event]| - 0] == events + [event];
    assert s.world.peer == [event] + s.world.peer[1..];
    assert events + [event] + s.world.peer[1..] == events + s.world.peer;
  }

  lemma TurnHears(s: Socket, said: seq<Event>)
    requires Heard(s, said)
    ensures Heard(Poll(s), said)
  {
    if !s.phase.Over? {
      assert EventsInOrder(s, said, false);
      forall code: nat ensures EventsInOrder(Ended(s, code), said, true) { TellOwn(s, said, code); }
      if s.phase == Open(true) && s.world.peer != [] { HearPeer(s, said); }
      if s.phase.Early? { EarlyHears(s, said); } else { OpenHears(s, said); }
    }
  }

  /** The socket and what it says to the guest, without the rest. */
  ghost predicate SameTalk(s: Socket, t: Socket) {
    s.outcome.events == t.outcome.events && s.world.peer == t.world.peer && s.phase.Over? == t.phase.Over?
  }

  lemma EarlyHears(s: Socket, said: seq<Event>)
    requires s.phase.Early? && EventsInOrder(s, said, false)
    requires forall code: nat :: EventsInOrder(Ended(s, code), said, true)
    ensures Heard(PollEarly(s), said)
  {
    var t := PollEarly(s);
    if t.phase.Over? {
      var code := t.outcome.events[|t.outcome.events| - 1].code;
      assert SameTalk(t, Ended(s, code));
      assert EventsInOrder(t, said, true);
    } else {
      assert SameTalk(t, s);
      assert s.outcome.events == [];
      assert EventsInOrder(t, said, false);
    }
  }

  lemma OpenHears(s: Socket, said: seq<Event>)
    requires s.phase.Open? && EventsInOrder(s, said, false)
    requires forall code: nat :: EventsInOrder(Ended(s, code), said, true)
    requires s.phase == Open(true) && s.world.peer != [] ==>
      var event := s.world.peer[0];
      EventsInOrder(Tell(s.(world := s.world.(peer := s.world.peer[1..]), phase := if event.Closed? then Over else s.phase), event), said, false)
    ensures Heard(PollOpen(s), said)
  {
    var t := PollOpen(s);
    if s.world.cancelled {
      assert SameTalk(t, Ended(s, 1006));
      assert EventsInOrder(t, said, true);
    } else if s.world.commands != [] {
      if s.world.commands[0].Close? {
        assert SameTalk(t, Ended(s, s.world.commands[0].code));
        assert EventsInOrder(t, said, true);
      } else {
        assert EventsInOrder(t, said, false);
      }
    } else if s.world.channelOpen && s.phase.accepted && s.world.peer == [] && !s.world.peerOpen {
      assert EventsInOrder(t, said, true);
    } else {
      assert EventsInOrder(t, said, false);
    }
  }

  lemma StepHears(run: Run, step: Step)
    requires Heard(run.socket, run.inputs.said)
    ensures Heard(Do(run, step).socket, Do(run, step).inputs.said)
  {
    var s, said := run.socket, run.inputs.said;
    match step
    case Turn => TurnHears(s, said);
    case PeerSays(event) =>
      if s.world.peerOpen {
        forall own | EventsInOrder(s, said, own) ensures EventsInOrder(Do(run, step).socket, said + [event], own) {
          var heard := s.outcome.events[..|s.outcome.events| - if own then 1 else 0];
          assert heard + (s.world.peer + [event]) == heard + s.world.peer + [event];
        }
      }
    case _ =>
      forall own | EventsInOrder(s, said, own) ensures EventsInOrder(Do(run, step).socket, said, own) {}
  }

  lemma {:induction false} RunKeeps(run: Run, steps: seq<Step>)
    requires WireInOrder(run.socket, run.inputs.sent) && Heard(run.socket, run.inputs.said)
    ensures WireInOrder(DoAll(run, steps).socket, DoAll(run, steps).inputs.sent)
    ensures Heard(DoAll(run, steps).socket, DoAll(run, steps).inputs.said)
    decreases |steps|
  {
    if steps != [] {
      StepWire(run, steps[0]);
      StepHears(run, steps[0]);
      RunKeeps(Do(run, steps[0]), steps[1..]);
    }
  }

  predicate Fresh(run: Run) { run == PAIR || run == CONNECTED }

  /** In every run, the frames on the connection are the guest's messages in order, early
      ones included, up to some point, and then at most one close frame, the last frame. */
  lemma TheWireIsAPrefix(run: Run, steps: seq<Step>)
    requires Fresh(run)
    ensures var (s, inputs) := (DoAll(run, steps).socket, DoAll(run, steps).inputs);
      && DataOf(s.outcome.wire) <= inputs.sent
      && forall i :: 0 <= i < |s.outcome.wire| && s.outcome.wire[i].CloseFrame? ==> i == |s.outcome.wire| - 1 && s.phase.Over?
  {
    assert EventsInOrder(run.socket, run.inputs.said, false);
    RunKeeps(run, steps);
  }

  /** And the guest hears what the peer said, in order and nothing else, but for one close event
      of the socket's own; a close event is the last thing it hears. */
  lemma TheGuestHearsAPrefix(run: Run, steps: seq<Step>)
    requires Fresh(run)
    ensures var (s, inputs) := (DoAll(run, steps).socket, DoAll(run, steps).inputs);
      && (s.outcome.events <= inputs.said
          || (s.outcome.events != [] && s.outcome.events[|s.outcome.events| - 1].Closed?
              && s.outcome.events[..|s.outcome.events| - 1] <= inputs.said))
      && (s.outcome.events != [] && !s.phase.Over? ==> s.phase == Open(true))
      && forall i :: 0 <= i < |s.outcome.events| && s.outcome.events[i].Closed? ==> i == |s.outcome.events| - 1 && s.phase.Over?
  {
    assert EventsInOrder(run.socket, run.inputs.said, false);
    RunKeeps(run, steps);
  }

  predicate NoAccept(steps: seq<Step>) { forall i :: 0 <= i < |steps| ==> steps[i] != Order(Accept) }

  ghost predicate Unaccepted(s: Socket) {
    && (forall i :: 0 <= i < |s.world.commands| ==> s.world.commands[i] != Accept)
    && (!s.phase.Over? ==> !s.phase.accepted && s.outcome.events == [])
    && |s.outcome.events| <= 1 && (forall i :: 0 <= i < |s.outcome.events| ==> s.outcome.events[i].Closed?)
  }

  lemma UnacceptedStep(s: Socket, step: Step)
    requires Unaccepted(s) && step != Order(Accept)
    ensures Unaccepted(Step1(s, step))
  {
  }

  lemma {:induction false} UnacceptedRun(run: Run, steps: seq<Step>)
    requires Unaccepted(run.socket) && NoAccept(steps)
    ensures Unaccepted(DoAll(run, steps).socket)
    decreases |steps|
  {
    if steps != [] {
      UnacceptedStep(run.socket, steps[0]);
      UnacceptedRun(Do(run, steps[0]), steps[1..]);
    }
  }

  /** Until the guest accepts, it hears nothing of the peer: whatever the peer says and however
      the socket ends, there is at most one event, a close. */
  lemma NothingBeforeAccept(run: Run, steps: seq<Step>)
    requires Fresh(run) && NoAccept(steps)
    ensures var events := DoAll(run, steps).socket.outcome.events;
      events == [] || (|events| == 1 && events[0].Closed?)
  {
    UnacceptedRun(run, steps);
  }

  /** Once over, a socket does nothing any more. */
  lemma {:induction false} OverIsOver(run: Run, steps: seq<Step>)
    requires run.socket.phase.Over?
    ensures DoAll(run, steps).socket.phase.Over? && DoAll(run, steps).socket.outcome == run.socket.outcome
    decreases |steps|
  {
    if steps != [] { OverIsOver(Do(run, steps[0]), steps[1..]); }
  }

  predicate EndsInClose(events: seq<Event>) { events != [] && events[|events| - 1].Closed? }

  /** The code of the close event that goes with an end. */
  function CodeOf(ending: Ending): nat {
    match ending
    case GuestClosed(code) => code
    case PeerClosed(code) => code
    case _ => 1006
  }

  /** Nothing is queued behind a close, and a socket that has not ended has yet to take it. */
  ghost predicate CloseIsLast(world: World, closed: Option<nat>, over: bool) {
    && (forall i :: 0 <= i < |world.commands| && world.commands[i].Close? ==>
          i == |world.commands| - 1 && closed == Some(world.commands[i].code))
    && (closed.Some? ==> !world.channelOpen)
    && (closed.Some? && !over ==> world.commands != [] && world.commands[|world.commands| - 1] == Close(closed.value))
  }

  ghost predicate EndingTold(run: Run) {
    && (run.socket.phase.Over? <==> run.ending.Some?)
    && (run.ending.None? ==> !EndsInClose(run.socket.outcome.events))
    && (run.ending.Some? && run.ending != Some(ChannelDropped(true)) ==>
          && EndsInClose(run.socket.outcome.events)
          && run.socket.outcome.events[|run.socket.outcome.events| - 1] == Closed(CodeOf(run.ending.value)))
    && (run.ending == Some(ChannelDropped(true)) ==> !EndsInClose(run.socket.outcome.events))
    && (run.ending.Some? && run.ending.value.ChannelDropped? ==> run.inputs.closed.None? && !run.socket.world.channelOpen)
    && (run.ending.Some? && run.ending.value.GuestClosed? ==> run.inputs.closed == Some(run.ending.value.code))
  }

  ghost predicate Closing(run: Run) {
    CloseIsLast(run.socket.world, run.inputs.closed, run.socket.phase.Over?) && EndingTold(run)
  }

  lemma OrderCloses(run: Run, command: Command)
    requires Closing(run)
    ensures Closing(Do(run, Order(command)))
  {
  }

  lemma EarlyCloses(run: Run)
    requires Closing(run) && run.socket.phase.Early?
    ensures Closing(Do(run, Turn))
  {
  }

  lemma OpenCloses(run: Run)
    requires Closing(run) && run.socket.phase.Open?
    ensures Closing(Do(run, Turn))
  {
  }

  lemma TurnCloses(run: Run)
    requires Closing(run)
    ensures Closing(Do(run, Turn))
  {
    if run.socket.phase.Early? { EarlyCloses(run); }
    if run.socket.phase.Open? { OpenCloses(run); }
  }

  lemma {:induction false} RunCloses(run: Run, steps: seq<Step>)
    requires Closing(run)
    ensures Closing(DoAll(run, steps))
    decreases |steps|
  {
    if steps != [] {
      if steps[0].Order? { OrderCloses(run, steps[0].command); }
      if steps[0].Turn? { TurnCloses(run); }
      RunCloses(Do(run, steps[0]), steps[1..]);
    }
  }

  /** The guest is not left waiting: the last thing it hears of a socket that is over is a close
      event with the code of its end, unless the socket was connected and its channel was dropped
      without a close of the guest. Then, and only then, it hears of no end. */
  lemma TheGuestIsTold(run: Run, steps: seq<Step>)
    requires Fresh(run)
    ensures var r := DoAll(run, steps);
      var events := r.socket.outcome.events;
      && (r.socket.phase.Over? <==> r.ending.Some?)
      && (EndsInClose(events) <==> r.ending.Some? && r.ending.value != ChannelDropped(true))
      && (EndsInClose(events) ==> events[|events| - 1] == Closed(CodeOf(r.ending.value)))
      && (r.ending == Some(ChannelDropped(true)) ==> r.inputs.closed.None? && !r.socket.world.channelOpen)
      && (r.ending.Some? && r.ending.value.GuestClosed? ==> r.inputs.closed == Some(r.ending.value.code))
  {
    RunCloses(run, steps);
  }

  // ---- closing ----

  /** The next turn takes a close of the guest out of the channel. A socket whose upgrade is
      decided looks at that first, and a cancelled one at nothing else. */
  predicate TakesClose(s: Socket) {
    && !s.phase.Over? && !s.world.cancelled
    && s.world.commands != [] && s.world.commands[0].Close?
    && (s.phase.Early? && s.phase.attached ==> s.world.upgrade.Pending?)
  }

  lemma TakesIt(s: Socket)
    requires s.world.commands != [] && s.world.commands[0].Close?
    ensures TakesClose(s) <==> Poll(s).world.commands == s.world.commands[1..]
    ensures TakesClose(s) <==> Ends(s) == Some(GuestClosed(s.world.commands[0].code))
    ensures !TakesClose(s) ==> Poll(s).world == s.world
  {
    assert |s.world.commands[1..]| != |s.world.commands|;
  }

  /** All the messages are on the connection, and behind them a close frame with this code. */
  predicate Delivered(wire: seq<Frame>, sent: seq<Message>, code: nat) {
    DataOf(wire) == sent && wire != [] && wire[|wire| - 1] == CloseFrame(code)
  }

  /** A close of the guest, when a turn takes it, has all that the guest sent before it. It
      goes to the peer after all of that exactly if the socket is connected by then; one that
      is not drops every message it kept and sends no frame at all. The guest hears its own
      code either way. */
  lemma CloseComesAfterAll(run: Run, steps: seq<Step>)
    requires Fresh(run) && TakesClose(DoAll(run, steps).socket)
    ensures var (s, inputs) := (DoAll(run, steps).socket, DoAll(run, steps).inputs);
      var (code, t) := (s.world.commands[0].code, Poll(s));
      && inputs.closed == Some(code) && t.phase.Over? && t.world.commands == []
      && t.outcome.events == s.outcome.events + [Closed(code)]
      && (Delivered(t.outcome.wire, inputs.sent, code) <==> s.phase.Open?)
      && (s.phase.Early? ==> s.phase.kept == inputs.sent && t.outcome.wire == [])
  {
    assert EventsInOrder(run.socket, run.inputs.said, false);
    RunKeeps(run, steps);
    RunCloses(run, steps);
    var s := DoAll(run, steps).socket;
    assert s.world.commands[1..] == [];
    hide EventsInOrder, EndingTold, DoAll;
    CloseTaken(s, DoAll(run, steps).inputs.sent);
  }

  lemma CloseTaken(s: Socket, sent: seq<Message>)
    requires TakesClose(s) && WireInOrder(s, sent) && s.world.commands[1..] == []
    ensures var (code, t) := (s.world.commands[0].code, Poll(s));
      && t.phase.Over? && t.world.commands == []
      && t.outcome.events == s.outcome.events + [Closed(code)]
      && (Delivered(t.outcome.wire, sent, code) <==> s.phase.Open?)
      && (s.phase.Early? ==> s.phase.kept == sent && t.outcome.wire == [])
  {
    assert Sends(s.world.commands) == [];
    NothingMore(Kept(s.phase));
    NothingMore(Handled(s));
    DataPut(s.outcome.wire, CloseFrame(s.world.commands[0].code));
  }

  ghost predicate NoAttach(steps: seq<Step>) { forall i :: 0 <= i < |steps| ==> steps[i] != Order(Attach) }

  ghost predicate Unattached(s: Socket) {
    && s.outcome.wire == [] && (s.phase.Over? || (s.phase.Early? && !s.phase.attached))
    && forall i :: 0 <= i < |s.world.commands| ==> !s.world.commands[i].Attach?
  }

  lemma {:induction false} UnattachedRun(run: Run, steps: seq<Step>)
    requires Unattached(run.socket) && (NoAttach(steps) || !run.socket.world.channelOpen)
    ensures Unattached(DoAll(run, steps).socket)
    decreases |steps|
  {
    if steps != [] {
      assert Unattached(Do(run, steps[0]).socket);
      UnattachedRun(Do(run, steps[0]), steps[1..]);
    }
  }

  /** A pair that the guest closes before its response is read has no connection to come: in
      whatever way the run goes on, nothing the guest sent ever goes out. */
  lemma ClosedBeforeTheResponse(steps: seq<Step>, code: nat, later: seq<Step>)
    requires NoAttach(steps)
    ensures DoAll(Do(DoAll(PAIR, steps), Order(Close(code))), later).socket.outcome.wire == []
  {
    UnattachedRun(PAIR, steps);
    UnattachedRun(Do(DoAll(PAIR, steps), Order(Close(code))), later);
  }

  lemma Then(run: Run, step: Step, rest: seq<Step>)
    ensures DoAll(run, [step] + rest) == DoAll(Do(run, step), rest)
  {
    assert ([step] + rest)[1..] == rest;
  }

  const SEND_AND_CLOSE := [Order(Send([7]))] + ([Order(Close(1000))] + ([Turn] + ([Turn] + [])))

  /** A handler that sends a message and closes before it returns: the message is lost. */
  lemma AnEarlyCloseLosesAll()
    ensures DoAll(PAIR, SEND_AND_CLOSE) ==
      Run(Socket(Server, Over, NEW_WORLD.(channelOpen := false), Outcome([], [Closed(1000)])),
          Inputs([[7]], Some(1000), []), Some(GuestClosed(1000)))
  {
    var r1 := Do(PAIR, Order(Send([7])));
    var r2 := Do(r1, Order(Close(1000)));
    var r3 := Do(r2, Turn);
    var r4 := Do(r3, Turn);
    assert r2.socket.world.commands == [Send([7]), Close(1000)];
    assert r3.socket.world.commands == [Close(1000)];
    assert r4.socket.world.commands == [];
    Then(r3, Turn, []);
    Then(r2, Turn, [Turn] + []);
    Then(r1, Order(Close(1000)), [Turn] + ([Turn] + []));
    Then(PAIR, Order(Send([7])), [Order(Close(1000))] + ([Turn] + ([Turn] + [])));
  }

  /** The first argument of the guest's `close`; anything else is refused as no number. */
  datatype Code = Undefined | NotANumber | Infinite | Number(value: real)

  /** The code that reaches the socket, or none when `close` throws. Comparisons with NaN
      are false, and its conversion to sixteen bits is zero. */
  function CloseCode(code: Code): Option<nat> {
    match code
    case Undefined => Some(1000)
    case NotANumber => Some(0)
    case Infinite => None
    case Number(value) =>
      if value == 1000.0 then Some(1000)
      else if value < 3000.0 || value > 4999.0 then None
      else Some(value.Floor)
  }

  /** `close` keeps to the codes a program may send (section 7.4 of RFC 6455), with one
      exception: NaN, which goes out as 0. */
  lemma GuestCodes(code: Code)
    requires CloseCode(code).Some?
    ensures (CloseCode(code).value == 1000 || 3000 <= CloseCode(code).value <= 4999) <==> !code.NotANumber?
    ensures CloseCode(code).value == 0 <==> code.NotANumber?
  {
  }

  /** The host's own close of a socket that nobody accepted uses 1000. */
  ghost predicate FromGuest(code: nat) { exists c :: CloseCode(c) == Some(code) }

  ghost predicate GuestCloses(steps: seq<Step>) {
    forall i :: 0 <= i < |steps| && steps[i].Order? && steps[i].command.Close? ==> FromGuest(steps[i].command.code)
  }

  ghost predicate WireCode(code: nat) { FromGuest(code) || code == 1001 || code == 1011 }

  ghost predicate CommandsCoded(commands: seq<Command>) {
    forall i :: 0 <= i < |commands| && commands[i].Close? ==> FromGuest(commands[i].code)
  }

  ghost predicate WireCoded(wire: seq<Frame>) {
    forall i :: 0 <= i < |wire| && wire[i].CloseFrame? ==> WireCode(wire[i].code)
  }

  ghost predicate Coded(s: Socket) { CommandsCoded(s.world.commands) && WireCoded(s.outcome.wire) }

  lemma MessagesCoded(wire: seq<Frame>, more: seq<Frame>)
    requires WireCoded(wire) && forall i :: 0 <= i < |more| ==> more[i].Message?
    ensures WireCoded(wire + more)
  {
  }

  lemma EarlyCoded(s: Socket)
    requires Coded(s) && s.phase.Early?
    ensures Coded(PollEarly(s))
  {
    DataFlush(s.phase.kept);
    MessagesCoded(s.outcome.wire, Frames(s.phase.kept));
  }

  lemma OpenCoded(s: Socket)
    requires Coded(s) && s.phase.Open?
    ensures Coded(PollOpen(s))
  {
  }

  lemma StepCoded(s: Socket, step: Step)
    requires Coded(s) && (step.Order? && step.command.Close? ==> FromGuest(step.command.code))
    ensures Coded(Step1(s, step))
  {
    if step.Turn? && s.phase.Early? { EarlyCoded(s); }
    if step.Turn? && s.phase.Open? { OpenCoded(s); }
  }

  lemma {:induction false} RunCoded(run: Run, steps: seq<Step>)
    requires Coded(run.socket) && GuestCloses(steps)
    ensures Coded(DoAll(run, steps).socket)
    decreases |steps|
  {
    if steps != [] {
      StepCoded(run.socket, steps[0]);
      RunCoded(Do(run, steps[0]), steps[1..]);
    }
  }

  /** 1006, which the guest hears for a cancelled or a dropped connection, never goes on the
      wire, as section 7.4.1 of RFC 6455 demands. */
  lemma Never1006OnTheWire(run: Run, steps: seq<Step>)
    requires Fresh(run) && GuestCloses(steps)
    ensures CloseFrame(1006) !in DoAll(run, steps).socket.outcome.wire
  {
    RunCoded(run, steps);
    forall c | CloseCode(c).Some? ensures CloseCode(c) != Some(1006) { GuestCodes(c); }
  }

  // ---- which pair gets the connection ----

  /** The scheduler's side of a request: the pairs that a response yet to be read may name, the
      sockets that have a command channel, the pairs of the request, and those
      that were given the connection. */
  datatype Table = Table(pairs: Option<set<nat>>, commands: set<nat>, made: set<nat>, attached: seq<nat>)

  const NEW_TABLE := Table(Some({}), {}, {}, [])

  datatype Notice =
    | NewPair(id: nat)
    | ResponseRead(upgrade: Option<nat>)
    | NewClient(id: nat)
    | CloseSocket(id: nat)
    | NewRequest

  function Paired(t: Table, id: nat): Table {
    if t.pairs.Some? then t.(pairs := Some(t.pairs.value + {id}), commands := t.commands + {id}, made := t.made + {id})
    else t.(made := t.made + {id})
  }

  function Unused(t: Table, upgrade: Option<nat>): set<nat> {
    var all := if t.pairs.Some? then t.pairs.value else {};
    if upgrade.Some? then all - {upgrade.value} else all
  }

  function Attached(t: Table, upgrade: Option<nat>): seq<nat> {
    if upgrade.Some? && t.pairs.Some? && upgrade.value in t.pairs.value && upgrade.value in t.commands
    then t.attached + [upgrade.value] else t.attached
  }

  function Answered(t: Table, upgrade: Option<nat>): Table {
    t.(pairs := None, commands := t.commands - Unused(t, upgrade), attached := Attached(t, upgrade))
  }

  /** Socket ids are never given twice, so a pair and a client socket have a new one. */
  function Handle(t: Table, notice: Notice): Table {
    match notice
    case NewPair(id) => if id in t.made || id in t.commands then t else Paired(t, id)
    case ResponseRead(upgrade) => Answered(t, upgrade)
    case NewClient(id) => if id in t.made then t else t.(commands := t.commands + {id})
    case CloseSocket(id) => t.(commands := t.commands - {id})
    case NewRequest => NEW_TABLE
  }

  function HandleAll(t: Table, notices: seq<Notice>): Table
    decreases |notices|
  {
    if notices == [] then t else HandleAll(Handle(t, notices[0]), notices[1..])
  }

  ghost predicate OnePair(t: Table) {
    && |t.attached| <= 1
    && (t.pairs.Some? ==> t.attached == [] && t.commands * t.made <= t.pairs.value)
    && (t.pairs.None? ==> forall id :: id in t.commands && id in t.made ==> id in t.attached)
  }

  lemma {:induction false} TableKeeps(t: Table, notices: seq<Notice>)
    requires OnePair(t)
    ensures OnePair(HandleAll(t, notices))
    decreases |notices|
  {
    if notices != [] { TableKeeps(Handle(t, notices[0]), notices[1..]); }
  }

  /** Whatever the guest makes, returns and closes, a request attaches at most one pair, none
      before its response was read, and after that no other pair of it has a channel. */
  lemma AtMostOnePairAttached(notices: seq<Notice>)
    ensures var t := HandleAll(NEW_TABLE, notices);
      && |t.attached| <= 1
      && (t.pairs.Some? ==> t.attached == [])
      && (t.pairs.None? ==> forall id :: id in t.commands && id in t.made ==> id in t.attached)
  {
    TableKeeps(NEW_TABLE, notices);
  }

  /** The table in place. */
  class PairTable {
    var pairs: Option<set<nat>>
    var commands: set<nat>
    ghost var made: set<nat>
    var attached: seq<nat>

    ghost function View(): Table
      reads this
    {
      Table(pairs, commands, made, attached)
    }

    method MakePair(id: nat)
      modifies `pairs, `commands, `made
      ensures View() == Paired(old(View()), id)
    {
      if pairs.Some? {
        pairs := Some(pairs.value + {id});
        commands := commands + {id};
      }
      made := made + {id};
    }

    /** The response is read: its pair gets the connection, and the channels of the other
        pairs are dropped one by one, which closes them. */
    method ReadResponse(upgrade: Option<nat>)
      modifies `pairs, `commands, `attached
      ensures View() == Answered(old(View()), upgrade)
    {
      var unused := if pairs.Some? then pairs.value else {};
      pairs := None;
      if upgrade.Some? {
        if upgrade.value in unused && upgrade.value in commands { attached := attached + [upgrade.value]; }
        unused := unused - {upgrade.value};
      }
      DropChannels(unused);
    }

    method DropChannels(unused: set<nat>)
      modifies `commands
      ensures commands == old(commands) - unused
    {
      var left := unused;
      while left != {}
        invariant commands - left == old(commands) - unused
        decreases |left|
      {
        var id :| id in left;
        commands := commands - {id};
        left := left - {id};
      }
    }
  }
}
