/**
 The guest's callbacks that wait for answers, over the requests that a reused context serves:
 one counter numbers them, an answer takes what it settles out of the tables, and a reset
 clears the tables but not the counter. Answers may come late, twice or never.
 */
module Callbacks {
  import opened Options

  /** A guest function, by the request that registered it. */
  datatype Callee = Callee(request: nat, id: nat)

  datatype Tables = Tables(next: nat, fetch: map<nat, Callee>, fetchError: map<nat, Callee>, stream: map<nat, Callee>)

  datatype Message =
    | FetchError(id: nat)
    | FetchSuccess(id: nat)
    | BindingUpgrade(id: nat)
    | Settled(id: nat, failed: bool)
    | StreamChunk(id: nat)

  datatype Side = Resolve | Reject | Chunk

  /** A call of a guest function: during which request, and whether it threw. */
  datatype Call = Call(callee: Callee, side: Side, during: nat, threw: bool)

  datatype State = State(tables: Tables, request: nat, calls: seq<Call>)

  const EMPTY := State(Tables(0, map[], map[], map[]), 0, [])

  datatype Step =
    | RegisterPair
    | RegisterStream
    | Answer(message: Message, throws: bool)
    | Reset

  function Without(m: map<nat, Callee>, id: nat): map<nat, Callee> { m - {id} }

  function Taken(t: Tables, id: nat): Tables {
    t.(fetch := Without(t.fetch, id), fetchError := Without(t.fetchError, id))
  }

  function One(m: map<nat, Callee>, id: nat, side: Side, during: nat, threw: bool): seq<Call> {
    if id in m then [Call(m[id], side, during, threw)] else []
  }

  /** The calls that settle a pair with a value: the resolve, and the reject as well when the
      resolve threw. */
  function Resolving(t: Tables, id: nat, during: nat, throws: bool): seq<Call> {
    if id !in t.fetch then []
    else One(t.fetch, id, Resolve, during, throws) + if throws then One(t.fetchError, id, Reject, during, false) else []
  }

  function CallsFor(t: Tables, message: Message, during: nat, throws: bool): seq<Call> {
    match message
    case FetchError(id) => One(t.fetchError, id, Reject, during, throws)
    case FetchSuccess(id) => Resolving(t, id, during, throws)
    case BindingUpgrade(id) => One(t.fetch, id, Resolve, during, throws)
    case Settled(id, failed) => if failed then One(t.fetchError, id, Reject, during, throws) else Resolving(t, id, during, throws)
    case StreamChunk(id) => One(t.stream, id, Chunk, during, throws)
  }

  function After(t: Tables, message: Message): Tables {
    if message.StreamChunk? then t.(stream := Without(t.stream, message.id)) else Taken(t, message.id)
  }

  function Do(s: State, step: Step): State {
    var t := s.tables;
    var f := Callee(s.request, t.next);
    match step
    case RegisterPair => s.(tables := t.(next := t.next + 1, fetch := t.fetch[t.next := f], fetchError := t.fetchError[t.next := f]))
    case RegisterStream => s.(tables := t.(next := t.next + 1, stream := t.stream[t.next := f]))
    case Answer(message, throws) => s.(tables := After(t, message), calls := s.calls + CallsFor(t, message, s.request, throws))
    case Reset => s.(tables := Tables(t.next, map[], map[], map[]), request := s.request + 1)
  }

  function DoAll(s: State, steps: seq<Step>): State
    decreases |steps|
  {
    if steps == [] then s else DoAll(Do(s, steps[0]), steps[1..])
  }

  /** The tables in place. */
  class CallbackTables {
    var next: nat
    var request: nat
    var fetch: map<nat, Callee>
    var fetchError: map<nat, Callee>
    var stream: map<nat, Callee>

    ghost function View(): Tables
      reads this
    {
      Tables(next, fetch, fetchError, stream)
    }

    method RegisterWithError() returns (id: nat)
      modifies `next, `fetch, `fetchError
      ensures id == old(next)
      ensures View() == Do(State(old(View()), request, []), RegisterPair).tables
    {
      id := next;
      next := next + 1;
      fetch := fetch[id := Callee(request, id)];
      fetchError := fetchError[id := Callee(request, id)];
    }

    /** Takes both sides out, whichever of them answers. */
    method Take(id: nat) returns (resolve: Option<Callee>, reject: Option<Callee>)
      modifies `fetch, `fetchError
      ensures View() == Taken(old(View()), id)
      ensures resolve == if id in old(fetch) then Some(old(fetch)[id]) else None
      ensures reject == if id in old(fetchError) then Some(old(fetchError)[id]) else None
    {
      resolve := if id in fetch then Some(fetch[id]) else None;
      reject := if id in fetchError then Some(fetchError[id]) else None;
      fetch, fetchError := Without(fetch, id), Without(fetchError, id);
    }

    method Reset()
      modifies this
      ensures View() == Do(State(old(View()), old(request), []), Step.Reset).tables && request == old(request) + 1
    {
      fetch, fetchError, stream := map[], map[], map[];
      request := request + 1;
    }
  }

  // ---- what every run keeps ----

  ghost predicate Own(m: map<nat, Callee>, next: nat, request: nat) {
    forall id :: id in m ==> id < next && m[id] == Callee(request, id)
  }

  /** What waits was registered by the present request, under its own number; the two sides
      of a pair wait together; no number is in two tables. */
  ghost predicate Waiting(t: Tables, request: nat) {
    && Own(t.fetch, t.next, request) && Own(t.fetchError, t.next, request) && Own(t.stream, t.next, request)
    && t.fetch.Keys == t.fetchError.Keys
    && t.fetch.Keys !! t.stream.Keys
  }

  /** What was called is out of the tables, and of one request only. */
  ghost predicate Past(t: Tables, calls: seq<Call>) {
    forall k :: 0 <= k < |calls| ==>
      var id := calls[k].callee.id;
      && id < t.next && id !in t.fetch && id !in t.fetchError && id !in t.stream
      && calls[k].during == calls[k].callee.request
  }

  /** The second call of a pair is the reject of a resolve that threw. */
  ghost predicate Once(calls: seq<Call>) {
    forall j, k :: 0 <= j < k < |calls| && calls[j].callee.id == calls[k].callee.id ==>
      k == j + 1 && calls[j].side.Resolve? && calls[j].threw && calls[k].side.Reject?
  }

  ghost predicate Inv(s: State) { Waiting(s.tables, s.request) && Past(s.tables, s.calls) && Once(s.calls) }

  lemma AnswerCalls(t: Tables, message: Message, during: nat, throws: bool)
    requires Waiting(t, during)
    ensures var calls := CallsFor(t, message, during, throws);
      && Once(calls)
      && (forall k :: 0 <= k < |calls| ==> calls[k].callee == Callee(during, message.id) && calls[k].during == during)
      && (calls != [] ==> message.id < t.next && if message.StreamChunk? then message.id in t.stream else message.id in t.fetch)
  {
  }

  lemma AnswerKeeps(s: State, message: Message, throws: bool)
    requires Inv(s)
    ensures Inv(Do(s, Answer(message, throws)))
  {
    var calls := CallsFor(s.tables, message, s.request, throws);
    AnswerCalls(s.tables, message, s.request, throws);
    var all := s.calls + calls;
    forall j, k | 0 <= j < k < |all| && all[j].callee.id == all[k].callee.id
      ensures k == j + 1 && all[j].side.Resolve? && all[j].threw && all[k].side.Reject?
    {
      if j < |s.calls| {
        assert k < |s.calls|;
      } else {
        assert all[j] == calls[j - |s.calls|] && all[k] == calls[k - |s.calls|];
      }
    }
  }

  lemma {:induction false} RunKeeps(s: State, steps: seq<Step>)
    requires Inv(s)
    ensures Inv(DoAll(s, steps))
    decreases |steps|
  {
    if steps != [] {
      match steps[0] {
        case Answer(message, throws) => AnswerKeeps(s, message, throws);
        case _ =>
      }
      RunKeeps(Do(s, steps[0]), steps[1..]);
    }
  }

  /** Over any number of requests and any answers, a guest function is only called during the
      request that registered it, and once: a pair is settled by one side, or by its reject
      right after its resolve threw. */
  lemma LateAnswersAreHarmless(steps: seq<Step>)
    ensures var calls := DoAll(EMPTY, steps).calls;
      && (forall k :: 0 <= k < |calls| ==> calls[k].during == calls[k].callee.request)
      && (forall j, k :: 0 <= j < k < |calls| && calls[j].callee.id == calls[k].callee.id ==>
           k == j + 1 && calls[j].side.Resolve? && calls[j].threw && calls[k].side.Reject?)
  {
    RunKeeps(EMPTY, steps);
  }

  /** An answer is not lost either: the first one to a waiting pair calls its reject when it
      failed and its resolve otherwise, and the pair is gone. */
  lemma FirstAnswerSettles(s: State, message: Message, throws: bool)
    requires Inv(s) && !message.StreamChunk? && message.id in s.tables.fetch
    ensures var t := Do(s, Answer(message, throws));
      && |t.calls| > |s.calls|
      && t.calls[|s.calls|].callee == Callee(s.request, message.id)
      && (t.calls[|s.calls|].side.Reject? <==> message.FetchError? || (message.Settled? && message.failed))
      && Gone(t.tables, message.id)
  {
    AnswerCalls(s.tables, message, s.request, throws);
  }

  ghost predicate Gone(t: Tables, id: nat) {
    id < t.next && id !in t.fetch && id !in t.fetchError && id !in t.stream
  }

  /** A number is never given again: an answer to what an earlier request asked finds nothing
      and changes nothing, whatever the requests since have registered. */
  lemma {:induction false} OldNumbersFindNothing(s: State, steps: seq<Step>, message: Message, throws: bool)
    requires Gone(s.tables, message.id)
    ensures Do(DoAll(s, steps), Answer(message, throws)) == DoAll(s, steps)
    decreases |steps|
  {
    if steps == [] {
      assert s.calls + [] == s.calls;
      assert After(s.tables, message) == s.tables;
    } else {
      OldNumbersFindNothing(Do(s, steps[0]), steps[1..], message, throws);
    }
  }

  /** A reset makes every number so far such an old one. */
  lemma ResetMakesThemOld(s: State, id: nat)
    requires id < s.tables.next
    ensures Gone(Do(s, Reset).tables, id)
  {
  }
}
