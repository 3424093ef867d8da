/**
 The serial queue of a Durable Object, through which storage ops, socket ops and output
 barriers go in the order of the guest's calls. `Step` is one pass of the loop, `Run` all of
 them; `RunMeaning` says what a whole run does by the first failed write alone.
 */
module ObjectQueue {
  import opened Lists
  import opened Storage

  const STORAGE_FAILED := "a storage write of the Durable Object failed"

  /** A storage op with the callback that settles it. `input`: made by `read`, so the
      input gate is closed as long as the op is under way. */
  datatype Call = Call(id: nat, op: StorageOp, input: bool)

  /** A socket op, and the bytes its `Waiting` counts while it waits. */
  datatype Frame = Frame(id: nat, bytes: nat)

  datatype Work =
    | Stored(call: Call)
    | Socket(frame: Frame)
    | Barrier(gate: nat)

  datatype Answer = Answer(call: Call, result: StorageResult)

  /** What the loop did so far. `log`: the work that reached the host. */
  datatype Progress = Progress(failed: bool, log: seq<Work>, answers: seq<Answer>,
                               unlocked: seq<nat>, shut: seq<nat>)

  const START := Progress(false, [], [], [], [])

  /** One pass of the loop; `reply` is what the host answers if it is asked. */
  function Step(p: Progress, work: Work, reply: StorageResult): Progress {
    match work
    case Stored(call) =>
      if p.failed then p.(answers := p.answers + [Answer(call, Error(STORAGE_FAILED))])
      else p.(failed := Writes(call.op) && reply.Error?,
              log := p.log + [work],
              answers := p.answers + [Answer(call, reply)])
    case Socket(_) => if p.failed then p else p.(log := p.log + [work])
    case Barrier(gate) =>
      if p.failed then p.(shut := p.shut + [gate]) else p.(unlocked := p.unlocked + [gate])
  }

  function Run(works: seq<Work>, replies: seq<StorageResult>): Progress
    requires |works| == |replies|
  {
    if works == [] then START
    else Step(Run(works[..|works| - 1], replies[..|works| - 1]), works[|works| - 1], replies[|works| - 1])
  }

  // ---- the reference: everything is decided by the first failed write ----

  predicate FailedWrite(work: Work, reply: StorageResult) {
    work.Stored? && Writes(work.call.op) && reply.Error?
  }

  /** The index of the first write the host failed, or the length of the run. */
  function FirstFailed(works: seq<Work>, replies: seq<StorageResult>): (k: nat)
    requires |works| == |replies|
    ensures k <= |works|
    ensures forall i :: 0 <= i < k ==> !FailedWrite(works[i], replies[i])
    ensures k < |works| ==> FailedWrite(works[k], replies[k])
  {
    if works == [] then 0
    else if FailedWrite(works[0], replies[0]) then 0
    else 1 + FirstFailed(works[1..], replies[1..])
  }

  function HostWork(works: seq<Work>): seq<Work> {
    if works == [] then []
    else (if works[0].Barrier? then [] else [works[0]]) + HostWork(works[1..])
  }

  function Gates(works: seq<Work>): seq<nat> {
    if works == [] then []
    else (if works[0].Barrier? then [works[0].gate] else []) + Gates(works[1..])
  }

  function CallsOf(works: seq<Work>): seq<Call> {
    if works == [] then []
    else (if works[0].Stored? then [works[0].call] else []) + CallsOf(works[1..])
  }

  /** The answers of the host up to and including the first failed write, then its error. */
  function AnswersOf(works: seq<Work>, replies: seq<StorageResult>, failed: bool): seq<Answer>
    requires |works| == |replies|
  {
    if works == [] then []
    else
      var reply := if failed then Error(STORAGE_FAILED) else replies[0];
      (if works[0].Stored? then [Answer(works[0].call, reply)] else [])
      + AnswersOf(works[1..], replies[1..], failed || FailedWrite(works[0], replies[0]))
  }

  function UpToFailure(works: seq<Work>, k: nat): seq<Work>
    requires k <= |works|
  {
    if k < |works| then works[..k + 1] else works
  }

  ghost predicate Meaning(works: seq<Work>, replies: seq<StorageResult>, p: Progress)
    requires |works| == |replies|
  {
    var k := FirstFailed(works, replies);
    && p.failed == (k < |works|)
    && p.log == HostWork(UpToFailure(works, k))
    && p.answers == AnswersOf(works, replies, false)
    && p.unlocked == Gates(works[..k])
    && p.shut == Gates(works[k..])
  }

  // ---- lists built from the back ----

  lemma {:induction false} HostWorkAppend(a: seq<Work>, b: seq<Work>)
    ensures HostWork(a + b) == HostWork(a) + HostWork(b)
  {
    if a == [] { assert a + b == b; } else {
      assert (a + b)[1..] == a[1..] + b;
      HostWorkAppend(a[1..], b);
      Associate(if a[0].Barrier? then [] else [a[0]], HostWork(a[1..]), HostWork(b));
    }
  }

  lemma {:induction false} GatesAppend(a: seq<Work>, b: seq<Work>)
    ensures Gates(a + b) == Gates(a) + Gates(b)
  {
    if a == [] { assert a + b == b; } else {
      assert (a + b)[1..] == a[1..] + b;
      GatesAppend(a[1..], b);
      Associate(if a[0].Barrier? then [a[0].gate] else [], Gates(a[1..]), Gates(b));
    }
  }

  lemma {:induction false} CallsOfAppend(a: seq<Work>, b: seq<Work>)
    ensures CallsOf(a + b) == CallsOf(a) + CallsOf(b)
  {
    if a == [] { assert a + b == b; } else {
      assert (a + b)[1..] == a[1..] + b;
      CallsOfAppend(a[1..], b);
      Associate(if a[0].Stored? then [a[0].call] else [], CallsOf(a[1..]), CallsOf(b));
    }
  }

  lemma {:induction false} AnswersAppend(a: seq<Work>, ra: seq<StorageResult>, work: Work, reply: StorageResult, failed: bool)
    requires |a| == |ra|
    ensures AnswersOf(a + [work], ra + [reply], failed)
         == AnswersOf(a, ra, failed)
            + AnswersOf([work], [reply], failed || FirstFailed(a, ra) < |a|)
  {
    if a == [] {
      assert a + [work] == [work] && ra + [reply] == [reply];
    } else {
      assert (a + [work])[1..] == a[1..] + [work] && (ra + [reply])[1..] == ra[1..] + [reply];
      var later := failed || FailedWrite(a[0], ra[0]);
      AnswersAppend(a[1..], ra[1..], work, reply, later);
      Associate(if a[0].Stored? then [Answer(a[0].call, if failed then Error(STORAGE_FAILED) else ra[0])] else [],
                AnswersOf(a[1..], ra[1..], later),
                AnswersOf([work], [reply], later || FirstFailed(a[1..], ra[1..]) < |a[1..]|));
    }
  }

  lemma {:induction false} FirstFailedAppend(a: seq<Work>, ra: seq<StorageResult>, work: Work, reply: StorageResult)
    requires |a| == |ra|
    ensures FirstFailed(a + [work], ra + [reply])
         == if FirstFailed(a, ra) < |a| then FirstFailed(a, ra)
            else if FailedWrite(work, reply) then |a| else |a| + 1
  {
    if a == [] {
      assert a + [work] == [work] && ra + [reply] == [reply];
    } else {
      assert (a + [work])[1..] == a[1..] + [work] && (ra + [reply])[1..] == ra[1..] + [reply];
      FirstFailedAppend(a[1..], ra[1..], work, reply);
    }
  }

  lemma MeaningStep(works: seq<Work>, replies: seq<StorageResult>, work: Work, reply: StorageResult, p: Progress)
    requires |works| == |replies|
    requires Meaning(works, replies, p)
    ensures Meaning(works + [work], replies + [reply], Step(p, work, reply))
  {
    var n := |works|;
    var k := FirstFailed(works, replies);
    FirstFailedAppend(works, replies, work, reply);
    AnswersAppend(works, replies, work, reply, false);
    var k' := FirstFailed(works + [work], replies + [reply]);
    if k < n {
      assert UpToFailure(works + [work], k') == UpToFailure(works, k);
      assert (works + [work])[..k'] == works[..k];
      assert (works + [work])[k'..] == works[k..] + [work];
      GatesAppend(works[k..], [work]);
    } else {
      assert works[..k] == works && works[k..] == [];
      assert UpToFailure(works + [work], k') == works + [work];
      HostWorkAppend(works, [work]);
      if k' == n {
        assert (works + [work])[..k'] == works && (works + [work])[k'..] == [work];
      } else {
        assert (works + [work])[..k'] == works + [work] && (works + [work])[k'..] == [];
        GatesAppend(works, [work]);
      }
    }
  }

  /** The queue is a serial store: what reaches the host is the queued storage and socket
      work in order, up to and including the first failed write; every storage op gets one
      answer, in order; a barrier opens exactly when no write before it failed. */
  lemma {:induction false} RunMeaning(works: seq<Work>, replies: seq<StorageResult>)
    requires |works| == |replies|
    ensures Meaning(works, replies, Run(works, replies))
  {
    if works != [] {
      var n := |works| - 1;
      RunMeaning(works[..n], replies[..n]);
      MeaningStep(works[..n], replies[..n], works[n], replies[n], Run(works[..n], replies[..n]));
      assert works[..n] + [works[n]] == works && replies[..n] + [replies[n]] == replies;
    }
  }

  lemma RunAppend(works: seq<Work>, replies: seq<StorageResult>, work: Work, reply: StorageResult)
    requires |works| == |replies|
    ensures Run(works + [work], replies + [reply]) == Step(Run(works, replies), work, reply)
  {
    assert (works + [work])[..|works|] == works && (replies + [reply])[..|works|] == replies;
  }

  lemma {:induction false} AnswersInOrder(works: seq<Work>, replies: seq<StorageResult>, failed: bool)
    requires |works| == |replies|
    ensures |AnswersOf(works, replies, failed)| == |CallsOf(works)|
    ensures forall i :: 0 <= i < |CallsOf(works)| ==> AnswersOf(works, replies, failed)[i].call == CallsOf(works)[i]
  {
    if works != [] {
      AnswersInOrder(works[1..], replies[1..], failed || FailedWrite(works[0], replies[0]));
    }
  }

  /** The loop of the queue task, over everything its channel ever gives. `replies[i]` is
      what the host answers to the work at `i` when it is asked. */
  method RunObjectQueue(queue: seq<Work>, replies: seq<StorageResult>) returns (p: Progress)
    requires |queue| == |replies|
    ensures Meaning(queue, replies, p)
    ensures |p.answers| == |CallsOf(queue)|
    ensures forall i :: 0 <= i < |p.answers| ==> p.answers[i].call == CallsOf(queue)[i]
  {
    var failed := false;
    var log, answers, unlocked, shut := [], [], [], [];
    var i := 0;
    assert Run([], []) == START;
    hide Run, Meaning, AnswersOf, CallsOf;
    while i < |queue|
      invariant 0 <= i <= |queue|
      invariant Progress(failed, log, answers, unlocked, shut) == Run(queue[..i], replies[..i])
    {
      match queue[i] {
        case Stored(call) =>
          if failed {
            answers := answers + [Answer(call, Error(STORAGE_FAILED))];
          } else {
            log := log + [queue[i]];
            failed := Writes(call.op) && replies[i].Error?;
            answers := answers + [Answer(call, replies[i])];
          }
        case Socket(_) =>
          if !failed { log := log + [queue[i]]; }
        case Barrier(gate) =>
          if failed { shut := shut + [gate]; } else { unlocked := unlocked + [gate]; }
      }
      RunAppend(queue[..i], replies[..i], queue[i], replies[i]);
      assert queue[..i + 1] == queue[..i] + [queue[i]] && replies[..i + 1] == replies[..i] + [replies[i]];
      i := i + 1;
    }
    assert queue[..i] == queue && replies[..i] == replies;
    RunMeaning(queue, replies);
    AnswersInOrder(queue, replies, false);
    p := Progress(failed, log, answers, unlocked, shut);
  }

  // ---- a host with a store: reads see every earlier write ----

  /** The store once the host has performed `works`: a failed write changes nothing, and
      nothing after it reaches the host. */
  function StoreAfter(store: Store, works: seq<Work>, replies: seq<StorageResult>): Store
    requires |works| == |replies|
    decreases |works|
  {
    if works == [] || FailedWrite(works[0], replies[0]) then store
    else StoreAfter(if works[0].Stored? then Apply(store, works[0].call.op) else store, works[1..], replies[1..])
  }

  /** Every op the guest made, applied in order, as a plain store would. */
  function ApplyAll(store: Store, calls: seq<Call>): Store
    decreases |calls|
  {
    if calls == [] then store else ApplyAll(Apply(store, calls[0].op), calls[1..])
  }

  /** After any run the store holds exactly the writes before the first failed one. */
  lemma {:induction false} StoreIsThePrefix(store: Store, works: seq<Work>, replies: seq<StorageResult>)
    requires |works| == |replies|
    ensures StoreAfter(store, works, replies) == ApplyAll(store, CallsOf(works[..FirstFailed(works, replies)]))
    decreases |works|
  {
    if works != [] && !FailedWrite(works[0], replies[0]) {
      var k := FirstFailed(works, replies);
      assert works[..k][1..] == works[1..][..k - 1];
      var rest := CallsOf(works[1..][..k - 1]);
      if works[0].Stored? { assert ([works[0].call] + rest)[1..] == rest; } else { assert [] + rest == rest; }
      StoreIsThePrefix(if works[0].Stored? then Apply(store, works[0].call.op) else store, works[1..], replies[1..]);
    }
  }

  /** The host answers a read from its store, by any rule `answer`. */
  ghost predicate Backed(store: Store, works: seq<Work>, replies: seq<StorageResult>, answer: (Store, StorageOp) -> StorageResult)
    requires |works| == |replies|
  {
    forall i :: 0 <= i < |works| && works[i].Stored? && !Writes(works[i].call.op) ==>
      replies[i] == answer(StoreAfter(store, works[..i], replies[..i]), works[i].call.op)
  }

  lemma {:induction false} AnswerAt(works: seq<Work>, replies: seq<StorageResult>, i: nat, failed: bool)
    requires |works| == |replies| && i < |works| && works[i].Stored?
    requires !failed && i <= FirstFailed(works, replies)
    ensures |CallsOf(works[..i])| < |AnswersOf(works, replies, failed)|
    ensures AnswersOf(works, replies, failed)[|CallsOf(works[..i])|] == Answer(works[i].call, replies[i])
  {
    if i == 0 {
      assert works[..0] == [];
    } else {
      assert !FailedWrite(works[0], replies[0]);
      assert works[..i][1..] == works[1..][..i - 1];
      AnswerAt(works[1..], replies[1..], i - 1, failed);
    }
  }

  /** No await is needed between a write and a read of it: a read in front of any failed write
      is answered from the store with all that was queued ahead of it applied. */
  lemma ReadsSeeEarlierWrites(store: Store, works: seq<Work>, replies: seq<StorageResult>,
                              answer: (Store, StorageOp) -> StorageResult, i: nat)
    requires |works| == |replies| && i < |works|
    requires works[i].Stored? && !Writes(works[i].call.op)
    requires Backed(store, works, replies, answer)
    requires i <= FirstFailed(works, replies)
    ensures |CallsOf(works[..i])| < |Run(works, replies).answers|
    ensures Run(works, replies).answers[|CallsOf(works[..i])|]
         == Answer(works[i].call, answer(ApplyAll(store, CallsOf(works[..i])), works[i].call.op))
  {
    RunMeaning(works, replies);
    AnswerAt(works, replies, i, false);
    StoreIsThePrefix(store, works[..i], replies[..i]);
    assert forall j :: 0 <= j < i ==> !FailedWrite(works[j], replies[j]);
    assert FirstFailed(works[..i], replies[..i]) == i;
    assert works[..i][..i] == works[..i];
  }

  /** Once a write failed, nothing that follows reaches the host: every storage op behind it is
      answered with the storage error, whatever it asks for. */
  lemma {:induction false} AnswerPastFailure(works: seq<Work>, replies: seq<StorageResult>, i: nat, failed: bool)
    requires |works| == |replies| && i < |works| && works[i].Stored?
    requires failed || FirstFailed(works, replies) < i
    ensures |CallsOf(works[..i])| < |AnswersOf(works, replies, failed)|
    ensures AnswersOf(works, replies, failed)[|CallsOf(works[..i])|] == Answer(works[i].call, Error(STORAGE_FAILED))
  {
    if i == 0 {
      assert works[..0] == [];
    } else {
      assert works[..i][1..] == works[1..][..i - 1];
      AnswerPastFailure(works[1..], replies[1..], i - 1, failed || FailedWrite(works[0], replies[0]));
    }
  }

  /** So over a whole run: the op at `i` has the host's own answer up to and including the first
      failed write, and the storage error from there on. */
  lemma EveryAnswer(works: seq<Work>, replies: seq<StorageResult>, i: nat)
    requires |works| == |replies| && i < |works| && works[i].Stored?
    ensures |CallsOf(works[..i])| < |Run(works, replies).answers|
    ensures Run(works, replies).answers[|CallsOf(works[..i])|] ==
      Answer(works[i].call, if i <= FirstFailed(works, replies) then replies[i] else Error(STORAGE_FAILED))
  {
    RunMeaning(works, replies);
    if i <= FirstFailed(works, replies) {
      AnswerAt(works, replies, i, false);
    } else {
      AnswerPastFailure(works, replies, i, false);
    }
  }
}
