/** src/acp/proxy.py: many calls over one pipe. Each call takes a message id, waits for the read lock,
    writes its request and reads frames until it has its answer or gives up.

    The state machine's steps are the stretches between two awaits; the agent at the other end and a
    restart of its process are steps of their own. */
module AcpClient {
  import opened Numerals
  import opened Options
  import opened AcpReaders

  /** _rpc stops at its answer; the two prompt readers drain the pipe first and read on after it. */
  datatype Kind = Rpc | Prompt

  datatype Phase = Waiting | Draining | Writing | Listening | Finished

  /** A line on the pipe: its `id` member and, when the agent wrote it in the course of a request, which
      call had made that request. A notification has no id. */
  datatype Wire = Wire(id: JsonId, origin: Option<nat>)

  /** `accepted` are the frames a call took for its response; `heard` the notifications a prompt reader
      read after writing its request, which is where its chunks come from. */
  datatype Call = Call(id: nat, kind: Kind, phase: Phase, accepted: seq<Wire>, heard: seq<Wire>)

  /** Who took a frame off the pipe; None for a pipe that was thrown away with its process. */
  datatype Taken = Taken(frame: Wire, taker: Option<nat>)

  datatype Request = Request(id: nat, call: nat)

  /** Calls are numbered as they begin. `requests` are what the current agent process has received,
      `emitted` all frames ever written by agents, `log` what became of those no longer in the pipe. */
  datatype State = State(msgId: nat, holder: Option<nat>, calls: seq<Call>, requests: seq<Request>,
                         pipe: seq<Wire>, emitted: seq<Wire>, log: seq<Taken>)

  datatype Step =
    | Begin(kind: Kind)               // a call takes the next message id
    | Acquire(call: nat)              // it gets the read lock
    | Drain(call: nat)                // it reads a stale frame and drops it
    | EndDrain(call: nat)             // it finds no stale frame left
    | Write(call: nat)                // it writes its request
    | Take(call: nat, isError: bool)  // it reads a frame in its main loop
    | GiveUp(call: nat)               // it ends by timeout, end of input, clock, exception or usage_update
    | Respond(k: nat)                 // the agent answers a request it has received, however late
    | Notify(k: nat)                  // it sends a notification in the course of one, however late
    | Announce                        // it sends any other notification
    | AskClient(id: JsonId)           // it sends a request of its own
    | Restart                         // the process and its pipe are replaced

  const START := State(0, None, [], [], [], [], [])

  function SetCall(s: State, c: nat, call: Call): State
    requires c < |s.calls|
  {
    s.(calls := s.calls[c := call])
  }

  function Emit(s: State, frame: Wire): State {
    s.(pipe := s.pipe + [frame], emitted := s.emitted + [frame])
  }

  /** The holder reads the next frame off the pipe. */
  function Pop(s: State, c: nat): State
    requires s.pipe != []
  {
    s.(pipe := s.pipe[1..], log := s.log + [Taken(s.pipe[0], Some(c))])
  }

  function Heard(kind: Kind, frame: Wire): seq<Wire> {
    if kind == Prompt && frame.id == Missing then [frame] else []
  }

  function Dropped(pipe: seq<Wire>): seq<Taken> {
    seq(|pipe|, i requires 0 <= i < |pipe| => Taken(pipe[i], None))
  }

  predicate InPhase(s: State, c: nat, phase: Phase) {
    c < |s.calls| && s.calls[c].phase == phase
  }

  /** A step that is not possible in a state leaves it as it is. */
  function Next(s: State, step: Step): State {
    match step
    case Begin(kind) =>
      s.(msgId := s.msgId + 1, calls := s.calls + [Call(s.msgId + 1, kind, Waiting, [], [])])
    case Acquire(c) =>
      if !InPhase(s, c, Waiting) || s.holder != None then s
      else
        var phase := if s.calls[c].kind == Rpc then Writing else Draining;
        SetCall(s, c, s.calls[c].(phase := phase)).(holder := Some(c))
    case Drain(c) =>
      if !InPhase(s, c, Draining) || s.pipe == [] then s else Pop(s, c)
    case EndDrain(c) =>
      if !InPhase(s, c, Draining) || s.pipe != [] then s else SetCall(s, c, s.calls[c].(phase := Writing))
    case Write(c) =>
      if !InPhase(s, c, Writing) then s
      else SetCall(s, c, s.calls[c].(phase := Listening)).(requests := s.requests + [Request(s.calls[c].id, c)])
    case Take(c, isError) =>
      if !InPhase(s, c, Listening) || s.pipe == [] then s
      else
        var frame, call := s.pipe[0], s.calls[c];
        var popped := Pop(s, c);
        if !Matches(frame.id, call.id) then
          SetCall(popped, c, call.(heard := call.heard + Heard(call.kind, frame)))
        else
          var ends := call.kind == Rpc || isError;
          var next := call.(accepted := call.accepted + [frame], phase := if ends then Finished else Listening);
          SetCall(popped, c, next).(holder := if ends then None else s.holder)
    case GiveUp(c) =>
      if c >= |s.calls| || s.holder != Some(c) then s
      else SetCall(s, c, s.calls[c].(phase := Finished)).(holder := None)
    case Respond(k) =>
      if k >= |s.requests| then s
      else Emit(s, Wire(Text(Decimal(s.requests[k].id)), Some(s.requests[k].call)))
    case Notify(k) =>
      if k >= |s.requests| then s else Emit(s, Wire(Missing, Some(s.requests[k].call)))
    case Announce => Emit(s, Wire(Missing, None))
    case AskClient(id) => Emit(s, Wire(id, None))
    case Restart => s.(pipe := [], requests := [], log := s.log + Dropped(s.pipe))
  }

  function Exec(s: State, steps: seq<Step>): State {
    if |steps| == 0 then s else Next(Exec(s, steps[..|steps| - 1]), steps[|steps| - 1])
  }

  function Run(steps: seq<Step>): State {
    Exec(START, steps)
  }

  lemma {:induction false} ExecConcat(s: State, steps: seq<Step>, more: seq<Step>)
    ensures Exec(s, steps + more) == Exec(Exec(s, steps), more)
  {
    if |more| == 0 {
      assert steps + more == steps;
    } else {
      ExecConcat(s, steps, more[..|more| - 1]);
      assert (steps + more)[..|steps + more| - 1] == steps + more[..|more| - 1];
    }
  }

  lemma ExecOne(s: State, step: Step)
    ensures Exec(s, [step]) == Next(s, step)
  {
    assert [step][..0] == [];
  }

  lemma RunExtend(steps: seq<Step>, step: Step)
    ensures Run(steps + [step]) == Next(Run(steps), step)
  {
  }

  /** What the agent writes: the answer to a request carries the request's id as a text, and a notification
      carries none. A new process has an empty pipe and has received nothing. */
  lemma AgentSteps(s: State, k: nat, id: JsonId)
    requires k < |s.requests|
    ensures Next(s, Respond(k)).pipe == s.pipe + [Wire(Text(Decimal(s.requests[k].id)), Some(s.requests[k].call))]
    ensures Next(s, Notify(k)).pipe == s.pipe + [Wire(Missing, Some(s.requests[k].call))]
    ensures Next(s, Announce).pipe == s.pipe + [Wire(Missing, None)]
    ensures Next(s, AskClient(id)).pipe == s.pipe + [Wire(id, None)]
    ensures Next(s, Restart).pipe == [] && Next(s, Restart).requests == []
  {
  }

  /** And it touches no call. */
  lemma AgentTouchesNoCall(s: State, step: Step)
    requires step.Respond? || step.Notify? || step.Announce? || step.AskClient? || step.Restart?
    ensures Next(s, step).calls == s.calls && Next(s, step).holder == s.holder && Next(s, step).msgId == s.msgId
  {
  }

  // ----- Ids and the lock -----

  predicate Holds(phase: Phase) {
    phase == Draining || phase == Writing || phase == Listening
  }

  /** Call c has id c + 1, and the calls between acquiring and releasing are exactly the lock's holder. */
  ghost predicate LockInv(s: State) {
    && s.msgId == |s.calls|
    && (forall c :: 0 <= c < |s.calls| ==> s.calls[c].id == c + 1 && (Holds(s.calls[c].phase) <==> s.holder == Some(c)))
    && (s.holder.Some? ==> s.holder.value < |s.calls|)
  }

  lemma NextKeepsLock(s: State, step: Step)
    requires LockInv(s)
    ensures LockInv(Next(s, step))
  {
  }

  lemma {:induction false} ExecKeepsLock(s: State, steps: seq<Step>)
    requires LockInv(s)
    ensures LockInv(Exec(s, steps))
  {
    if |steps| == 0 {
    } else {
      ExecKeepsLock(s, steps[..|steps| - 1]);
      NextKeepsLock(Exec(s, steps[..|steps| - 1]), steps[|steps| - 1]);
    }
  }

  lemma RunKeepsLock(steps: seq<Step>)
    ensures LockInv(Run(steps))
  {
    ExecKeepsLock(START, steps);
  }

  /** Over any interleaving: the ids that two calls put on the wire differ, and at most one call is
      between acquiring and releasing the lock. */
  lemma IdsDistinctOneReader(steps: seq<Step>, a: nat, b: nat)
    requires a < b < |Run(steps).calls|
    ensures Decimal(Run(steps).calls[a].id) != Decimal(Run(steps).calls[b].id)
    ensures !(Holds(Run(steps).calls[a].phase) && Holds(Run(steps).calls[b].phase))
  {
    RunKeepsLock(steps);
    if Decimal(Run(steps).calls[a].id) == Decimal(Run(steps).calls[b].id) {
      DecimalInjective(Run(steps).calls[a].id, Run(steps).calls[b].id);
    }
  }

  // ----- Every frame is taken once -----

  function Frames(log: seq<Taken>): seq<Wire> {
    seq(|log|, i requires 0 <= i < |log| => log[i].frame)
  }

  /** The three things a step can do to the pipe: throw it away, take its first frame, or add to it. */
  lemma PipeSteps(s: State, step: Step)
    ensures var t := Next(s, step);
            if step == Restart then t.log == s.log + Dropped(s.pipe) && t.pipe == [] && t.emitted == s.emitted
            else if t.log == s.log then |t.pipe| >= |s.pipe| && t.pipe == s.pipe + t.pipe[|s.pipe|..]
                                        && t.emitted == s.emitted + t.pipe[|s.pipe|..]
            else (step.Drain? || step.Take?) && Holds(s.calls[step.call].phase) && s.pipe != []
                 && t.log == s.log + [Taken(s.pipe[0], Some(step.call))]
                 && t.pipe == s.pipe[1..] && t.emitted == s.emitted
  {
  }

  lemma FramesConcat(a: seq<Taken>, b: seq<Taken>)
    ensures Frames(a + b) == Frames(a) + Frames(b)
  {
  }

  lemma FramesDropped(pipe: seq<Wire>)
    ensures Frames(Dropped(pipe)) == pipe
  {
  }

  lemma NextConserves(s: State, step: Step)
    requires s.emitted == Frames(s.log) + s.pipe
    ensures Next(s, step).emitted == Frames(Next(s, step).log) + Next(s, step).pipe
  {
    var t := Next(s, step);
    PipeSteps(s, step);
    if step == Restart {
      FramesConcat(s.log, Dropped(s.pipe));
      FramesDropped(s.pipe);
    } else if t.log != s.log {
      FramesConcat(s.log, [t.log[|s.log|]]);
      assert s.pipe == Frames([t.log[|s.log|]]) + t.pipe;
    }
  }

  /** Over any interleaving the frames written are, in order, those taken off the pipe and those still
      in it. Each taken frame has one log entry, so one taker: the call that held the lock then, or
      nobody if its process was replaced. */
  lemma {:induction false} FramesTakenOnce(steps: seq<Step>)
    ensures var s := Run(steps); s.emitted == Frames(s.log) + s.pipe
    ensures |steps| > 0 ==>
              var before, last := Run(steps[..|steps| - 1]), steps[|steps| - 1];
              && before.log <= Run(steps).log
              && (Run(steps).log == before.log
                  || (last != Restart && before.holder == Some(last.call)
                      && Run(steps).log == before.log + [Taken(before.pipe[0], Some(last.call))])
                  || (last == Restart && Run(steps).log == before.log + Dropped(before.pipe)))
  {
    if |steps| == 0 {
    } else {
      var front, last := steps[..|steps| - 1], steps[|steps| - 1];
      FramesTakenOnce(front);
      NextConserves(Run(front), last);
      PipeSteps(Run(front), last);
      RunKeepsLock(front);
    }
  }

  // ----- No call takes another call's answer -----

  /** Frames written in the course of a request carry its id or none. */
  predicate OriginOk(s: State, frame: Wire) {
    frame.origin.Some? ==>
      && frame.origin.value < |s.calls|
      && (frame.id == Missing || frame.id == Text(Decimal(s.calls[frame.origin.value].id)))
  }

  predicate PipeOk(s: State) {
    forall i :: 0 <= i < |s.pipe| ==> OriginOk(s, s.pipe[i])
  }

  predicate RequestsOk(s: State) {
    forall k :: 0 <= k < |s.requests| ==>
                  s.requests[k].call < |s.calls| && s.requests[k].id == s.calls[s.requests[k].call].id
  }

  predicate OwnOrNone(c: nat, frame: Wire) {
    frame.origin == None || frame.origin == Some(c)
  }

  predicate NoneForeign(c: nat, frames: seq<Wire>) {
    forall i :: 0 <= i < |frames| ==> OwnOrNone(c, frames[i])
  }

  predicate AcceptedOwnOrNone(s: State) {
    forall c :: 0 <= c < |s.calls| ==> NoneForeign(c, s.calls[c].accepted)
  }

  ghost predicate AnswersInv(s: State) {
    LockInv(s) && PipeOk(s) && RequestsOk(s) && AcceptedOwnOrNone(s)
  }

  lemma MatchedIsOwn(s: State, frame: Wire, c: nat)
    requires LockInv(s) && OriginOk(s, frame) && c < |s.calls|
    requires Matches(frame.id, s.calls[c].id)
    ensures OwnOrNone(c, frame)
  {
    assert |Decimal(s.calls[c].id)| > 0;
    if frame.origin.Some? {
      DecimalInjective(s.calls[frame.origin.value].id, s.calls[c].id);
    }
  }

  /** A call keeps its id, so what a frame may be an answer to does not change. */
  lemma IdsStay(s: State, step: Step)
    ensures |s.calls| <= |Next(s, step).calls|
    ensures forall c :: 0 <= c < |s.calls| ==> Next(s, step).calls[c].id == s.calls[c].id
  {
  }

  lemma EmittedOk(s: State, step: Step)
    requires RequestsOk(s)
    requires |s.pipe| < |Next(s, step).pipe|
    ensures Next(s, step).pipe == s.pipe + [Next(s, step).pipe[|s.pipe|]]
    ensures OriginOk(s, Next(s, step).pipe[|s.pipe|])
  {
  }

  lemma PipeShrinks(s: State, step: Step)
    requires |Next(s, step).pipe| <= |s.pipe|
    ensures Next(s, step).pipe == s.pipe[|s.pipe| - |Next(s, step).pipe|..]
  {
    PipeSteps(s, step);
  }

  lemma OriginsCarry(s: State, t: State)
    requires PipeOk(s) && |s.calls| <= |t.calls|
    requires forall c :: 0 <= c < |s.calls| ==> t.calls[c].id == s.calls[c].id
    requires if |s.pipe| < |t.pipe| then t.pipe == s.pipe + [t.pipe[|s.pipe|]] && OriginOk(s, t.pipe[|s.pipe|])
             else t.pipe == s.pipe[|s.pipe| - |t.pipe|..]
    ensures PipeOk(t)
  {
    forall i | 0 <= i < |t.pipe|
      ensures OriginOk(t, t.pipe[i])
    {
      var j := if |s.pipe| < |t.pipe| then i else i + |s.pipe| - |t.pipe|;
      assert j < |s.pipe| ==> t.pipe[i] == s.pipe[j];
      assert OriginOk(s, t.pipe[i]);
    }
  }

  lemma NextKeepsPipe(s: State, step: Step)
    requires PipeOk(s) && RequestsOk(s)
    ensures PipeOk(Next(s, step))
  {
    IdsStay(s, step);
    if |s.pipe| < |Next(s, step).pipe| {
      EmittedOk(s, step);
    } else {
      PipeShrinks(s, step);
    }
    OriginsCarry(s, Next(s, step));
  }

  lemma NextKeepsRequests(s: State, step: Step)
    requires RequestsOk(s)
    ensures RequestsOk(Next(s, step))
  {
  }

  lemma NextKeepsAccepted(s: State, step: Step)
    requires AnswersInv(s)
    ensures AcceptedOwnOrNone(Next(s, step))
  {
    var t := Next(s, step);
    if step.Take? && InPhase(s, step.call, Listening) && s.pipe != [] && Matches(s.pipe[0].id, s.calls[step.call].id) {
      MatchedIsOwn(s, s.pipe[0], step.call);
      assert t.calls[step.call].accepted == s.calls[step.call].accepted + [s.pipe[0]];
    }
    forall c | 0 <= c < |t.calls|
      ensures NoneForeign(c, t.calls[c].accepted)
    {
    }
  }

  lemma {:induction false} RunKeepsAnswers(steps: seq<Step>)
    ensures AnswersInv(Run(steps))
  {
    if |steps| == 0 {
    } else {
      var front, last := Run(steps[..|steps| - 1]), steps[|steps| - 1];
      RunKeepsAnswers(steps[..|steps| - 1]);
      NextKeepsLock(front, last);
      NextKeepsPipe(front, last);
      NextKeepsRequests(front, last);
      NextKeepsAccepted(front, last);
    }
  }

  /** Over any interleaving no call accepts a response to another call's request, however late it comes:
      what a call accepts was written in answer to its own request, or is a request of the agent's own. */
  lemma NoForeignAnswer(steps: seq<Step>, c: nat, i: nat)
    requires c < |Run(steps).calls| && i < |Run(steps).calls[c].accepted|
    ensures var origin := Run(steps).calls[c].accepted[i].origin; origin.Some? ==> origin == Some(c)
  {
    RunKeepsAnswers(steps);
    assert NoneForeign(c, Run(steps).calls[c].accepted);
    assert OwnOrNone(c, Run(steps).calls[c].accepted[i]);
  }

  // ----- When a request of the agent is taken for an answer -----

  /** The id prints like the message id of call c, so that a frame with it looks like its answer. */
  predicate AnswersCall(id: JsonId, c: nat) {
    Matches(id, c + 1)
  }

  predicate FoundIn(pipe: seq<Wire>, c: nat) {
    exists p :: 0 <= p < |pipe| && AnswersCall(pipe[p].id, c)
  }

  /** A frame that looks like an answer to call c, written behind the frames `before`, can still be
      accepted by it: it has not begun, or it will not drain the pipe any more and has no frame that would
      end it before. */
  predicate CanAccept(s: State, c: nat, before: seq<Wire>) {
    if c >= |s.calls| then true
    else
      match s.calls[c].phase
      case Waiting => s.calls[c].kind == Rpc
      case Draining => false
      case Writing => true
      case Listening => s.calls[c].kind == Prompt || !FoundIn(before, c)
      case Finished => false
  }

  /** The agent sends a request whose id looks like an answer to a call that can still accept it. */
  ghost predicate Clashes(s: State, step: Step) {
    step.AskClient? && exists c: nat :: AnswersCall(step.id, c) && CanAccept(s, c, s.pipe)
  }

  ghost predicate NeverClashes(steps: seq<Step>) {
    |steps| > 0 ==> NeverClashes(steps[..|steps| - 1]) && !Clashes(Run(steps[..|steps| - 1]), steps[|steps| - 1])
  }

  predicate AllFrom(c: nat, frames: seq<Wire>) {
    forall i :: 0 <= i < |frames| ==> frames[i].origin == Some(c)
  }

  /** Every call has accepted only frames written in answer to its own request. */
  predicate AcceptedOwn(s: State) {
    forall c :: 0 <= c < |s.calls| ==> AllFrom(c, s.calls[c].accepted)
  }

  /** Only calls that have written their request have received frames in answer to it. */
  predicate HasWritten(s: State, c: nat) {
    InPhase(s, c, Listening) || InPhase(s, c, Finished)
  }

  predicate WrittenInv(s: State) {
    && (forall k :: 0 <= k < |s.requests| ==> HasWritten(s, s.requests[k].call))
    && (forall p :: 0 <= p < |s.pipe| && s.pipe[p].origin.Some? ==> HasWritten(s, s.pipe[p].origin.value))
  }

  lemma HasWrittenStays(s: State, step: Step, c: nat)
    requires LockInv(s) && HasWritten(s, c)
    ensures HasWritten(Next(s, step), c)
  {
  }

  lemma NextKeepsWritten(s: State, step: Step)
    requires LockInv(s) && WrittenInv(s)
    ensures WrittenInv(Next(s, step))
  {
    forall c: nat | HasWritten(s, c)
      ensures HasWritten(Next(s, step), c)
    {
      HasWrittenStays(s, step, c);
    }
  }

  lemma {:induction false} RunKeepsWritten(steps: seq<Step>)
    ensures WrittenInv(Run(steps))
  {
    if |steps| == 0 {
    } else {
      RunKeepsWritten(steps[..|steps| - 1]);
      RunKeepsLock(steps[..|steps| - 1]);
      NextKeepsWritten(Run(steps[..|steps| - 1]), steps[|steps| - 1]);
    }
  }

  /** No request of the agent in the pipe can be accepted by the call it looks like an answer to. */
  ghost predicate Shielded(s: State, p: nat)
    requires p < |s.pipe|
  {
    s.pipe[p].origin == None ==> forall c: nat :: AnswersCall(s.pipe[p].id, c) ==> !CanAccept(s, c, s.pipe[..p])
  }

  ghost predicate ShieldedInv(s: State) {
    AcceptedOwn(s) && forall p: nat :: p < |s.pipe| ==> Shielded(s, p)
  }

  lemma EmitKeepsShielded(s: State, frame: Wire)
    requires ShieldedInv(s)
    requires frame.origin == None ==> forall c: nat :: AnswersCall(frame.id, c) ==> !CanAccept(s, c, s.pipe)
    ensures ShieldedInv(Emit(s, frame))
  {
    var t := Emit(s, frame);
    forall p: nat | p < |t.pipe|
      ensures Shielded(t, p)
    {
      assert t.pipe[..p] == s.pipe[..p];
      assert p < |s.pipe| ==> Shielded(s, p);
      assert s.pipe[..|s.pipe|] == s.pipe;
    }
  }

  /** The call that reads is the only one whose frames ahead matter. */
  lemma PopKeepsShut(s: State, c: nat, d: nat, p: nat)
    requires LockInv(s) && s.holder == Some(c) && p + 1 < |s.pipe| && d != c
    requires !CanAccept(s, d, s.pipe[..p + 1])
    ensures !CanAccept(s, d, s.pipe[1..][..p])
  {
  }

  lemma TakeKeepsShut(s: State, c: nat, isError: bool, d: nat, p: nat)
    requires LockInv(s) && InPhase(s, c, Listening) && p + 1 < |s.pipe|
    requires !CanAccept(s, d, s.pipe[..p + 1])
    ensures !CanAccept(Next(s, Take(c, isError)), d, s.pipe[1..][..p])
  {
    assert s.holder == Some(c);
    if d != c {
      PopKeepsShut(s, c, d, p);
    } else {
      var q :| 0 <= q < |s.pipe[..p + 1]| && AnswersCall(s.pipe[..p + 1][q].id, c);
      assert q > 0 ==> s.pipe[1..][..p][q - 1] == s.pipe[q];
    }
  }

  lemma TakesOwn(s: State, c: nat)
    requires LockInv(s) && PipeOk(s) && ShieldedInv(s) && InPhase(s, c, Listening)
    requires s.pipe != [] && Matches(s.pipe[0].id, s.calls[c].id)
    ensures s.pipe[0].origin == Some(c)
  {
    assert Shielded(s, 0) && AnswersCall(s.pipe[0].id, c);
    MatchedIsOwn(s, s.pipe[0], c);
  }

  lemma TakeKeepsShielded(s: State, c: nat, isError: bool)
    requires LockInv(s) && PipeOk(s) && ShieldedInv(s)
    ensures ShieldedInv(Next(s, Take(c, isError)))
  {
    var t := Next(s, Take(c, isError));
    if InPhase(s, c, Listening) && s.pipe != [] {
      if Matches(s.pipe[0].id, s.calls[c].id) {
        TakesOwn(s, c);
      }
      assert AllFrom(c, s.calls[c].accepted);
      forall p: nat | p < |t.pipe|
        ensures Shielded(t, p)
      {
        assert Shielded(s, p + 1);
        forall d: nat | !CanAccept(s, d, s.pipe[..p + 1])
          ensures !CanAccept(t, d, t.pipe[..p])
        {
          TakeKeepsShut(s, c, isError, d, p);
        }
      }
    }
  }

  lemma DrainKeepsShielded(s: State, c: nat)
    requires LockInv(s) && ShieldedInv(s)
    ensures ShieldedInv(Next(s, Drain(c)))
  {
    var t := Next(s, Drain(c));
    if InPhase(s, c, Draining) && s.pipe != [] {
      forall p: nat | p < |t.pipe|
        ensures Shielded(t, p)
      {
        assert Shielded(s, p + 1);
        forall d: nat | !CanAccept(s, d, s.pipe[..p + 1])
          ensures !CanAccept(t, d, t.pipe[..p])
        {
          if d != c {
            PopKeepsShut(s, c, d, p);
          }
        }
      }
    }
  }

  lemma OthersKeepShielded(s: State, step: Step)
    requires LockInv(s) && ShieldedInv(s)
    requires step.Begin? || step.Acquire? || step.EndDrain? || step.Write? || step.GiveUp? || step.Restart?
    ensures ShieldedInv(Next(s, step))
  {
    var t := Next(s, step);
    assert forall c :: 0 <= c < |t.calls| ==> t.calls[c].accepted == if c < |s.calls| then s.calls[c].accepted else [];
    forall p: nat | p < |t.pipe|
      ensures Shielded(t, p)
    {
      assert Shielded(s, p);
      assert forall d: nat :: !CanAccept(s, d, s.pipe[..p]) ==> !CanAccept(t, d, s.pipe[..p]);
    }
  }

  lemma NextKeepsShielded(s: State, step: Step)
    requires LockInv(s) && PipeOk(s) && ShieldedInv(s) && !Clashes(s, step)
    ensures ShieldedInv(Next(s, step))
  {
    match step {
      case Respond(k) =>
        if k < |s.requests| {
          EmitKeepsShielded(s, Wire(Text(Decimal(s.requests[k].id)), Some(s.requests[k].call)));
        }
      case Notify(k) =>
        if k < |s.requests| {
          EmitKeepsShielded(s, Wire(Missing, Some(s.requests[k].call)));
        }
      case Announce =>
        assert forall c: nat :: !AnswersCall(Missing, c);
        EmitKeepsShielded(s, Wire(Missing, None));
      case AskClient(id) => EmitKeepsShielded(s, Wire(id, None));
      case Take(c, isError) => TakeKeepsShielded(s, c, isError);
      case Drain(c) => DrainKeepsShielded(s, c);
      case _ => OthersKeepShielded(s, step);
    }
  }

  lemma {:induction false} NeverClashesShields(steps: seq<Step>)
    requires NeverClashes(steps)
    ensures ShieldedInv(Run(steps))
  {
    if |steps| == 0 {
    } else {
      NeverClashesShields(steps[..|steps| - 1]);
      RunKeepsAnswers(steps[..|steps| - 1]);
      NextKeepsShielded(Run(steps[..|steps| - 1]), steps[|steps| - 1]);
    }
  }

  /** Steps of the client alone. */
  predicate ClientSteps(steps: seq<Step>) {
    forall i :: 0 <= i < |steps| ==> steps[i].Begin? || steps[i].Acquire? || steps[i].Drain? || steps[i].EndDrain?
                                     || steps[i].Write? || steps[i].Take? || steps[i].GiveUp?
  }

  lemma {:induction false} PrefixNeverClashes(steps: seq<Step>, i: nat)
    requires NeverClashes(steps) && i <= |steps|
    ensures NeverClashes(steps[..i])
  {
    if i == |steps| {
      assert steps[..i] == steps;
    } else {
      PrefixNeverClashes(steps[..|steps| - 1], i);
      assert steps[..|steps| - 1][..i] == steps[..i];
    }
  }

  lemma {:induction false} ClientNeverClashes(steps: seq<Step>, more: seq<Step>)
    requires NeverClashes(steps) && ClientSteps(more)
    ensures NeverClashes(steps + more)
  {
    if |more| == 0 {
      assert steps + more == steps;
    } else {
      ClientNeverClashes(steps, more[..|more| - 1]);
      assert (steps + more)[..|steps + more| - 1] == steps + more[..|more| - 1];
    }
  }

  lemma {:induction false} SomeClash(steps: seq<Step>) returns (i: nat)
    requires !NeverClashes(steps)
    ensures i < |steps| && Clashes(Run(steps[..i]), steps[i])
  {
    i := |steps| - 1;
    if !NeverClashes(steps[..|steps| - 1]) {
      i := SomeClash(steps[..|steps| - 1]);
      assert steps[..|steps| - 1][..i] == steps[..i];
    }
  }

  // The other half: from a clash the client's own steps lead to the frame being accepted.

  predicate Listens(s: State, c: nat, kind: Kind) {
    InPhase(s, c, Listening) && s.calls[c].kind == kind
  }

  lemma {:induction false} BeginsUpTo(s: State, c: nat) returns (more: seq<Step>)
    requires LockInv(s) && c >= |s.calls|
    ensures ClientSteps(more)
    ensures var t := Exec(s, more);
            LockInv(t) && InPhase(t, c, Waiting) && t.calls[c].kind == Rpc && t.pipe == s.pipe
    decreases c - |s.calls|
  {
    var t := Next(s, Begin(Rpc));
    more := [Begin(Rpc)];
    ExecOne(s, Begin(Rpc));
    NextKeepsLock(s, Begin(Rpc));
    if c > |s.calls| {
      var others := BeginsUpTo(t, c);
      ExecConcat(s, more, others);
      more := more + others;
    }
  }

  lemma WaitingListens(s: State, c: nat) returns (more: seq<Step>)
    requires LockInv(s) && InPhase(s, c, Waiting) && s.calls[c].kind == Rpc
    ensures ClientSteps(more)
    ensures var t := Exec(s, more); Listens(t, c, Rpc) && t.pipe == s.pipe
  {
    var free := if s.holder == None then [] else [GiveUp(s.holder.value)];
    var t := Exec(s, free);
    if s.holder.Some? {
      ExecOne(s, GiveUp(s.holder.value));
    }
    assert InPhase(t, c, Waiting) && t.holder == None;
    ExecConcat(s, free, [Acquire(c)]);
    ExecOne(t, Acquire(c));
    ExecConcat(s, free + [Acquire(c)], [Write(c)]);
    ExecOne(Next(t, Acquire(c)), Write(c));
    more := free + [Acquire(c)] + [Write(c)];
  }

  function KindOf(s: State, c: nat): Kind {
    if c < |s.calls| then s.calls[c].kind else Rpc
  }

  lemma CanAcceptListens(s: State, c: nat) returns (more: seq<Step>)
    requires LockInv(s) && CanAccept(s, c, [])
    ensures ClientSteps(more)
    ensures var t := Exec(s, more); Listens(t, c, KindOf(s, c)) && t.pipe == s.pipe
  {
    if c >= |s.calls| {
      var begins := BeginsUpTo(s, c);
      var rest := WaitingListens(Exec(s, begins), c);
      ExecConcat(s, begins, rest);
      more := begins + rest;
    } else if s.calls[c].phase == Waiting {
      more := WaitingListens(s, c);
    } else if s.calls[c].phase == Writing {
      ExecOne(s, Write(c));
      more := [Write(c)];
    } else {
      more := [];
    }
  }

  function Reads(c: nat, n: nat): seq<Step> {
    seq(n, _ => Take(c, false))
  }

  lemma ReadsOneMore(s: State, c: nat, n: nat)
    ensures Exec(s, Reads(c, n + 1)) == Next(Exec(s, Reads(c, n)), Take(c, false))
  {
    assert Reads(c, n + 1)[..n] == Reads(c, n);
  }

  lemma ReadOne(s: State, c: nat)
    requires LockInv(s) && InPhase(s, c, Listening) && s.pipe != []
    requires s.calls[c].kind == Rpc ==> !AnswersCall(s.pipe[0].id, c)
    ensures var t := Next(s, Take(c, false)); Listens(t, c, s.calls[c].kind) && t.pipe == s.pipe[1..]
  {
  }

  /** A call reads on as long as no frame ends it. */
  lemma {:induction false} ReadsUntil(s: State, c: nat, n: nat)
    requires LockInv(s) && InPhase(s, c, Listening) && n <= |s.pipe|
    requires forall p :: 0 <= p < n && s.calls[c].kind == Rpc ==> !AnswersCall(s.pipe[p].id, c)
    ensures var t := Exec(s, Reads(c, n)); Listens(t, c, s.calls[c].kind) && t.pipe == s.pipe[n..]
  {
    if n == 0 {
    } else {
      var t := Exec(s, Reads(c, n - 1));
      ReadsUntil(s, c, n - 1);
      ExecKeepsLock(s, Reads(c, n - 1));
      assert t.pipe[0] == s.pipe[n - 1];
      ReadOne(t, c);
      ReadsOneMore(s, c, n - 1);
    }
  }

  lemma {:induction false} FirstFound(pipe: seq<Wire>, c: nat) returns (k: nat)
    requires FoundIn(pipe, c)
    ensures k < |pipe| && AnswersCall(pipe[k].id, c) && forall p :: 0 <= p < k ==> !AnswersCall(pipe[p].id, c)
  {
    var front := pipe[..|pipe| - 1];
    if FoundIn(front, c) {
      k := FirstFound(front, c);
    } else {
      k := |pipe| - 1;
      assert forall p :: 0 <= p < k ==> front[p] == pipe[p];
    }
  }

  lemma AcceptsFirst(s: State, c: nat)
    requires LockInv(s) && InPhase(s, c, Listening) && s.pipe != []
    requires AnswersCall(s.pipe[0].id, c) && s.pipe[0].origin != Some(c)
    ensures !AcceptedOwn(Next(s, Take(c, false)))
  {
    var t := Next(s, Take(c, false));
    assert t.calls[c].accepted == s.calls[c].accepted + [s.pipe[0]];
    assert t.calls[c].accepted[|s.calls[c].accepted|] == s.pipe[0];
    assert !AllFrom(c, t.calls[c].accepted);
  }

  /** The frame that call c accepts while it reads is not its own. */
  lemma AcceptsAt(s: State, c: nat, k: nat)
    requires LockInv(s) && InPhase(s, c, Listening) && k < |s.pipe| && AnswersCall(s.pipe[k].id, c)
    requires forall p :: 0 <= p < k && s.calls[c].kind == Rpc ==> !AnswersCall(s.pipe[p].id, c)
    requires s.pipe[k].origin != Some(c)
    ensures !AcceptedOwn(Exec(s, Reads(c, k + 1)))
  {
    ReadsUntil(s, c, k);
    ExecKeepsLock(s, Reads(c, k));
    ReadsOneMore(s, c, k);
    AcceptsFirst(Exec(s, Reads(c, k)), c);
  }

  /** The frame the call would accept is not its own: the agent's request, or one like it further ahead. */
  lemma ClashFrame(s: State, id: JsonId, c: nat) returns (k: nat)
    requires WrittenInv(s) && AnswersCall(id, c) && CanAccept(s, c, s.pipe)
    ensures var pipe := s.pipe + [Wire(id, None)];
            && k < |pipe| && AnswersCall(pipe[k].id, c) && pipe[k].origin != Some(c)
            && forall p :: 0 <= p < k && KindOf(s, c) == Rpc ==> !AnswersCall(pipe[p].id, c)
  {
    var pipe := s.pipe + [Wire(id, None)];
    k := |s.pipe|;
    if KindOf(s, c) == Rpc {
      assert AnswersCall(pipe[k].id, c);
      k := FirstFound(pipe, c);
      assert k < |s.pipe| ==> AnswersCall(s.pipe[k].id, c);
    }
  }

  lemma ClashAccepted(s: State, step: Step) returns (more: seq<Step>)
    requires LockInv(s) && WrittenInv(s) && Clashes(s, step)
    ensures ClientSteps(more) && !AcceptedOwn(Exec(Next(s, step), more))
  {
    var c: nat :| AnswersCall(step.id, c) && CanAccept(s, c, s.pipe);
    var t := Next(s, step);
    var k := ClashFrame(s, step.id, c);
    var prepare := CanAcceptListens(t, c);
    ExecKeepsLock(t, prepare);
    AcceptsAt(Exec(t, prepare), c, k);
    ExecConcat(t, prepare, Reads(c, k + 1));
    more := prepare + Reads(c, k + 1);
  }

  /** However far the run has got and whatever the client does from there, calls accept only frames
      written in answer to their own request. */
  ghost predicate AcceptsOwnThroughout(steps: seq<Step>) {
    forall i: nat, more :: i <= |steps| && ClientSteps(more) ==> AcceptedOwn(Run(steps[..i] + more))
  }

  lemma ClashBreaks(steps: seq<Step>, i: nat)
    requires i < |steps| && Clashes(Run(steps[..i]), steps[i])
    ensures !AcceptsOwnThroughout(steps)
  {
    RunKeepsLock(steps[..i]);
    RunKeepsWritten(steps[..i]);
    var more := ClashAccepted(Run(steps[..i]), steps[i]);
    RunExtend(steps[..i], steps[i]);
    assert steps[..i] + [steps[i]] == steps[..i + 1];
    ExecConcat(START, steps[..i + 1], more);
  }

  /** Over any run: calls accept only answers to their own requests, throughout, if and only if the agent
      never sends a request whose id looks like an answer to a call that can still accept it. Such an id
      does no harm once the call has ended, before it drains the pipe, or behind its answer. */
  lemma AcceptsOwnIff(steps: seq<Step>)
    ensures NeverClashes(steps) <==> AcceptsOwnThroughout(steps)
  {
    if NeverClashes(steps) {
      forall i: nat, more | i <= |steps| && ClientSteps(more)
        ensures AcceptedOwn(Run(steps[..i] + more))
      {
        PrefixNeverClashes(steps, i);
        ClientNeverClashes(steps[..i], more);
        NeverClashesShields(steps[..i] + more);
      }
    } else {
      var i := SomeClash(steps);
      ClashBreaks(steps, i);
    }
  }

  /** n calls that have begun and not yet acquired the lock. */
  function Begun(n: nat): State {
    START.(msgId := n, calls := seq(n, i requires 0 <= i < n => Call(i + 1, Rpc, Waiting, [], [])))
  }

  lemma {:induction false} RunBegins(steps: seq<Step>)
    requires forall i :: 0 <= i < |steps| ==> steps[i] == Begin(Rpc)
    ensures Run(steps) == Begun(|steps|)
  {
    if |steps| == 0 {
    } else {
      RunBegins(steps[..|steps| - 1]);
      assert Begun(|steps|).calls == Begun(|steps| - 1).calls + [Call(|steps|, Rpc, Waiting, [], [])];
    }
  }

  lemma LastWrites(c: nat) returns (steps: seq<Step>)
    ensures InPhase(Run(steps), c, Listening) && |Run(steps).calls| == c + 1 && Run(steps).pipe == []
    ensures Run(steps).calls[c] == Call(c + 1, Rpc, Listening, [], [])
  {
    var begins := seq(c + 1, i requires 0 <= i < c + 1 => Begin(Rpc));
    RunBegins(begins);
    RunExtend(begins, Acquire(c));
    RunExtend(begins + [Acquire(c)], Write(c));
    steps := begins + [Acquire(c)] + [Write(c)];
  }

  /** A call that listens gets the answer to its request: after the agent responds, its next reads take the
      response, if no frame that looks like one is ahead in the pipe; and _rpc is done with it. */
  lemma AnswerReachesCall(s: State, k: nat) returns (more: seq<Step>)
    requires LockInv(s) && RequestsOk(s) && k < |s.requests| && InPhase(s, s.requests[k].call, Listening)
    requires !FoundIn(s.pipe, s.requests[k].call)
    ensures var c := s.requests[k].call;
            var t := Exec(Next(s, Respond(k)), more);
            && ClientSteps(more) && c < |t.calls|
            && t.calls[c].accepted == s.calls[c].accepted + [Wire(Text(Decimal(s.calls[c].id)), Some(c))]
            && t.calls[c].phase == (if s.calls[c].kind == Rpc then Finished else Listening)
            && t.holder == (if s.calls[c].kind == Rpc then None else Some(c))
  {
    var c, n, t := s.requests[k].call, |s.pipe|, Next(s, Respond(k));
    AgentSteps(s, k, Missing);
    more := Reads(c, n + 1);
    assert forall p :: 0 <= p < n ==> t.pipe[p] == s.pipe[p];
    ReadsUntil(t, c, n);
    ReadsKeepAccepted(t, c, n);
    ReadsOneMore(t, c, n);
    ExecKeepsLock(t, Reads(c, n));
    TakesAnswer(Exec(t, Reads(c, n)), c);
  }

  lemma TakesAnswer(s: State, c: nat)
    requires LockInv(s) && InPhase(s, c, Listening) && s.pipe != [] && AnswersCall(s.pipe[0].id, c)
    ensures var t := Next(s, Take(c, false));
            && c < |t.calls| && t.calls[c].accepted == s.calls[c].accepted + [s.pipe[0]]
            && t.calls[c].phase == (if s.calls[c].kind == Rpc then Finished else Listening)
            && t.holder == (if s.calls[c].kind == Rpc then None else Some(c))
  {
  }

  lemma {:induction false} ReadsKeepAccepted(s: State, c: nat, n: nat)
    requires LockInv(s) && InPhase(s, c, Listening) && n <= |s.pipe|
    requires forall p :: 0 <= p < n ==> !AnswersCall(s.pipe[p].id, c)
    ensures var t := Exec(s, Reads(c, n)); c < |t.calls| && t.calls[c].accepted == s.calls[c].accepted
  {
    if n == 0 {
    } else {
      var t := Exec(s, Reads(c, n - 1));
      ReadsUntil(s, c, n - 1);
      ReadsKeepAccepted(s, c, n - 1);
      ExecKeepsLock(s, Reads(c, n - 1));
      assert t.pipe[0] == s.pipe[n - 1];
      PassesOver(t, c);
      ReadsOneMore(s, c, n - 1);
    }
  }

  lemma PassesOver(s: State, c: nat)
    requires LockInv(s) && InPhase(s, c, Listening) && s.pipe != [] && !AnswersCall(s.pipe[0].id, c)
    ensures c < |Next(s, Take(c, false)).calls| && Next(s, Take(c, false)).calls[c].accepted == s.calls[c].accepted
  {
  }

  /** The readers look at the id before they look at the method: for every id that prints like a message
      id there is a run in which a request of the agent with that id is taken for the response. */
  lemma AgentRequestTakenForAnswer(id: JsonId, c: nat) returns (steps: seq<Step>)
    requires AnswersCall(id, c)
    ensures |Run(steps).calls| == c + 1 && Run(steps).calls[c].accepted == [Wire(id, None)]
  {
    var written := LastWrites(c);
    var asked := written + [AskClient(id)];
    steps := asked + [Take(c, false)];
    RunExtend(written, AskClient(id));
    RunExtend(asked, Take(c, false));
    assert Run(asked).pipe == [Wire(id, None)];
  }

  // ----- Whose chunks a prompt reads -----

  /** Call c is a prompt that has drained the pipe and not yet ended. */
  predicate Prompting(s: State, c: nat) {
    c < |s.calls| && s.calls[c].kind == Prompt && s.calls[c].phase in {Writing, Listening}
  }

  /** The agent sends a notification in the course of another call's request while a prompt has drained
      the pipe and not yet ended. */
  predicate Intrudes(s: State, step: Step) {
    && step.Notify? && step.k < |s.requests|
    && s.holder.Some? && s.requests[step.k].call != s.holder.value && Prompting(s, s.holder.value)
  }

  predicate NeverIntrudes(steps: seq<Step>) {
    |steps| > 0 ==> NeverIntrudes(steps[..|steps| - 1]) && !Intrudes(Run(steps[..|steps| - 1]), steps[|steps| - 1])
  }

  predicate OwnNotes(c: nat, frames: seq<Wire>) {
    forall i :: 0 <= i < |frames| && frames[i].id == Missing ==> OwnOrNone(c, frames[i])
  }

  /** Every notification a prompt has read was sent in the course of its own request, or of none. */
  predicate AllHearOwn(s: State) {
    forall c :: 0 <= c < |s.calls| ==> OwnNotes(c, s.calls[c].heard)
  }

  /** A prompt that has drained the pipe finds no notification of another call in it. */
  ghost predicate DrainedInv(s: State) {
    && AllHearOwn(s)
    && (forall c: nat :: Prompting(s, c) ==> OwnNotes(c, s.pipe))
  }

  lemma EmitKeepsDrained(s: State, frame: Wire)
    requires LockInv(s) && DrainedInv(s)
    requires frame.id == Missing ==> forall c: nat :: Prompting(s, c) ==> OwnOrNone(c, frame)
    ensures DrainedInv(Emit(s, frame))
  {
    forall c: nat | Prompting(s, c)
      ensures OwnNotes(c, s.pipe + [frame])
    {
      assert OwnNotes(c, s.pipe);
    }
  }

  lemma TakeKeepsDrained(s: State, c: nat, isError: bool)
    requires LockInv(s) && DrainedInv(s)
    ensures DrainedInv(Next(s, Take(c, isError)))
  {
    if InPhase(s, c, Listening) && s.pipe != [] {
      assert s.holder == Some(c);
      var t := Next(s, Take(c, isError));
      assert OwnNotes(c, s.calls[c].heard) && (s.calls[c].kind == Prompt ==> OwnNotes(c, s.pipe));
      assert forall d :: 0 <= d < |s.calls| && d != c ==> t.calls[d] == s.calls[d] && !Holds(s.calls[d].phase);
    }
  }

  lemma NextKeepsDrained(s: State, step: Step)
    requires LockInv(s) && DrainedInv(s) && !Intrudes(s, step)
    ensures DrainedInv(Next(s, step))
  {
    match step {
      case Respond(k) =>
        if k < |s.requests| {
          EmitKeepsDrained(s, Wire(Text(Decimal(s.requests[k].id)), Some(s.requests[k].call)));
        }
      case Notify(k) =>
        if k < |s.requests| {
          EmitKeepsDrained(s, Wire(Missing, Some(s.requests[k].call)));
        }
      case Announce => EmitKeepsDrained(s, Wire(Missing, None));
      case AskClient(id) => EmitKeepsDrained(s, Wire(id, None));
      case Take(c, isError) => TakeKeepsDrained(s, c, isError);
      case _ => OthersKeepDrained(s, step);
    }
  }

  lemma OthersKeepDrained(s: State, step: Step)
    requires LockInv(s) && DrainedInv(s)
    requires step.Begin? || step.Acquire? || step.Drain? || step.EndDrain? || step.Write? || step.GiveUp? || step.Restart?
    ensures DrainedInv(Next(s, step))
  {
    var t := Next(s, step);
    assert forall c :: 0 <= c < |t.calls| ==> t.calls[c].heard == if c < |s.calls| then s.calls[c].heard else [];
  }

  lemma {:induction false} QuietRunInv(steps: seq<Step>)
    requires NeverIntrudes(steps)
    ensures DrainedInv(Run(steps))
  {
    if |steps| == 0 {
      assert Run(steps) == START;
    } else {
      var front, last := steps[..|steps| - 1], steps[|steps| - 1];
      QuietRunInv(front);
      RunKeepsLock(front);
      NextKeepsDrained(Run(front), last);
    }
  }

  /** Steps of the client alone: it writes its request, or reads on. */
  predicate ReadsOn(steps: seq<Step>) {
    forall i :: 0 <= i < |steps| ==> steps[i].Write? || steps[i].Take?
  }

  lemma {:induction false} PrefixNeverIntrudes(steps: seq<Step>, i: nat)
    requires NeverIntrudes(steps) && i <= |steps|
    ensures NeverIntrudes(steps[..i])
  {
    if i == |steps| {
      assert steps[..i] == steps;
    } else {
      PrefixNeverIntrudes(steps[..|steps| - 1], i);
      assert steps[..|steps| - 1][..i] == steps[..i];
    }
  }

  lemma {:induction false} ReadingNeverIntrudes(steps: seq<Step>, more: seq<Step>)
    requires NeverIntrudes(steps) && ReadsOn(more)
    ensures NeverIntrudes(steps + more)
  {
    if |more| == 0 {
      assert steps + more == steps;
    } else {
      ReadingNeverIntrudes(steps, more[..|more| - 1]);
      assert (steps + more)[..|steps + more| - 1] == steps + more[..|more| - 1];
    }
  }

  lemma {:induction false} SomeIntrusion(steps: seq<Step>) returns (i: nat)
    requires !NeverIntrudes(steps)
    ensures i < |steps| && Intrudes(Run(steps[..i]), steps[i])
  {
    i := |steps| - 1;
    if !NeverIntrudes(steps[..|steps| - 1]) {
      i := SomeIntrusion(steps[..|steps| - 1]);
      assert steps[..|steps| - 1][..i] == steps[..i];
    }
  }

  lemma PromptReads(s: State, c: nat)
    requires Listens(s, c, Prompt) && s.pipe != []
    ensures var t := Next(s, Take(c, false));
            && Listens(t, c, Prompt) && t.pipe == s.pipe[1..]
            && (s.pipe[0].id == Missing ==> t.calls[c].heard == s.calls[c].heard + [s.pipe[0]])
  {
    assert |Decimal(s.calls[c].id)| > 0;
  }

  /** A prompt that reads its pipe empty hears a notification at the end of it. */
  lemma {:induction false} ReadsMany(s: State, c: nat, n: nat)
    requires Listens(s, c, Prompt) && n <= |s.pipe|
    ensures var t := Exec(s, Reads(c, n));
            && Listens(t, c, Prompt) && t.pipe == s.pipe[n..]
            && (n > 0 && s.pipe[n - 1].id == Missing ==> s.pipe[n - 1] in t.calls[c].heard)
  {
    if n == 0 {
    } else {
      var before := Exec(s, Reads(c, n - 1));
      ReadsMany(s, c, n - 1);
      PromptReads(before, c);
      assert Reads(c, n)[..n - 1] == Reads(c, n - 1);
      assert before.pipe[0] == s.pipe[n - 1];
    }
  }

  /** After an intrusion the client's own next steps are enough for the foreign notification to be heard. */
  lemma IntrusionHeard(s: State, step: Step) returns (more: seq<Step>)
    requires Intrudes(s, step)
    ensures ReadsOn(more) && !AllHearOwn(Exec(Next(s, step), more))
  {
    var c, t := s.holder.value, Next(s, step);
    var frame := t.pipe[|t.pipe| - 1];
    assert frame == Wire(Missing, Some(s.requests[step.k].call)) && !OwnOrNone(c, frame);
    if s.calls[c].phase == Writing {
      more := [Write(c)] + Reads(c, |t.pipe|);
      ExecConcat(t, [Write(c)], Reads(c, |t.pipe|));
      ExecOne(t, Write(c));
      ReadsMany(Next(t, Write(c)), c, |t.pipe|);
    } else {
      more := Reads(c, |t.pipe|);
      ReadsMany(t, c, |t.pipe|);
    }
    HeardForeign(Exec(t, more), c, frame);
  }

  lemma HeardForeign(s: State, c: nat, frame: Wire)
    requires c < |s.calls| && frame in s.calls[c].heard && frame.id == Missing && !OwnOrNone(c, frame)
    ensures !AllHearOwn(s)
  {
    assert !OwnNotes(c, s.calls[c].heard);
  }

  lemma QuietHears(steps: seq<Step>, i: nat, more: seq<Step>)
    requires NeverIntrudes(steps) && i <= |steps| && ReadsOn(more)
    ensures AllHearOwn(Run(steps[..i] + more))
  {
    PrefixNeverIntrudes(steps, i);
    ReadingNeverIntrudes(steps[..i], more);
    QuietRunInv(steps[..i] + more);
  }

  /** However far the run has got and however the client reads on from there, prompts hear only
      notifications of their own request or of none. */
  ghost predicate HearsOwnThroughout(steps: seq<Step>) {
    forall i: nat, more :: i <= |steps| && ReadsOn(more) ==> AllHearOwn(Run(steps[..i] + more))
  }

  lemma IntrusionBreaks(steps: seq<Step>, i: nat)
    requires i < |steps| && Intrudes(Run(steps[..i]), steps[i])
    ensures !HearsOwnThroughout(steps)
  {
    var more := IntrusionHeard(Run(steps[..i]), steps[i]);
    RunExtend(steps[..i], steps[i]);
    assert steps[..i] + [steps[i]] == steps[..i + 1];
    ExecConcat(START, steps[..i + 1], more);
  }

  /** Over any run: prompts hear their own, throughout, if and only if the agent never sends a
      notification of another call to a prompt that has drained the pipe. Late responses and
      notifications that come before the drain do no harm, which is what draining is for. */
  lemma PromptHearsOwnIff(steps: seq<Step>)
    ensures NeverIntrudes(steps) <==> HearsOwnThroughout(steps)
  {
    if NeverIntrudes(steps) {
      forall i: nat, more | i <= |steps| && ReadsOn(more)
        ensures AllHearOwn(Run(steps[..i] + more))
      {
        QuietHears(steps, i, more);
      }
    } else {
      var i := SomeIntrusion(steps);
      IntrusionBreaks(steps, i);
    }
  }

  lemma TwoPrompts() returns (steps: seq<Step>)
    ensures var s := Run(steps);
            && s.calls == [Call(1, Prompt, Finished, [], []), Call(2, Prompt, Listening, [], [])]
            && s.requests == [Request(1, 0), Request(2, 1)] && s.pipe == []
  {
    var first := [Begin(Prompt)] + [Acquire(0)] + [EndDrain(0)] + [Write(0)];
    steps := first + [GiveUp(0)] + [Begin(Prompt)] + [Acquire(1)] + [EndDrain(1)] + [Write(1)];
    FirstPrompt();
    NextPrompt(first);
    SecondPrompt(first + [GiveUp(0)] + [Begin(Prompt)]);
  }

  lemma NextPrompt(steps: seq<Step>)
    requires Run(steps) == State(1, Some(0), [Call(1, Prompt, Listening, [], [])], [Request(1, 0)], [], [], [])
    ensures Run(steps + [GiveUp(0)] + [Begin(Prompt)])
         == State(2, None, [Call(1, Prompt, Finished, [], []), Call(2, Prompt, Waiting, [], [])], [Request(1, 0)], [], [], [])
  {
    RunExtend(steps, GiveUp(0));
    RunExtend(steps + [GiveUp(0)], Begin(Prompt));
  }

  lemma SecondPrompt(steps: seq<Step>)
    requires Run(steps)
          == State(2, None, [Call(1, Prompt, Finished, [], []), Call(2, Prompt, Waiting, [], [])], [Request(1, 0)], [], [], [])
    ensures var s := Run(steps + [Acquire(1)] + [EndDrain(1)] + [Write(1)]);
            && s.calls == [Call(1, Prompt, Finished, [], []), Call(2, Prompt, Listening, [], [])]
            && s.requests == [Request(1, 0), Request(2, 1)] && s.pipe == []
  {
    RunExtend(steps, Acquire(1));
    RunExtend(steps + [Acquire(1)], EndDrain(1));
    RunExtend(steps + [Acquire(1)] + [EndDrain(1)], Write(1));
  }

  lemma FirstPrompt()
    ensures var s := Run([Begin(Prompt)] + [Acquire(0)] + [EndDrain(0)] + [Write(0)]);
            s == State(1, Some(0), [Call(1, Prompt, Listening, [], [])], [Request(1, 0)], [], [], [])
  {
    assert [] + [Begin(Prompt)] == [Begin(Prompt)];
    RunExtend([], Begin(Prompt));
    RunExtend([Begin(Prompt)], Acquire(0));
    RunExtend([Begin(Prompt)] + [Acquire(0)], EndDrain(0));
    RunExtend([Begin(Prompt)] + [Acquire(0)] + [EndDrain(0)], Write(0));
  }

  /** Notifications carry no id, so a late one for a prompt that has given up, sent after the drain, is
      read as the next prompt's own. */
  lemma LateChunkHeard() returns (steps: seq<Step>)
    ensures |Run(steps).calls| == 2 && Run(steps).calls[1].heard == [Wire(Missing, Some(0))]
  {
    var prompts := TwoPrompts();
    steps := prompts + [Notify(0)] + [Take(1, false)];
    RunExtend(prompts, Notify(0));
    RunExtend(prompts + [Notify(0)], Take(1, false));
    assert |Decimal(2)| > 0;
    assert Run(prompts + [Notify(0)]).pipe == [Wire(Missing, Some(0))];
  }

  // ----- The code between two awaits -----

  /** ACPProcess: the fields the calls share, and the local variables of the calls under way. */
  class AcpProcess {
    var msgId: nat
    var readLock: Option<nat>
    var calls: seq<Call>
    var stdout: seq<Wire>
    ghost var requests: seq<Request>
    ghost var emitted: seq<Wire>
    ghost var log: seq<Taken>

    ghost function Snapshot(): State
      reads this
    {
      State(msgId, readLock, calls, requests, stdout, emitted, log)
    }

    constructor ()
      ensures Snapshot() == START
    {
      msgId, readLock, calls, stdout := 0, None, [], [];
      requests, emitted, log := [], [], [];
    }

    /** The first statements of _rpc, _prompt_parts and _prompt_parts_stream. */
    method BeginCall(kind: Kind) returns (call: nat, id: string)
      requires LockInv(Snapshot())
      modifies this
      ensures Snapshot() == Next(old(Snapshot()), Begin(kind))
      ensures call == |old(calls)| && id == Decimal(call + 1)
      ensures calls == old(calls) + [Call(call + 1, kind, Waiting, [], [])] && msgId == old(msgId) + 1
      ensures stdout == old(stdout) && readLock == old(readLock)
    {
      msgId := msgId + 1;
      id := Decimal(msgId);
      call := |calls|;
      calls := calls + [Call(msgId, kind, Waiting, [], [])];
    }

    method AcquireLock(call: nat)
      requires InPhase(Snapshot(), call, Waiting) && readLock == None
      modifies this
      ensures Snapshot() == Next(old(Snapshot()), Acquire(call))
      ensures readLock == Some(call) && stdout == old(stdout)
      ensures calls == old(calls)[call := old(calls)[call].(phase := if old(calls)[call].kind == Rpc then Writing else Draining)]
    {
      readLock := Some(call);
      calls := calls[call := calls[call].(phase := if calls[call].kind == Rpc then Writing else Draining)];
    }

    /** One turn of the drain loop that finds a frame. */
    method DropStale(call: nat)
      requires InPhase(Snapshot(), call, Draining) && stdout != []
      modifies this
      ensures Snapshot() == Next(old(Snapshot()), Drain(call))
      ensures stdout == old(stdout)[1..] && calls == old(calls) && readLock == old(readLock)
    {
      log := log + [Taken(stdout[0], Some(call))];
      stdout := stdout[1..];
    }

    /** readline times out when no frame is there. */
    method StopDraining(call: nat)
      requires InPhase(Snapshot(), call, Draining) && stdout == []
      modifies this
      ensures Snapshot() == Next(old(Snapshot()), EndDrain(call))
      ensures calls == old(calls)[call := old(calls)[call].(phase := Writing)] && readLock == old(readLock)
    {
      calls := calls[call := calls[call].(phase := Writing)];
    }

    method WriteRequest(call: nat)
      requires InPhase(Snapshot(), call, Writing)
      modifies this
      ensures Snapshot() == Next(old(Snapshot()), Write(call))
      ensures calls == old(calls)[call := old(calls)[call].(phase := Listening)]
      ensures requests == old(requests) + [Request(old(calls)[call].id, call)]
      ensures stdout == old(stdout) && readLock == old(readLock)
    {
      requests := requests + [Request(calls[call].id, call)];
      calls := calls[call := calls[call].(phase := Listening)];
    }

    /** One turn of a read loop that finds a frame: _rpc is done with its answer, the prompt readers
        only with an error. */
    method ReadFrame(call: nat, isError: bool) returns (answered: bool)
      requires InPhase(Snapshot(), call, Listening) && stdout != []
      modifies this
      ensures Snapshot() == Next(old(Snapshot()), Take(call, isError))
      ensures answered <==> old(stdout)[0].id in {Text(Decimal(old(calls)[call].id)), Number(old(calls)[call].id)}
      ensures stdout == old(stdout)[1..]
      ensures var was, frame := old(calls)[call], old(stdout)[0];
              && calls == old(calls)[call := calls[call]]
              && (answered ==>
                    calls[call] == was.(accepted := was.accepted + [frame],
                                        phase := if was.kind == Rpc || isError then Finished else Listening))
              && (!answered ==>
                    calls[call] == if was.kind == Prompt && frame.id == Missing then was.(heard := was.heard + [frame]) else was)
      ensures readLock == if calls[call].phase == Finished then None else old(readLock)
    {
      var frame := stdout[0];
      MatchesStringOrNumber(frame.id, calls[call].id);
      log := log + [Taken(frame, Some(call))];
      stdout := stdout[1..];
      answered := Matches(frame.id, calls[call].id);
      if answered {
        var taken := calls[call].(accepted := calls[call].accepted + [frame]);
        if taken.kind == Rpc || isError {
          calls := calls[call := taken.(phase := Finished)];
          readLock := None;
        } else {
          calls := calls[call := taken];
        }
      } else {
        var heard := calls[call].heard;
        if calls[call].kind == Prompt && frame.id == Missing {
          heard := heard + [frame];
        }
        assert heard == calls[call].heard + Heard(calls[call].kind, frame);
        calls := calls[call := calls[call].(heard := heard)];
      }
    }

    /** The lock is given back, by break, return or exception. */
    method Release(call: nat)
      requires call < |calls| && readLock == Some(call)
      modifies this
      ensures Snapshot() == Next(old(Snapshot()), GiveUp(call))
      ensures calls == old(calls)[call := old(calls)[call].(phase := Finished)] && readLock == None && stdout == old(stdout)
    {
      calls := calls[call := calls[call].(phase := Finished)];
      readLock := None;
    }
  }
}
