/** src/acp/proxy.py: the two readers of a session/prompt exchange, over one trace of reads.

    Both readers send the same request and then read lines until a stop condition holds. The batch
    reader (_prompt_parts) keeps what it collects and returns it at the end; the streaming reader
    (_prompt_parts_stream) yields each chunk as it comes. */
module AcpReaders {
  import opened Numerals
  import opened Options

  // ----- Message ids -----

  /** The `id` member of a JSON object, as far as str() tells its values apart. */
  datatype JsonId = Missing | Null | Bool(b: bool) | Number(n: int) | Text(s: string)

  /** The text of a message's id; empty when it has none. */
  function IdText(id: JsonId): string {
    match id
    case Missing => ""
    case Null => "None"
    case Bool(b) => if b then "True" else "False"
    case Number(n) => IntText(n)
    case Text(s) => s
  }

  /** A message answers request n when its id prints like n. */
  predicate Matches(id: JsonId, n: nat) {
    IdText(id) == Decimal(n)
  }

  /** Section 5 of the JSON-RPC 2.0 specification wants the response to carry the id of the request,
      which is the string Decimal(n). The reader accepts that id, the number n, and nothing else. */
  lemma MatchesStringOrNumber(id: JsonId, n: nat)
    ensures Matches(id, n) <==> id == Text(Decimal(n)) || id == Number(n)
  {
    assert "None"[0] == 'N' && "True"[0] == 'T' && "False"[0] == 'F';
    match id {
      case Number(k) =>
        if k >= 0 && Matches(id, n) {
          DecimalInjective(k, n);
        } else if k < 0 {
          assert IdText(id)[0] == '-';
        }
      case _ =>
    }
  }

  // ----- Reads -----

  /** The value of `result`: a dict, empty or not, or something else that is falsy or truthy. */
  datatype Answer = EmptyDict | FullDict | OtherFalsy | OtherTruthy

  predicate Truthy(answer: Answer) {
    answer == FullDict || answer == OtherTruthy
  }

  /** What a message says as an event; Broken is an update that is not shaped like one, on which the
      readers raise. */
  datatype Event = Chunk(text: string) | UsageUpdate | Ignored | Broken

  datatype Frame =
    | Garbage                 // not JSON, or a falsy JSON value
    | NotAnObject             // any other JSON value without members
    | Message(id: JsonId, answer: Answer, isError: bool, event: Event)

  /** One turn of a read loop: the clock has run out, readline timed out, or it returned something. */
  datatype Read = ClockOut | Timeout | Eof | Line(frame: Frame)

  datatype Stop = OutOfTime | Quiet | EndOfInput | UsageSeen | Raised

  /** How a reader ended: why, after how many reads, and with which chunks. */
  datatype Reading = Reading(chunks: seq<string>, used: nat, stop: Stop)

  predicate Answers(n: nat, read: Read) {
    read.Line? && read.frame.Message? && Matches(read.frame.id, n)
  }

  predicate IsChunk(n: nat, read: Read) {
    read.Line? && read.frame.Message? && !Matches(read.frame.id, n) && read.frame.event.Chunk?
  }

  predicate Raises(n: nat, read: Read) {
    && read.Line?
    && match read.frame
       case Garbage => false
       case NotAnObject => true
       case Message(id, _, isError, event) => if Matches(id, n) then isError else event == Broken
  }

  predicate IsUsage(n: nat, read: Read) {
    read.Line? && read.frame.Message? && !Matches(read.frame.id, n) && read.frame.event == UsageUpdate
  }

  /** The chunks among the reads, in order. */
  function ChunksOf(n: nat, trace: seq<Read>): seq<string> {
    if |trace| == 0 then []
    else
      var last := trace[|trace| - 1];
      ChunksOf(n, trace[..|trace| - 1]) + (if IsChunk(n, last) then [last.frame.event.text] else [])
  }

  // ----- The state of a reader after some reads -----

  /** The result of the last answer read, or the empty dict the batch reader starts with. */
  function LastAnswer(n: nat, trace: seq<Read>): Answer {
    if |trace| == 0 then EmptyDict
    else if Answers(n, trace[|trace| - 1]) then trace[|trace| - 1].frame.answer
    else LastAnswer(n, trace[..|trace| - 1])
  }

  predicate Answered(n: nat, trace: seq<Read>) {
    |trace| > 0 && (Answers(n, trace[|trace| - 1]) || Answered(n, trace[..|trace| - 1]))
  }

  /** Why the batch reader stops at `next`, if it does, when its response and chunks are these. */
  function BatchStop(n: nat, response: Answer, chunks: seq<string>, next: Read): Option<Stop> {
    if next == ClockOut then Some(OutOfTime)
    else if next == Eof then Some(EndOfInput)
    else if next == Timeout && Truthy(response) then Some(Quiet)
    else if Raises(n, next) then Some(Raised)
    else if IsUsage(n, next) && Truthy(response) && chunks != [] then Some(UsageSeen)
    else None
  }

  function StreamStop(n: nat, responseDone: bool, next: Read): Option<Stop> {
    if next == ClockOut then Some(OutOfTime)
    else if next == Eof then Some(EndOfInput)
    else if next == Timeout && responseDone then Some(Quiet)
    else if Raises(n, next) then Some(Raised)
    else if IsUsage(n, next) && responseDone then Some(UsageSeen)
    else None
  }

  function BatchStopAt(n: nat, trace: seq<Read>, i: nat): Option<Stop>
    requires i < |trace|
  {
    BatchStop(n, LastAnswer(n, trace[..i]), ChunksOf(n, trace[..i]), trace[i])
  }

  function StreamStopAt(n: nat, trace: seq<Read>, i: nat): Option<Stop>
    requires i < |trace|
  {
    StreamStop(n, Answered(n, trace[..i]), trace[i])
  }

  /** The batch reader of request n ends like this on the trace. A trace that ends is a clock that has
      run out. */
  ghost predicate BatchReads(n: nat, trace: seq<Read>, r: Reading) {
    && r.used <= |trace|
    && r.chunks == ChunksOf(n, trace[..r.used])
    && (forall i: nat :: i < r.used ==> BatchStopAt(n, trace, i) == None)
    && (if r.used < |trace| then BatchStopAt(n, trace, r.used) == Some(r.stop) else r.stop == OutOfTime)
  }

  ghost predicate StreamReads(n: nat, trace: seq<Read>, r: Reading) {
    && r.used <= |trace|
    && r.chunks == ChunksOf(n, trace[..r.used])
    && (forall i: nat :: i < r.used ==> StreamStopAt(n, trace, i) == None)
    && (if r.used < |trace| then StreamStopAt(n, trace, r.used) == Some(r.stop) else r.stop == OutOfTime)
  }

  // ----- A reading on the fields of its frames -----

  lemma PassedOnFields(n: nat, trace: seq<Read>, i: nat)
    requires i < |trace| && (BatchStopAt(n, trace, i) == None || StreamStopAt(n, trace, i) == None)
    ensures trace[i] != ClockOut && trace[i] != Eof && trace[i] != Line(NotAnObject)
    ensures trace[i].Line? && trace[i].frame.Message? ==>
              if trace[i].frame.id in {Text(Decimal(n)), Number(n)} then !trace[i].frame.isError
              else trace[i].frame.event != Broken
  {
    if trace[i].Line? && trace[i].frame.Message? {
      MatchesStringOrNumber(trace[i].frame.id, n);
    }
  }

  /** What neither reader gets past, and what stops it at each read that does: the clock, the end of input,
      a quiet pipe, a usage_update, or an exception, which is raised by a JSON value that is not an object,
      by an error in the answer, and by a broken update of another id. */
  lemma StopsOnFields(n: nat, trace: seq<Read>, r: Reading)
    requires BatchReads(n, trace, r) || StreamReads(n, trace, r)
    ensures forall i :: 0 <= i < r.used ==> trace[i] != ClockOut && trace[i] != Eof && trace[i] != Line(NotAnObject)
    ensures forall i :: 0 <= i < r.used && trace[i].Line? && trace[i].frame.Message? ==>
              if trace[i].frame.id in {Text(Decimal(n)), Number(n)} then !trace[i].frame.isError
              else trace[i].frame.event != Broken
    ensures r.used == |trace| ==> r.stop == OutOfTime
    ensures r.used < |trace| ==>
              match trace[r.used]
              case ClockOut => r.stop == OutOfTime
              case Timeout => r.stop == Quiet
              case Eof => r.stop == EndOfInput
              case Line(Garbage) => false
              case Line(NotAnObject) => r.stop == Raised
              case Line(Message(id, _, isError, event)) =>
                if id in {Text(Decimal(n)), Number(n)} then isError && r.stop == Raised
                else (event == Broken && r.stop == Raised) || (event == UsageUpdate && r.stop == UsageSeen)
  {
    forall i: nat | i < r.used
      ensures trace[i] != ClockOut && trace[i] != Eof && trace[i] != Line(NotAnObject)
      ensures trace[i].Line? && trace[i].frame.Message? ==>
                if trace[i].frame.id in {Text(Decimal(n)), Number(n)} then !trace[i].frame.isError
                else trace[i].frame.event != Broken
    {
      assert BatchReads(n, trace, r) ==> BatchStopAt(n, trace, i) == None;
      PassedOnFields(n, trace, i);
    }
    if r.used < |trace| && trace[r.used].Line? && trace[r.used].frame.Message? {
      MatchesStringOrNumber(trace[r.used].frame.id, n);
    }
  }

  /** An answer is a message with the id of the request, as a text or as a number. */
  lemma AnswersOnFields(n: nat, read: Read)
    ensures Answers(n, read) <==>
              read.Line? && read.frame.Message? && read.frame.id in {Text(Decimal(n)), Number(n)}
  {
    if read.Line? && read.frame.Message? {
      MatchesStringOrNumber(read.frame.id, n);
    }
  }

  /** The answer the batch reader has in hand is that of the last message with the request's id, read
      before the end of the trace, or the empty dict when there is none; the streaming reader knows
      whether there is one. */
  lemma {:induction false} LastAnswerOnFields(n: nat, trace: seq<Read>) returns (last: nat)
    ensures last <= |trace|
    ensures forall i :: 0 <= i < |trace| && trace[i].Line? && trace[i].frame.Message? ==>
              trace[i].frame.id in {Text(Decimal(n)), Number(n)} ==> last < |trace| && i <= last
    ensures last < |trace| ==>
              && trace[last].Line? && trace[last].frame.Message? && trace[last].frame.id in {Text(Decimal(n)), Number(n)}
              && LastAnswer(n, trace) == trace[last].frame.answer && Answered(n, trace)
    ensures last == |trace| ==> LastAnswer(n, trace) == EmptyDict && !Answered(n, trace)
  {
    if |trace| == 0 {
      last := 0;
    } else {
      var front := trace[..|trace| - 1];
      AnswersOnFields(n, trace[|trace| - 1]);
      if Answers(n, trace[|trace| - 1]) {
        last := |trace| - 1;
      } else {
        last := LastAnswerOnFields(n, front);
        last := if last == |front| then |trace| else last;
        assert forall i :: 0 <= i < |front| ==> front[i] == trace[i];
      }
    }
  }

  lemma BatchPasses(n: nat, trace: seq<Read>, i: nat)
    requires i < |trace| && BatchStopAt(n, trace, i) == None
    ensures trace[i] == Timeout ==> LastAnswer(n, trace[..i]) in {EmptyDict, OtherFalsy}
    ensures trace[i].Line? && trace[i].frame.Message? && trace[i].frame.event == UsageUpdate ==>
              || trace[i].frame.id in {Text(Decimal(n)), Number(n)}
              || LastAnswer(n, trace[..i]) in {EmptyDict, OtherFalsy} || ChunksOf(n, trace[..i]) == []
  {
    if trace[i].Line? && trace[i].frame.Message? {
      MatchesStringOrNumber(trace[i].frame.id, n);
    }
  }

  lemma BatchStopsOn(n: nat, trace: seq<Read>, r: Reading)
    requires BatchReads(n, trace, r)
    ensures r.used < |trace| && r.stop == Quiet ==> LastAnswer(n, trace[..r.used]) in {FullDict, OtherTruthy}
    ensures r.stop == UsageSeen ==> LastAnswer(n, trace[..r.used]) in {FullDict, OtherTruthy} && r.chunks != []
  {
  }

  /** The batch reader waits at a quiet pipe, and reads past a usage_update, exactly while its answer is
      falsy, or, at the update, no chunk has come. */
  lemma BatchWaits(n: nat, trace: seq<Read>, r: Reading)
    requires BatchReads(n, trace, r)
    ensures forall i :: 0 <= i < r.used && trace[i] == Timeout ==> LastAnswer(n, trace[..i]) in {EmptyDict, OtherFalsy}
    ensures r.used < |trace| && r.stop == Quiet ==> LastAnswer(n, trace[..r.used]) in {FullDict, OtherTruthy}
    ensures forall i :: 0 <= i < r.used && trace[i].Line? && trace[i].frame.Message? ==>
              trace[i].frame.event == UsageUpdate ==>
                || trace[i].frame.id in {Text(Decimal(n)), Number(n)}
                || LastAnswer(n, trace[..i]) in {EmptyDict, OtherFalsy} || ChunksOf(n, trace[..i]) == []
    ensures r.stop == UsageSeen ==> LastAnswer(n, trace[..r.used]) in {FullDict, OtherTruthy} && r.chunks != []
  {
    BatchStopsOn(n, trace, r);
    forall i: nat | i < r.used
      ensures trace[i] == Timeout ==> LastAnswer(n, trace[..i]) in {EmptyDict, OtherFalsy}
      ensures trace[i].Line? && trace[i].frame.Message? && trace[i].frame.event == UsageUpdate ==>
                || trace[i].frame.id in {Text(Decimal(n)), Number(n)}
                || LastAnswer(n, trace[..i]) in {EmptyDict, OtherFalsy} || ChunksOf(n, trace[..i]) == []
    {
      assert BatchStopAt(n, trace, i) == None;
      BatchPasses(n, trace, i);
    }
  }

  /** The streaming reader does so exactly before the first answer, whatever that is. */
  lemma StreamWaits(n: nat, trace: seq<Read>, r: Reading)
    requires StreamReads(n, trace, r)
    ensures forall i :: 0 <= i < r.used && trace[i] == Timeout ==> !Answered(n, trace[..i])
    ensures r.used < |trace| && r.stop == Quiet ==> Answered(n, trace[..r.used])
    ensures forall i :: 0 <= i < r.used && trace[i].Line? && trace[i].frame.Message? && trace[i].frame.event == UsageUpdate ==>
              trace[i].frame.id in {Text(Decimal(n)), Number(n)} || !Answered(n, trace[..i])
    ensures r.stop == UsageSeen ==> Answered(n, trace[..r.used])
  {
    StopsOnFields(n, trace, r);
    forall i | 0 <= i < r.used && trace[i].Line? && trace[i].frame.Message? && trace[i].frame.event == UsageUpdate
      ensures trace[i].frame.id in {Text(Decimal(n)), Number(n)} || !Answered(n, trace[..i])
    {
      MatchesStringOrNumber(trace[i].frame.id, n);
      assert StreamStopAt(n, trace, i) == None;
    }
    forall i | 0 <= i < r.used && trace[i] == Timeout
      ensures !Answered(n, trace[..i])
    {
      assert StreamStopAt(n, trace, i) == None;
    }
  }

  /** The chunks are the texts of the agent_message_chunk updates among the messages of other ids, in order. */
  lemma ChunksOnFields(n: nat, trace: seq<Read>, next: Read)
    ensures ChunksOf(n, []) == []
    ensures ChunksOf(n, trace + [next])
         == ChunksOf(n, trace)
            + match next
              case Line(Message(id, _, _, Chunk(text))) => (if id in {Text(Decimal(n)), Number(n)} then [] else [text])
              case _ => []
  {
    assert (trace + [next])[..|trace|] == trace;
    if next.Line? && next.frame.Message? {
      MatchesStringOrNumber(next.frame.id, n);
    }
  }

  // ----- The two readers compared -----

  lemma {:induction false} TruthyMeansAnswered(n: nat, trace: seq<Read>)
    requires Truthy(LastAnswer(n, trace))
    ensures Answered(n, trace)
  {
    if |trace| > 0 && !Answers(n, trace[|trace| - 1]) {
      TruthyMeansAnswered(n, trace[..|trace| - 1]);
    }
  }

  /** Wherever the batch reader would stop, the streaming reader stops too, for the same reason. */
  lemma StreamStopsFirst(n: nat, trace: seq<Read>, i: nat)
    requires i < |trace|
    ensures BatchStopAt(n, trace, i).Some? ==> StreamStopAt(n, trace, i) == BatchStopAt(n, trace, i)
  {
    if Truthy(LastAnswer(n, trace[..i])) {
      TruthyMeansAnswered(n, trace[..i]);
    }
  }

  lemma {:induction false} ChunksConcat(n: nat, a: seq<Read>, b: seq<Read>)
    ensures ChunksOf(n, a + b) == ChunksOf(n, a) + ChunksOf(n, b)
  {
    if |b| == 0 {
      assert a + b == a;
    } else {
      assert (a + b)[..|a + b| - 1] == a + b[..|b| - 1];
      ChunksConcat(n, a, b[..|b| - 1]);
    }
  }

  lemma {:induction false} NoChunksIff(n: nat, trace: seq<Read>)
    ensures ChunksOf(n, trace) == [] <==> forall i :: 0 <= i < |trace| ==> !IsChunk(n, trace[i])
  {
    if |trace| == 0 {
    } else {
      var front := trace[..|trace| - 1];
      NoChunksIff(n, front);
      assert forall i :: 0 <= i < |front| ==> trace[i] == front[i];
      assert forall i :: 0 <= i < |trace| ==> i < |front| || trace[i] == trace[|trace| - 1];
    }
  }

  /** On any one trace the streaming reader stops no later, so what it yields is a prefix of what the
      batch reader collects; the rest is exactly the chunks between the two stops. */
  lemma StreamIsPrefixOfBatch(n: nat, trace: seq<Read>, batch: Reading, stream: Reading)
    requires BatchReads(n, trace, batch) && StreamReads(n, trace, stream)
    ensures stream.used <= batch.used
    ensures batch.chunks == stream.chunks + ChunksOf(n, trace[stream.used..batch.used])
    ensures batch.chunks == stream.chunks <==>
              forall i :: stream.used <= i < batch.used ==> !IsChunk(n, trace[i])
  {
    if batch.used < |trace| {
      StreamStopsFirst(n, trace, batch.used);
    }
    ChunksBetween(n, trace, stream.used, batch.used);
  }

  lemma ChunksBetween(n: nat, trace: seq<Read>, i: nat, j: nat)
    requires i <= j <= |trace|
    ensures ChunksOf(n, trace[..j]) == ChunksOf(n, trace[..i]) + ChunksOf(n, trace[i..j])
    ensures ChunksOf(n, trace[i..j]) == [] <==> forall k :: i <= k < j ==> !IsChunk(n, trace[k])
  {
    var between := trace[i..j];
    assert trace[..j] == trace[..i] + between;
    ChunksConcat(n, trace[..i], between);
    NoChunksIff(n, between);
    assert forall k :: i <= k < j ==> trace[k] == between[k - i];
    assert forall k :: 0 <= k < |between| ==> between[k] == trace[i + k];
  }

  lemma {:induction false} AnsweredTruthy(n: nat, trace: seq<Read>)
    requires forall i :: 0 <= i < |trace| && Answers(n, trace[i]) ==> Truthy(trace[i].frame.answer)
    ensures Answered(n, trace) ==> Truthy(LastAnswer(n, trace))
  {
    if |trace| > 0 && !Answers(n, trace[|trace| - 1]) {
      AnsweredTruthy(n, trace[..|trace| - 1]);
    }
  }

  lemma StopsTogether(n: nat, trace: seq<Read>, i: nat, stop: Stop)
    requires i < |trace| && StreamStopAt(n, trace, i) == Some(stop)
    requires forall j :: 0 <= j < i && Answers(n, trace[j]) ==> Truthy(trace[j].frame.answer)
    requires stop == UsageSeen ==> ChunksOf(n, trace[..i]) != []
    ensures BatchStopAt(n, trace, i) == Some(stop)
  {
    AnsweredTruthy(n, trace[..i]);
  }

  /** When every answer read is a non-empty result, and the streaming reader does not stop at a
      usage_update before any chunk, both readers stop at the same read with the same chunks. */
  lemma ReadersAgree(n: nat, trace: seq<Read>, batch: Reading, stream: Reading)
    requires BatchReads(n, trace, batch) && StreamReads(n, trace, stream)
    requires forall i :: 0 <= i < stream.used && Answers(n, trace[i]) ==> Truthy(trace[i].frame.answer)
    requires stream.stop == UsageSeen ==> stream.chunks != []
    ensures batch == stream
  {
    StreamIsPrefixOfBatch(n, trace, batch, stream);
    if stream.used < |trace| {
      StopsTogether(n, trace, stream.used, stream.stop);
    }
  }

  // ----- On the trace alone -----

  function BatchEnd(n: nat, trace: seq<Read>, from: nat): (end: nat)
    requires from <= |trace|
    ensures from <= end <= |trace| && (end < |trace| ==> BatchStopAt(n, trace, end).Some?)
    ensures forall i: nat :: from <= i < end ==> BatchStopAt(n, trace, i) == None
    decreases |trace| - from
  {
    if from == |trace| || BatchStopAt(n, trace, from).Some? then from else BatchEnd(n, trace, from + 1)
  }

  function StreamEnd(n: nat, trace: seq<Read>, from: nat): (end: nat)
    requires from <= |trace|
    ensures from <= end <= |trace| && (end < |trace| ==> StreamStopAt(n, trace, end).Some?)
    ensures forall i: nat :: from <= i < end ==> StreamStopAt(n, trace, i) == None
    decreases |trace| - from
  {
    if from == |trace| || StreamStopAt(n, trace, from).Some? then from else StreamEnd(n, trace, from + 1)
  }

  /** The one way in which each reader can end on a trace. */
  function BatchReading(n: nat, trace: seq<Read>): (r: Reading)
    ensures BatchReads(n, trace, r)
  {
    var end := BatchEnd(n, trace, 0);
    Reading(ChunksOf(n, trace[..end]), end, if end < |trace| then BatchStopAt(n, trace, end).value else OutOfTime)
  }

  function StreamReading(n: nat, trace: seq<Read>): (r: Reading)
    ensures StreamReads(n, trace, r)
  {
    var end := StreamEnd(n, trace, 0);
    Reading(ChunksOf(n, trace[..end]), end, if end < |trace| then StreamStopAt(n, trace, end).value else OutOfTime)
  }

  lemma OneReading(n: nat, trace: seq<Read>, r: Reading)
    ensures BatchReads(n, trace, r) <==> r == BatchReading(n, trace)
    ensures StreamReads(n, trace, r) <==> r == StreamReading(n, trace)
  {
  }

  /** On any trace both readers end at the same read, and so alike, if and only if the read that stops the
      streaming reader stops any reader (no time, no input, an exception), or the last answer is a non-empty
      result and, at a usage_update, a chunk came before. */
  lemma SameEndIff(n: nat, trace: seq<Read>, batch: Reading, stream: Reading)
    requires BatchReads(n, trace, batch) && StreamReads(n, trace, stream)
    ensures batch.used == stream.used <==>
              || stream.stop in {OutOfTime, EndOfInput, Raised}
              || (Truthy(LastAnswer(n, trace[..stream.used])) && (stream.stop == UsageSeen ==> stream.chunks != []))
    ensures batch.used == stream.used <==> batch == stream
  {
    StreamIsPrefixOfBatch(n, trace, batch, stream);
    if stream.used < |trace| {
      var stop := BatchStopAt(n, trace, stream.used);
      assert StreamStopAt(n, trace, stream.used) == Some(stream.stop);
      assert stop.Some? <==> batch.used == stream.used;
      StreamStopsFirst(n, trace, stream.used);
    }
  }

  /** Every answer is a non-empty result, and a chunk precedes every usage_update after an answer. */
  ghost predicate WellPaced(n: nat, trace: seq<Read>) {
    && (forall i :: 0 <= i < |trace| && Answers(n, trace[i]) ==> Truthy(trace[i].frame.answer))
    && (forall u: nat :: u < |trace| && IsUsage(n, trace[u]) && Answered(n, trace[..u]) ==> ChunksOf(n, trace[..u]) != [])
  }

  lemma WellPacedReadersAgree(n: nat, trace: seq<Read>, batch: Reading, stream: Reading)
    requires BatchReads(n, trace, batch) && StreamReads(n, trace, stream) && WellPaced(n, trace)
    ensures batch == stream
  {
    if stream.stop == UsageSeen {
      assert stream.used < |trace| && StreamStopAt(n, trace, stream.used) == Some(UsageSeen);
    }
    ReadersAgree(n, trace, batch, stream);
  }

  const EMPTY_ANSWER := Line(Message(Number(1), EmptyDict, false, Ignored))
  const USAGE := Line(Message(Missing, EmptyDict, false, UsageUpdate))
  const LATE_CHUNK := Line(Message(Missing, EmptyDict, false, Chunk("late")))

  lemma AfterEmptyAnswer()
    ensures ChunksOf(1, [EMPTY_ANSWER]) == [] && LastAnswer(1, [EMPTY_ANSWER]) == EmptyDict && Answered(1, [EMPTY_ANSWER])
    ensures ChunksOf(1, [EMPTY_ANSWER, USAGE]) == [] && LastAnswer(1, [EMPTY_ANSWER, USAGE]) == EmptyDict
    ensures ChunksOf(1, [EMPTY_ANSWER, USAGE, LATE_CHUNK]) == ["late"]
    ensures LastAnswer(1, [EMPTY_ANSWER, USAGE, LATE_CHUNK]) == EmptyDict
  {
    var trace := [EMPTY_ANSWER, USAGE, LATE_CHUNK];
    assert trace[..0] == [] && trace[..1] == [EMPTY_ANSWER] && trace[..2] == [EMPTY_ANSWER, USAGE] && trace[..3] == trace;
    NextState(1, trace, 0);
    NextState(1, trace, 1);
    NextState(1, trace, 2);
  }

  lemma BatchReadsOn()
    ensures BatchReads(1, [EMPTY_ANSWER, USAGE, LATE_CHUNK], Reading(["late"], 3, OutOfTime))
  {
    var trace := [EMPTY_ANSWER, USAGE, LATE_CHUNK];
    assert trace[..0] == [] && trace[..1] == [EMPTY_ANSWER] && trace[..2] == [EMPTY_ANSWER, USAGE] && trace[..3] == trace;
    AfterEmptyAnswer();
    MatchesStringOrNumber(Missing, 1);
    assert BatchStopAt(1, trace, 0) == None && BatchStopAt(1, trace, 1) == None && BatchStopAt(1, trace, 2) == None;
  }

  /** With an empty result the streaming reader gives up at the usage_update, and the chunk that
      follows is only in the batch reader's text. */
  lemma EmptyResultLosesChunk() returns (trace: seq<Read>, batch: Reading, stream: Reading)
    ensures BatchReads(1, trace, batch) && StreamReads(1, trace, stream)
    ensures stream.chunks == [] && batch.chunks == ["late"]
    ensures batch.stop != Raised && stream.stop != Raised && LastAnswer(1, trace[..batch.used]) == EmptyDict
    ensures forall i :: 0 <= i < |trace| && IsChunk(1, trace[i]) ==> trace[i].frame.event.text != ""
  {
    trace := [EMPTY_ANSWER, USAGE, LATE_CHUNK];
    batch := Reading(["late"], 3, OutOfTime);
    stream := Reading([], 1, UsageSeen);
    assert trace[..0] == [] && trace[..1] == [EMPTY_ANSWER] && trace[..3] == trace;
    BatchReadsOn();
    AfterEmptyAnswer();
    MatchesStringOrNumber(Number(1), 1);
    MatchesStringOrNumber(Missing, 1);
  }

  const ODD_ANSWER := Line(Message(Number(1), OtherTruthy, false, Ignored))

  /** With a result that is not a dict the batch reader collects the chunk and then raises; the streaming
      reader has yielded it and ends normally. */
  lemma OddResultRaises() returns (trace: seq<Read>, batch: Reading, stream: Reading)
    ensures BatchReads(1, trace, batch) && StreamReads(1, trace, stream)
    ensures stream.chunks == ["late"] && batch.stop == stream.stop == Quiet
    ensures LastAnswer(1, trace[..batch.used]) == OtherTruthy
    ensures forall i :: 0 <= i < |trace| && IsChunk(1, trace[i]) ==> trace[i].frame.event.text != ""
  {
    trace := [LATE_CHUNK, ODD_ANSWER, Timeout];
    batch, stream := Reading(["late"], 2, Quiet), Reading(["late"], 2, Quiet);
    assert trace[..0] == [] && trace[..1] == [LATE_CHUNK] && trace[..2] == [LATE_CHUNK, ODD_ANSWER];
    MatchesStringOrNumber(Number(1), 1);
    MatchesStringOrNumber(Missing, 1);
    NextState(1, trace, 0);
    NextState(1, trace, 1);
    assert ChunksOf(1, []) + ["late"] == ["late"];
  }

  lemma NextState(n: nat, trace: seq<Read>, turn: nat)
    requires turn < |trace|
    ensures ChunksOf(n, trace[..turn + 1])
         == ChunksOf(n, trace[..turn]) + (if IsChunk(n, trace[turn]) then [trace[turn].frame.event.text] else [])
    ensures LastAnswer(n, trace[..turn + 1])
         == if Answers(n, trace[turn]) then trace[turn].frame.answer else LastAnswer(n, trace[..turn])
    ensures Answered(n, trace[..turn + 1]) <==> Answered(n, trace[..turn]) || Answers(n, trace[turn])
  {
    var next := trace[..turn + 1];
    assert next[..turn] == trace[..turn] && next[turn] == trace[turn];
  }

  // ----- The code -----

  /** The read loop of _prompt_parts; `response` is what it leaves behind. */
  method ReadBatch(n: nat, trace: seq<Read>) returns (r: Reading, response: Answer)
    ensures BatchReads(n, trace, r)
    ensures r.stop != Raised ==> response == LastAnswer(n, trace[..r.used])
  {
    var collected: seq<string> := [];
    response := EmptyDict;
    var turn := 0;
    while turn < |trace|
      invariant 0 <= turn <= |trace|
      invariant collected == ChunksOf(n, trace[..turn])
      invariant response == LastAnswer(n, trace[..turn])
      invariant forall i: nat :: i < turn ==> BatchStopAt(n, trace, i) == None
    {
      var read := trace[turn];
      assert BatchStopAt(n, trace, turn) == BatchStop(n, response, collected, read);
      NextState(n, trace, turn);
      match read {
        case ClockOut => return Reading(collected, turn, OutOfTime), response;
        case Timeout =>
          if Truthy(response) {
            return Reading(collected, turn, Quiet), response;
          }
        case Eof => return Reading(collected, turn, EndOfInput), response;
        case Line(frame) =>
          match frame {
            case Garbage =>
            case NotAnObject => return Reading(collected, turn, Raised), response;
            case Message(id, answer, isError, event) =>
              if Matches(id, n) {
                if isError {
                  return Reading(collected, turn, Raised), answer;
                }
                response := answer;
              } else {
                match event {
                  case Chunk(text) => collected := collected + [text];
                  case UsageUpdate =>
                    if Truthy(response) && |collected| > 0 {
                      return Reading(collected, turn, UsageSeen), response;
                    }
                  case Ignored =>
                  case Broken => return Reading(collected, turn, Raised), response;
                }
              }
          }
      }
      turn := turn + 1;
    }
    r := Reading(collected, turn, OutOfTime);
  }

  /** All of _prompt_parts. After the loop it writes the text into the result, which raises when the result
      of the last answer is not a dict, whatever was collected. */
  method PromptParts(n: nat, trace: seq<Read>) returns (r: Reading, returned: bool)
    ensures BatchReads(n, trace, r)
    ensures returned <==> r.stop != Raised && LastAnswer(n, trace[..r.used]) in {EmptyDict, FullDict}
  {
    var response;
    r, response := ReadBatch(n, trace);
    returned := r.stop != Raised && (response == EmptyDict || response == FullDict);
  }

  /** The read loop of _prompt_parts_stream; `yielded` grows by one chunk at each yield. */
  method PromptPartsStream(n: nat, trace: seq<Read>) returns (r: Reading)
    ensures StreamReads(n, trace, r)
  {
    var yielded: seq<string> := [];
    var responseDone := false;
    var turn, stop := 0, OutOfTime;
    while turn < |trace|
      invariant 0 <= turn <= |trace| && stop == OutOfTime
      invariant yielded == ChunksOf(n, trace[..turn])
      invariant responseDone <==> Answered(n, trace[..turn])
      invariant forall i: nat :: i < turn ==> StreamStopAt(n, trace, i) == None
    {
      var read := trace[turn];
      assert StreamStopAt(n, trace, turn) == StreamStop(n, responseDone, read);
      NextState(n, trace, turn);
      match read {
        case ClockOut =>
          stop := OutOfTime;
          break;
        case Timeout =>
          if responseDone {
            stop := Quiet;
            break;
          }
        case Eof =>
          stop := EndOfInput;
          break;
        case Line(frame) =>
          match frame {
            case Garbage =>
            case NotAnObject =>
              stop := Raised;
              break;
            case Message(id, answer, isError, event) =>
              if Matches(id, n) {
                if isError {
                  stop := Raised;
                  break;
                }
                responseDone := true;
              } else {
                match event {
                  case Chunk(text) => yielded := yielded + [text];
                  case UsageUpdate =>
                    if responseDone {
                      stop := UsageSeen;
                      break;
                    }
                  case Ignored =>
                  case Broken =>
                    stop := Raised;
                    break;
                }
              }
          }
      }
      turn := turn + 1;
    }
    r := Reading(yielded, turn, stop);
  }
}
