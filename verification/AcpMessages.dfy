/** src/acp/proxy.py: the callers of the readers. _rpc reads until its answer; send_message and
    send_message_stream retry a prompt once after a pipe error and fall back on the command line. */
module AcpMessages {
  import opened AcpReaders
  import opened Numerals
  import opened Options

  // ----- _rpc -----

  /** _rpc returns the result of the first answer, or raises. */
  datatype RpcEnd = Returned(answer: Answer) | ErrorAnswer | TimedOut | BadFrame

  /** It reads past what is not JSON and past messages of other ids, and ends at the first other read. */
  method RpcLoop(n: nat, trace: seq<Read>) returns (end: RpcEnd, used: nat)
    ensures used <= |trace| && (used == |trace| ==> end == TimedOut)
    ensures forall i :: 0 <= i < used ==>
              && trace[i].Line? && trace[i].frame != NotAnObject
              && (trace[i].frame.Message? ==> trace[i].frame.id !in {Text(Decimal(n)), Number(n)})
    ensures used < |trace| ==>
              match trace[used]
              case Line(Garbage) => false
              case Line(NotAnObject) => end == BadFrame
              case Line(Message(id, answer, isError, _)) =>
                id in {Text(Decimal(n)), Number(n)} && end == (if isError then ErrorAnswer else Returned(answer))
              case _ => end == TimedOut
  {
    used := 0;
    while used < |trace|
      invariant 0 <= used <= |trace|
      invariant forall i :: 0 <= i < used ==>
                  && trace[i].Line? && trace[i].frame != NotAnObject
                  && (trace[i].frame.Message? ==> trace[i].frame.id !in {Text(Decimal(n)), Number(n)})
    {
      match trace[used] {
        case ClockOut => return TimedOut, used;
        case Timeout => return TimedOut, used;
        case Eof => return TimedOut, used;
        case Line(Garbage) =>
        case Line(NotAnObject) => return BadFrame, used;
        case Line(Message(id, answer, isError, event)) =>
          MatchesStringOrNumber(id, n);
          if Matches(id, n) {
            return if isError then ErrorAnswer else Returned(answer), used;
          }
      }
      used := used + 1;
    }
    end := TimedOut;
  }

  // ----- One run of a prompt -----

  datatype Failure = PipeError | OtherError

  datatype End = Done | Failed(failure: Failure)

  /** What a run of prompt n meets: the stale frames it drains, the reads of its main loop, and the
      exception that comes after them, if one does. */
  datatype Attempt = Attempt(n: nat, stale: seq<Frame>, trace: seq<Read>, failure: Option<Failure>)

  /** How many reads a reader took in, and how it ended. */
  datatype Outcome = Outcome(used: nat, end: End)

  /** A chunk is never empty: the readers skip empty text. */
  predicate Proper(a: Attempt) {
    forall i :: 0 <= i < |a.trace| && IsChunk(a.n, a.trace[i]) ==> a.trace[i].frame.event.text != ""
  }

  /** _prompt_parts looks for the method of a stale frame, which raises when it is not an object; and it
      raises when the last answer is not a dict. */
  function BatchOutcome(a: Attempt): (o: Outcome)
    ensures o.used <= |a.trace|
  {
    var r := BatchReading(a.n, a.trace);
    if NotAnObject in a.stale then Outcome(0, Failed(OtherError))
    else if r.used == |a.trace| && a.failure.Some? then Outcome(r.used, Failed(a.failure.value))
    else if r.stop == Raised || LastAnswer(a.n, a.trace[..r.used]) !in {EmptyDict, FullDict} then
      Outcome(r.used, Failed(OtherError))
    else Outcome(r.used, Done)
  }

  function StreamOutcome(a: Attempt): (o: Outcome)
    ensures o.used <= |a.trace|
  {
    var r := StreamReading(a.n, a.trace);
    if r.used == |a.trace| && a.failure.Some? then Outcome(r.used, Failed(a.failure.value))
    else if r.stop == Raised then Outcome(r.used, Failed(OtherError))
    else Outcome(r.used, Done)
  }

  function ChunksIn(a: Attempt, o: Outcome): seq<string>
    requires o.used <= |a.trace|
  {
    ChunksOf(a.n, a.trace[..o.used])
  }

  // ----- send_message and send_message_stream -----

  function Join(chunks: seq<string>): (text: string)
    ensures (forall i :: 0 <= i < |chunks| ==> chunks[i] != "") ==> (text == "" <==> chunks == [])
  {
    if |chunks| == 0 then "" else Join(chunks[..|chunks| - 1]) + chunks[|chunks| - 1]
  }

  /** The run that decides what send_message returns. */
  function Deciding(attempts: seq<Attempt>): nat
    requires |attempts| == 2
  {
    if BatchOutcome(attempts[0]).end == Failed(PipeError) then 1 else 0
  }

  predicate Replies(a: Attempt) {
    BatchOutcome(a).end == Done && ChunksIn(a, BatchOutcome(a)) != []
  }

  function MessageText(attempts: seq<Attempt>, cli: string): string
    requires |attempts| == 2
  {
    var a := attempts[Deciding(attempts)];
    if Replies(a) then Join(ChunksIn(a, BatchOutcome(a))) else cli
  }

  function Fallback<T>(o: Outcome, cli: T): seq<T> {
    if o.end == Done then [] else [cli]
  }

  function Streamed(attempts: seq<Attempt>, cli: string): seq<string>
    requires |attempts| == 2
  {
    var first, second := StreamOutcome(attempts[0]), StreamOutcome(attempts[1]);
    ChunksIn(attempts[0], first)
    + (if first.end == Failed(PipeError) then ChunksIn(attempts[1], second) + Fallback(second, cli)
       else Fallback(first, cli))
  }

  // ----- Where the pieces of a text come from -----

  /** A piece of text: the chunk that a run of the prompt read, or the answer of the command line. */
  datatype Piece = FromRun(run: nat, read: nat) | FromCli

  function RunPieces(run: nat, n: nat, trace: seq<Read>): seq<Piece> {
    if |trace| == 0 then []
    else
      var k := |trace| - 1;
      RunPieces(run, n, trace[..k]) + (if IsChunk(n, trace[k]) then [FromRun(run, k)] else [])
  }

  function PiecesIn(run: nat, a: Attempt, o: Outcome): seq<Piece>
    requires o.used <= |a.trace|
  {
    RunPieces(run, a.n, a.trace[..o.used])
  }

  /** What each caller gets out of a run that decides. */
  function MessageRun(run: nat, a: Attempt): seq<Piece> {
    if Replies(a) then PiecesIn(run, a, BatchOutcome(a)) else [FromCli]
  }

  function StreamRun(run: nat, a: Attempt): seq<Piece> {
    PiecesIn(run, a, StreamOutcome(a)) + Fallback(StreamOutcome(a), FromCli)
  }

  function MessagePieces(attempts: seq<Attempt>): seq<Piece>
    requires |attempts| == 2
  {
    MessageRun(Deciding(attempts), attempts[Deciding(attempts)])
  }

  function StreamPieces(attempts: seq<Attempt>): seq<Piece>
    requires |attempts| == 2
  {
    var first := StreamOutcome(attempts[0]);
    if first.end == Failed(PipeError) then PiecesIn(0, attempts[0], first) + StreamRun(1, attempts[1])
    else StreamRun(0, attempts[0])
  }

  function Rendered(pieces: seq<Piece>, texts: Piece -> string): seq<string> {
    seq(|pieces|, i requires 0 <= i < |pieces| => texts(pieces[i]))
  }

  /** The texts that the chunks and the command line have. */
  function TextOf(attempts: seq<Attempt>, cli: string): Piece -> string {
    (piece: Piece) =>
      if piece.FromRun? && piece.run < |attempts| && piece.read < |attempts[piece.run].trace|
         && IsChunk(attempts[piece.run].n, attempts[piece.run].trace[piece.read])
      then attempts[piece.run].trace[piece.read].frame.event.text
      else cli
  }

  lemma RenderedConcat(p: seq<Piece>, q: seq<Piece>, texts: Piece -> string)
    ensures Rendered(p + q, texts) == Rendered(p, texts) + Rendered(q, texts)
  {
  }

  lemma {:induction false} RunRendered(attempts: seq<Attempt>, cli: string, run: nat, k: nat)
    requires run < |attempts| && k <= |attempts[run].trace|
    ensures var a := attempts[run];
            Rendered(RunPieces(run, a.n, a.trace[..k]), TextOf(attempts, cli)) == ChunksOf(a.n, a.trace[..k])
  {
    if k == 0 {
    } else {
      var a, texts := attempts[run], TextOf(attempts, cli);
      RunRendered(attempts, cli, run, k - 1);
      assert a.trace[..k][..k - 1] == a.trace[..k - 1] && a.trace[..k][k - 1] == a.trace[k - 1];
      if IsChunk(a.n, a.trace[k - 1]) {
        RenderedConcat(RunPieces(run, a.n, a.trace[..k - 1]), [FromRun(run, k - 1)], texts);
        assert Rendered([FromRun(run, k - 1)], texts) == [a.trace[k - 1].frame.event.text];
      } else {
        assert RunPieces(run, a.n, a.trace[..k]) == RunPieces(run, a.n, a.trace[..k - 1]);
      }
    }
  }

  lemma PiecesRendered(attempts: seq<Attempt>, cli: string, run: nat, o: Outcome)
    requires run < |attempts| && o.used <= |attempts[run].trace|
    ensures Rendered(PiecesIn(run, attempts[run], o), TextOf(attempts, cli)) == ChunksIn(attempts[run], o)
  {
    RunRendered(attempts, cli, run, o.used);
  }

  lemma FallbackRendered(o: Outcome, attempts: seq<Attempt>, cli: string)
    ensures Rendered(Fallback(o, FromCli), TextOf(attempts, cli)) == Fallback(o, cli)
  {
  }

  lemma JoinGrows(chunks: seq<string>, text: string)
    ensures Join(chunks + [text]) == Join(chunks) + text && Join([text]) == text
  {
    assert (chunks + [text])[..|chunks|] == chunks;
  }

  /** The pieces say what both functions produce. */
  lemma MessageRendered(attempts: seq<Attempt>, cli: string)
    requires |attempts| == 2
    ensures Join(Rendered(MessagePieces(attempts), TextOf(attempts, cli))) == MessageText(attempts, cli)
  {
    var run := Deciding(attempts);
    if Replies(attempts[run]) {
      PiecesRendered(attempts, cli, run, BatchOutcome(attempts[run]));
    } else {
      assert Rendered([FromCli], TextOf(attempts, cli)) == [cli];
      JoinGrows([], cli);
    }
  }

  lemma StreamRendered(attempts: seq<Attempt>, cli: string)
    requires |attempts| == 2
    ensures Rendered(StreamPieces(attempts), TextOf(attempts, cli)) == Streamed(attempts, cli)
  {
    var first, second := StreamOutcome(attempts[0]), StreamOutcome(attempts[1]);
    var p, q := PiecesIn(0, attempts[0], first), PiecesIn(1, attempts[1], second);
    var texts := TextOf(attempts, cli);
    PiecesRendered(attempts, cli, 0, first);
    PiecesRendered(attempts, cli, 1, second);
    FallbackRendered(first, attempts, cli);
    FallbackRendered(second, attempts, cli);
    RenderedConcat(q, Fallback(second, FromCli), texts);
    if first.end == Failed(PipeError) {
      RenderedConcat(p, q + Fallback(second, FromCli), texts);
    } else {
      RenderedConcat(p, Fallback(first, FromCli), texts);
    }
  }

  // ----- The two readers on one attempt -----

  predicate NoChunkFrom(a: Attempt, from: nat, to: nat)
    requires to <= |a.trace|
  {
    forall i :: from <= i < to ==> !IsChunk(a.n, a.trace[i])
  }

  lemma {:induction false} PiecesUpTo(run: nat, n: nat, trace: seq<Read>, i: nat, j: nat)
    requires i <= j <= |trace|
    ensures RunPieces(run, n, trace[..i]) <= RunPieces(run, n, trace[..j])
    ensures RunPieces(run, n, trace[..i]) == RunPieces(run, n, trace[..j]) <==>
              forall k :: i <= k < j ==> !IsChunk(n, trace[k])
  {
    if i == j {
    } else {
      PiecesUpTo(run, n, trace, i, j - 1);
      assert trace[..j][..j - 1] == trace[..j - 1] && trace[..j][j - 1] == trace[j - 1];
    }
  }

  lemma {:induction false} PiecesOfRun(run: nat, n: nat, trace: seq<Read>)
    ensures |RunPieces(run, n, trace)| == |ChunksOf(n, trace)|
    ensures forall i :: 0 <= i < |RunPieces(run, n, trace)| ==>
                          RunPieces(run, n, trace)[i].FromRun? && RunPieces(run, n, trace)[i].run == run
  {
    if |trace| == 0 {
    } else {
      PiecesOfRun(run, n, trace[..|trace| - 1]);
    }
  }

  /** The streaming reader takes in no more; and when it fails, the batch reader fails the same way, if it
      gets past the stale frames. */
  lemma OutcomesCompared(a: Attempt)
    requires NotAnObject !in a.stale
    ensures StreamOutcome(a).used <= BatchOutcome(a).used
    ensures StreamOutcome(a).end.Failed? ==> BatchOutcome(a) == StreamOutcome(a)
  {
    var batch, stream := BatchReading(a.n, a.trace), StreamReading(a.n, a.trace);
    StreamIsPrefixOfBatch(a.n, a.trace, batch, stream);
    SameEndIff(a.n, a.trace, batch, stream);
  }

  /** One run gives both callers the same: the stream fails before any chunk, or both end well, with a
      chunk, and with none between the two stops. */
  predicate Settles(a: Attempt) {
    var batch, stream := BatchOutcome(a), StreamOutcome(a);
    if stream.end.Failed? then ChunksIn(a, stream) == []
    else Replies(a) && NoChunkFrom(a, stream.used, batch.used)
  }

  lemma SettlesIff(run: nat, a: Attempt)
    ensures StreamRun(run, a) == MessageRun(run, a) <==> Settles(a)
  {
    var batch, stream := BatchOutcome(a), StreamOutcome(a);
    var p, q := PiecesIn(run, a, stream), PiecesIn(run, a, batch);
    PiecesOfRun(run, a.n, a.trace[..stream.used]);
    PiecesOfRun(run, a.n, a.trace[..batch.used]);
    if NotAnObject !in a.stale {
      OutcomesCompared(a);
      PiecesUpTo(run, a.n, a.trace, stream.used, batch.used);
    }
    if stream.end.Failed? {
      assert p == [] <==> p + [FromCli] == [FromCli];
    } else {
      assert StreamRun(run, a) == p;
      assert p != [] ==> p[0] != FromCli;
    }
  }

  // ----- When the streamed text is the message -----

  /** The first run gives both callers the same; or it fails on the pipe before any chunk and the second
      does, or, if send_message never got past its stale frames, fails before any chunk as well. */
  predicate Aligned(attempts: seq<Attempt>)
    requires |attempts| == 2
  {
    if StreamOutcome(attempts[0]).end != Failed(PipeError) then Settles(attempts[0])
    else
      && ChunksIn(attempts[0], StreamOutcome(attempts[0])) == []
      && (if Deciding(attempts) == 1 then Settles(attempts[1])
          else StreamOutcome(attempts[1]).end.Failed? && ChunksIn(attempts[1], StreamOutcome(attempts[1])) == [])
  }

  lemma MessageFrom(attempts: seq<Attempt>)
    requires |attempts| == 2
    ensures MessagePieces(attempts) != []
    ensures MessagePieces(attempts)[0] == FromCli
            || (MessagePieces(attempts)[0].run == Deciding(attempts) && Replies(attempts[Deciding(attempts)]))
  {
    var run := Deciding(attempts);
    PiecesOfRun(run, attempts[run].n, attempts[run].trace[..BatchOutcome(attempts[run]).used]);
  }

  lemma OtherRun(attempts: seq<Attempt>)
    requires |attempts| == 2 && Deciding(attempts) == 1 && StreamOutcome(attempts[0]).end != Failed(PipeError)
    ensures StreamPieces(attempts) != MessagePieces(attempts) && !Settles(attempts[0])
  {
    var first := StreamOutcome(attempts[0]);
    OutcomesCompared(attempts[0]);
    PiecesOfRun(0, attempts[0].n, attempts[0].trace[..first.used]);
    MessageFrom(attempts);
    assert StreamPieces(attempts) == PiecesIn(0, attempts[0], first);
  }

  lemma AfterPipeError(attempts: seq<Attempt>)
    requires |attempts| == 2 && StreamOutcome(attempts[0]).end == Failed(PipeError)
    ensures Deciding(attempts) == 0 ==> MessagePieces(attempts) == [FromCli]
    ensures ChunksIn(attempts[0], StreamOutcome(attempts[0])) != [] ==> StreamPieces(attempts) != MessagePieces(attempts)
  {
    var first := StreamOutcome(attempts[0]);
    if NotAnObject !in attempts[0].stale {
      OutcomesCompared(attempts[0]);
    }
    PiecesOfRun(0, attempts[0].n, attempts[0].trace[..first.used]);
    MessageFrom(attempts);
    if PiecesIn(0, attempts[0], first) != [] {
      assert StreamPieces(attempts)[0] == PiecesIn(0, attempts[0], first)[0];
    }
  }

  lemma SecondAlone(attempts: seq<Attempt>)
    requires |attempts| == 2 && StreamOutcome(attempts[0]).end == Failed(PipeError)
    requires ChunksIn(attempts[0], StreamOutcome(attempts[0])) == []
    ensures StreamPieces(attempts) == MessagePieces(attempts) <==> Aligned(attempts)
  {
    var second := StreamOutcome(attempts[1]);
    var q := PiecesIn(1, attempts[1], second);
    AfterPipeError(attempts);
    PiecesOfRun(0, attempts[0].n, attempts[0].trace[..StreamOutcome(attempts[0]).used]);
    PiecesOfRun(1, attempts[1].n, attempts[1].trace[..second.used]);
    SettlesIff(1, attempts[1]);
    assert StreamPieces(attempts) == q + Fallback(second, FromCli);
    if q != [] {
      assert (q + Fallback(second, FromCli))[0] == q[0];
    }
  }

  /** The pieces of the stream are those of the message exactly when the runs are aligned. */
  lemma SamePiecesIff(attempts: seq<Attempt>)
    requires |attempts| == 2
    ensures StreamPieces(attempts) == MessagePieces(attempts) <==> Aligned(attempts)
  {
    if StreamOutcome(attempts[0]).end != Failed(PipeError) {
      if Deciding(attempts) == 1 {
        OtherRun(attempts);
      } else {
        SettlesIff(0, attempts[0]);
      }
    } else if ChunksIn(attempts[0], StreamOutcome(attempts[0])) != [] {
      AfterPipeError(attempts);
    } else {
      SecondAlone(attempts);
    }
  }

  // ----- Texts -----

  ghost predicate NoneEmpty(texts: Piece -> string) {
    forall piece :: texts(piece) != ""
  }

  /** The streamed text is the message, whatever the chunks and the command line say. */
  ghost predicate SameText(attempts: seq<Attempt>)
    requires |attempts| == 2
  {
    forall texts :: NoneEmpty(texts) ==>
                      Join(Rendered(StreamPieces(attempts), texts)) == Join(Rendered(MessagePieces(attempts), texts))
  }

  lemma {:induction false} JoinLetters(pieces: seq<Piece>, texts: Piece -> string)
    requires forall piece :: |texts(piece)| == 1
    ensures |Join(Rendered(pieces, texts))| == |pieces|
    ensures forall i :: 0 <= i < |pieces| ==> Join(Rendered(pieces, texts))[i] == texts(pieces[i])[0]
  {
    if |pieces| == 0 {
    } else {
      var front := pieces[..|pieces| - 1];
      JoinLetters(front, texts);
      assert Rendered(pieces, texts)[..|pieces| - 1] == Rendered(front, texts);
    }
  }

  /** Different lists of pieces are told apart by some texts. */
  lemma PiecesToldApart(p: seq<Piece>, q: seq<Piece>) returns (texts: Piece -> string)
    requires p != q
    ensures NoneEmpty(texts) && Join(Rendered(p, texts)) != Join(Rendered(q, texts))
  {
    var i: nat := if |p| != |q| then 0 else FirstDifference(p, q);
    var mark := if |p| != |q| then FromCli else p[i];
    texts := (piece: Piece) => if piece == mark then "a" else "b";
    JoinLetters(p, texts);
    JoinLetters(q, texts);
    if |p| == |q| {
      assert Join(Rendered(p, texts))[i] != Join(Rendered(q, texts))[i];
    }
  }

  function FirstDifference(p: seq<Piece>, q: seq<Piece>): (i: nat)
    requires |p| == |q| && p != q
    ensures i < |p| && p[i] != q[i]
  {
    if p[0] != q[0] then 0
    else
      assert p == [p[0]] + p[1..] && q == [q[0]] + q[1..];
      FirstDifference(p[1..], q[1..]) + 1
  }

  /** On the same runs and the same answer of the command line: the streamed text is the text that
      send_message returns, whatever the chunks say, if and only if the runs are aligned. */
  lemma StreamedTextIsMessage(attempts: seq<Attempt>)
    requires |attempts| == 2
    ensures SameText(attempts) <==> Aligned(attempts)
  {
    SamePiecesIff(attempts);
    if StreamPieces(attempts) != MessagePieces(attempts) {
      var texts := PiecesToldApart(StreamPieces(attempts), MessagePieces(attempts));
    }
  }

  lemma AlignedTexts(attempts: seq<Attempt>, cli: string)
    requires |attempts| == 2 && Aligned(attempts)
    ensures Join(Streamed(attempts, cli)) == MessageText(attempts, cli)
  {
    SamePiecesIff(attempts);
    MessageRendered(attempts, cli);
    StreamRendered(attempts, cli);
  }

  /** Both runs read this trace, with nothing stale and no exception after it. */
  function Twice(n: nat, trace: seq<Read>): seq<Attempt> {
    [Attempt(n, [], trace, None), Attempt(n, [], trace, None)]
  }

  lemma TwiceTexts(n: nat, trace: seq<Read>, batch: Reading, stream: Reading, cli: string)
    requires BatchReads(n, trace, batch) && StreamReads(n, trace, stream)
    requires batch.stop != Raised && stream.stop != Raised
    ensures Streamed(Twice(n, trace), cli) == stream.chunks
    ensures MessageText(Twice(n, trace), cli)
         == if LastAnswer(n, trace[..batch.used]) in {EmptyDict, FullDict} && batch.chunks != [] then Join(batch.chunks) else cli
  {
    OneReading(n, trace, batch);
    OneReading(n, trace, stream);
    var a := Attempt(n, [], trace, None);
    assert Twice(n, trace)[0] == a;
    assert StreamOutcome(a) == Outcome(stream.used, Done) && BatchOutcome(a).used == batch.used;
  }

  /** An input on which the texts differ: a chunk after an empty result and a usage update. */
  lemma LateChunkLost(cli: string) returns (trace: seq<Read>)
    ensures Proper(Attempt(1, [], trace, None))
    ensures MessageText(Twice(1, trace), cli) == "late" && Streamed(Twice(1, trace), cli) == []
  {
    var batch, stream;
    trace, batch, stream := EmptyResultLosesChunk();
    TwiceTexts(1, trace, batch, stream, cli);
    JoinGrows([], "late");
  }

  /** And another: a result that is not a dict. */
  lemma OddResultAsksCli(cli: string) returns (trace: seq<Read>)
    ensures Proper(Attempt(1, [], trace, None))
    ensures MessageText(Twice(1, trace), cli) == cli && Streamed(Twice(1, trace), cli) == ["late"]
  {
    var batch, stream;
    trace, batch, stream := OddResultRaises();
    TwiceTexts(1, trace, batch, stream, cli);
  }

  // ----- An exception in the middle of a run -----

  /** A read on which both readers raise: a JSON value that is not an object, an error in the answer, or a
      broken update of another id. */
  predicate RaisingRead(n: nat, read: Read) {
    match read
    case Line(NotAnObject) => true
    case Line(Message(id, _, isError, event)) =>
      if id in {Text(Decimal(n)), Number(n)} then isError else event == Broken
    case _ => false
  }

  lemma RaisingStops(n: nat, trace: seq<Read>, r: Reading)
    requires BatchReads(n, trace, r) || StreamReads(n, trace, r)
    requires r.used < |trace| && RaisingRead(n, trace[r.used])
    ensures r.stop == Raised
  {
    StopsOnFields(n, trace, r);
  }

  lemma RaisingFails(a: Attempt, batch: Reading)
    requires BatchReads(a.n, a.trace, batch) && batch.used < |a.trace| && RaisingRead(a.n, a.trace[batch.used])
    ensures BatchOutcome(a).end == Failed(OtherError)
  {
    OneReading(a.n, a.trace, batch);
    RaisingStops(a.n, a.trace, batch);
  }

  /** When the run that decides stops at such a read, send_message returns the answer of the command line,
      whatever was collected. */
  lemma RaisingAsksCli(attempts: seq<Attempt>, cli: string, run: nat, batch: Reading)
    requires |attempts| == 2 && run == if BatchOutcome(attempts[0]).end == Failed(PipeError) then 1 else 0
    requires BatchReads(attempts[run].n, attempts[run].trace, batch) && batch.used < |attempts[run].trace|
    requires RaisingRead(attempts[run].n, attempts[run].trace[batch.used])
    ensures MessageText(attempts, cli) == cli
  {
    RaisingFails(attempts[run], batch);
  }

  /** And the stream ends with it, after the chunks that came before. */
  lemma RaisingEndsStream(attempts: seq<Attempt>, cli: string, stream: Reading)
    requires |attempts| == 2 && StreamReads(attempts[0].n, attempts[0].trace, stream)
    requires stream.used < |attempts[0].trace| && RaisingRead(attempts[0].n, attempts[0].trace[stream.used])
    ensures Streamed(attempts, cli) == stream.chunks + [cli]
  {
    OneReading(attempts[0].n, attempts[0].trace, stream);
    RaisingStops(attempts[0].n, attempts[0].trace, stream);
  }

  // ----- The code -----

  /** _prompt_parts: drain, send, read. */
  method RunPrompt(a: Attempt) returns (collected: seq<string>, end: End)
    ensures var r := BatchReading(a.n, a.trace);
            end == if NotAnObject in a.stale then Failed(OtherError)
                   else if r.used == |a.trace| && a.failure.Some? then Failed(a.failure.value)
                   else if r.stop != Raised && LastAnswer(a.n, a.trace[..r.used]) in {EmptyDict, FullDict} then Done
                   else Failed(OtherError)
    ensures end == BatchOutcome(a).end
    ensures end == Done ==> collected == BatchReading(a.n, a.trace).chunks == ChunksIn(a, BatchOutcome(a))
  {
    for k := 0 to |a.stale|
      invariant NotAnObject !in a.stale[..k]
    {
      assert a.stale[..k + 1] == a.stale[..k] + [a.stale[k]];
      if a.stale[k] == NotAnObject {
        return [], Failed(OtherError);
      }
    }
    assert a.stale[..|a.stale|] == a.stale;
    var r, returned := PromptParts(a.n, a.trace);
    OneReading(a.n, a.trace, r);
    collected := r.chunks;
    if r.used == |a.trace| && a.failure.Some? {
      end := Failed(a.failure.value);
    } else {
      end := if returned then Done else Failed(OtherError);
    }
  }

  /** _prompt_parts_stream, which does not look into stale frames. */
  method RunPromptStream(a: Attempt) returns (yielded: seq<string>, end: End)
    ensures var r := StreamReading(a.n, a.trace);
            && yielded == r.chunks
            && end == if r.used == |a.trace| && a.failure.Some? then Failed(a.failure.value)
                      else if r.stop == Raised then Failed(OtherError) else Done
    ensures end == StreamOutcome(a).end && yielded == ChunksIn(a, StreamOutcome(a))
  {
    var r := PromptPartsStream(a.n, a.trace);
    OneReading(a.n, a.trace, r);
    yielded := r.chunks;
    if r.used == |a.trace| && a.failure.Some? {
      end := Failed(a.failure.value);
    } else {
      end := if r.stop == Raised then Failed(OtherError) else Done;
    }
  }

  lemma {:induction false} ChunksProper(a: Attempt, k: nat)
    requires Proper(a) && k <= |a.trace|
    ensures "" !in ChunksOf(a.n, a.trace[..k])
  {
    if k == 0 {
    } else {
      ChunksProper(a, k - 1);
      assert a.trace[..k][..k - 1] == a.trace[..k - 1] && a.trace[..k][k - 1] == a.trace[k - 1];
    }
  }

  /** send_message: `attempts` are the runs of _prompt it would make, `cli` what hermes -z prints. */
  method SendMessage(attempts: seq<Attempt>, cli: string) returns (text: string, prompts: nat, restarts: nat)
    requires |attempts| == 2 && Proper(attempts[0]) && Proper(attempts[1])
    ensures text == MessageText(attempts, cli)
    ensures prompts == (if BatchOutcome(attempts[0]).end == Failed(PipeError) then 2 else 1) && restarts == prompts - 1
    ensures var last := attempts[prompts - 1];
            var chunks := BatchReading(last.n, last.trace).chunks;
            text == if BatchOutcome(last).end == Done && chunks != [] then Join(chunks) else cli
  {
    prompts, restarts := 0, 0;
    for attempt := 0 to 2
      invariant prompts == attempt && restarts == attempt
      invariant attempt > 0 ==> Deciding(attempts) == 1
      invariant attempt < 2
    {
      prompts := prompts + 1;
      var collected, end := RunPrompt(attempts[attempt]);
      match end {
        case Done =>
          var reply := Join(collected);
          ChunksProper(attempts[attempt], BatchOutcome(attempts[attempt]).used);
          if reply != "" {
            return reply, prompts, restarts;
          }
        case Failed(PipeError) =>
          if attempt == 0 {
            restarts := restarts + 1;
            continue;
          }
        case Failed(OtherError) =>
      }
      break;
    }
    text := cli;
  }

  /** send_message_stream over the same runs. */
  method SendMessageStream(attempts: seq<Attempt>, cli: string) returns (yielded: seq<string>)
    requires |attempts| == 2
    ensures yielded == Streamed(attempts, cli)
    ensures var first := StreamReading(attempts[0].n, attempts[0].trace).chunks;
            var second := StreamReading(attempts[1].n, attempts[1].trace).chunks;
            yielded == match StreamOutcome(attempts[0]).end
                       case Done => first
                       case Failed(PipeError) =>
                         if StreamOutcome(attempts[1]).end == Done then first + second else first + second + [cli]
                       case Failed(OtherError) => first + [cli]
  {
    var end;
    yielded, end := RunPromptStream(attempts[0]);
    match end {
      case Done =>
      case Failed(PipeError) =>
        var more, end2 := RunPromptStream(attempts[1]);
        yielded := yielded + more;
        if end2 != Done {
          yielded := yielded + [cli];
        }
      case Failed(OtherError) => yielded := yielded + [cli];
    }
  }
}
