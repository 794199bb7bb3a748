/** One streamed prediction: a task on a worker thread fills a progress queue and a response queue
    while the caller's generator empties them, and either side may run at any moment.  A step is one
    queue operation, one write of the error holder, or one look at it. */
module Streaming {
  import opened PyStrings

  const SENTINEL := "__CY_LLM_STREAM_END__"
  const PROGRESS_SENTINEL := "__CY_LLM_PROGRESS_END__"
  const LOADING_START := "__CY_LLM_LOADING_START__"
  const MARKER := "__CY_LLM_LOADING__"
  const HEADER := "[模型加载] 开始加载模型，这可能需要几分钟，请耐心等待...\n"

  // ----- progress messages on the queue

  /** `progress_callback`. */
  function Encode(message: string): string {
    MARKER + message + "__"
  }

  /** `item.replace(MARKER, "").rstrip("__")`: every marker goes, then every trailing underscore. */
  function Decode(item: string): string {
    RStrip(Replace(item, MARKER, ""), '_')
  }

  function Line(message: string): string {
    "[模型加载] " + message + "\n"
  }

  /** A message that neither holds nor, with the closing underscores, completes the marker, and does
      not end in an underscore. */
  ghost predicate Plain(message: string) {
    !Contains(message + "__", MARKER) && (message == [] || message[|message| - 1] != '_')
  }

  lemma DecodeEncode(message: string)
    ensures Decode(Encode(message)) == RStrip(Replace(message + "__", MARKER, ""), '_')
  {
    var pattern, tail := MARKER, message + "__";
    assert pattern != [] && Encode(message) == pattern + tail;
    hide Encode, RStrip;
    hide MARKER;
    assert pattern <= pattern + tail && (pattern + tail)[|pattern|..] == tail;
    assert Replace(pattern + tail, pattern, "") == Replace(tail, pattern, "") by {
      assert "" + Replace(tail, pattern, "") == Replace(tail, pattern, "");
    }
  }

  lemma StripUnderscores(message: string)
    ensures RStrip(message + "__", '_') == RStrip(message, '_')
  {
    var s := message + "__";
    assert s[..|s| - 1] == message + "_";
    assert (message + "_")[..|message|] == message;
  }

  /** A message comes out of the queue as it went in exactly if it is plain. */
  lemma RoundTripExactlyWhenPlain(message: string)
    ensures Decode(Encode(message)) == message <==> Plain(message)
  {
    DecodeEncode(message);
    var tail := message + "__";
    if Contains(tail, MARKER) {
      DeleteShortens(tail, MARKER);
    } else {
      ReplaceAbsent(tail, MARKER, "");
      StripUnderscores(message);
    }
  }

  lemma ItemKinds(message: string)
    ensures MARKER <= Encode(message) && Encode(message) != PROGRESS_SENTINEL
    ensures !(MARKER <= LOADING_START) && !(MARKER <= PROGRESS_SENTINEL) && LOADING_START != PROGRESS_SENTINEL
  {
    assert Encode(message)[9] == MARKER[9] == 'L' && PROGRESS_SENTINEL[9] == 'P' && LOADING_START[9] == 'L';
    assert MARKER[17] == '_' && LOADING_START[17] == 'S';
  }

  // ----- the worker

  /** What happens in one task: the messages sent while loading, the chunks the engine yields before it
      ends or fails. */
  datatype Script = Script(loaded: bool, messages: seq<string>, loadFails: bool, chunks: seq<string>, inferFails: bool)

  /** A model found loaded reports no progress, and a failed load yields no chunks. */
  predicate ValidScript(sc: Script) {
    (sc.loaded ==> sc.messages == []) && (sc.loadFails ==> sc.chunks == [] && !sc.inferFails)
  }

  predicate Fails(sc: Script) {
    sc.loadFails || sc.inferFails
  }

  datatype Op = PutProgress(item: string) | PutResponse(item: string) | HoldError

  function PutMessages(messages: seq<string>): seq<Op> {
    seq(|messages|, i requires 0 <= i < |messages| => PutProgress(Encode(messages[i])))
  }

  function PutChunks(chunks: seq<string>): seq<Op> {
    seq(|chunks|, i requires 0 <= i < |chunks| => PutResponse(chunks[i]))
  }

  function EndProgress(sc: Script): seq<Op> {
    if sc.loaded then [] else [PutProgress(PROGRESS_SENTINEL)]
  }

  /** Everything `_task` puts on the queues while nothing has failed. */
  function Work(sc: Script): seq<Op> {
    PutMessages(sc.messages) + (if sc.loadFails then [] else EndProgress(sc) + PutChunks(sc.chunks))
  }

  /** The handler holds the error first and then ends both queues; a progress queue that the load had
      already ended is ended twice. */
  function Handle(sc: Script): seq<Op> {
    if Fails(sc) then [HoldError] + EndProgress(sc) else []
  }

  function Program(sc: Script): seq<Op> {
    Work(sc) + Handle(sc) + [PutResponse(SENTINEL)]
  }

  function Responses(ops: seq<Op>): seq<string> {
    if ops == [] then []
    else Responses(ops[..|ops| - 1]) + (if ops[|ops| - 1].PutResponse? then [ops[|ops| - 1].item] else [])
  }

  function Progresses(ops: seq<Op>): seq<string> {
    if ops == [] then []
    else Progresses(ops[..|ops| - 1]) + (if ops[|ops| - 1].PutProgress? then [ops[|ops| - 1].item] else [])
  }

  /** Before submitting its work the caller announces the loading. */
  function Announced(sc: Script): seq<string> {
    if sc.loaded then [] else [LOADING_START]
  }

  // ----- the generator

  datatype Stage = Opening | Progress | TimedOut | LookForError(done: bool) | Draining | Respond | Ended | Returned | Raised

  /** `tookProgress` and `tookResponse` list what the generator has taken from the queues. */
  datatype State = State(
    pos: nat,
    progress: seq<string>,
    response: seq<string>,
    error: bool,
    stage: Stage,
    output: seq<string>,
    tookProgress: seq<string>,
    tookResponse: seq<string>)

  function Initial(sc: Script): State {
    State(0, Announced(sc), [], false, Opening, [], [], [])
  }

  datatype Side = Task | Generator

  predicate Enabled(sc: Script, s: State, side: Side) {
    match side
    case Task => s.pos < |Program(sc)|
    case Generator => !s.stage.Returned? && !s.stage.Raised? && (s.stage.Respond? ==> s.response != [])
  }

  function Produce(sc: Script, s: State): State
    requires s.pos < |Program(sc)|
  {
    match Program(sc)[s.pos]
    case PutProgress(item) => s.(pos := s.pos + 1, progress := s.progress + [item])
    case PutResponse(item) => s.(pos := s.pos + 1, response := s.response + [item])
    case HoldError => s.(pos := s.pos + 1, error := true)
  }

  function TakeProgress(s: State): State
    requires s.progress != []
  {
    var item := s.progress[0];
    s.(progress := s.progress[1..], tookProgress := s.tookProgress + [item],
       output := if MARKER <= item then s.output + [Line(Decode(item))] else s.output)
  }

  function Consume(sc: Script, s: State): State
    requires Enabled(sc, s, Generator)
  {
    match s.stage
    case Opening =>
      if sc.loaded then s.(stage := Respond) else s.(stage := Progress, output := s.output + [HEADER])
    case Progress =>
      if s.progress == [] then s.(stage := TimedOut)
      else TakeProgress(s).(stage := LookForError(s.progress[0] == PROGRESS_SENTINEL))
    case TimedOut => if s.error then s.(stage := Respond) else s.(stage := LookForError(false))
    case LookForError(done) =>
      if s.error then s.(stage := Draining)
      else if done then s.(stage := Respond)
      else s.(stage := Progress)
    case Draining =>
      if s.progress == [] then s.(stage := Respond)
      else if s.progress[0] == PROGRESS_SENTINEL then TakeProgress(s).(stage := Respond)
      else TakeProgress(s)
    case Respond =>
      var item := s.response[0];
      var s' := s.(response := s.response[1..], tookResponse := s.tookResponse + [item]);
      if item == SENTINEL then s'.(stage := Ended) else s'.(output := s.output + [item])
    case Ended => s.(stage := if s.error then Raised else Returned)
    case _ => s
  }

  function Apply(sc: Script, s: State, side: Side): State
    requires Enabled(sc, s, side)
  {
    match side
    case Task => Produce(sc, s)
    case Generator => Consume(sc, s)
  }

  ghost predicate Legal(sc: Script, s: State, run: seq<Side>)
    decreases |run|
  {
    run == [] || (Enabled(sc, s, run[0]) && Legal(sc, Apply(sc, s, run[0]), run[1..]))
  }

  ghost function Exec(sc: Script, s: State, run: seq<Side>): State
    requires Legal(sc, s, run)
    decreases |run|
  {
    if run == [] then s else Exec(sc, Apply(sc, s, run[0]), run[1..])
  }

  // ----- what the caller sees

  /** The lines for the loading messages among some progress items. */
  function Lines(items: seq<string>): seq<string> {
    if items == [] then []
    else Lines(items[..|items| - 1]) + (if MARKER <= items[|items| - 1] then [Line(Decode(items[|items| - 1]))] else [])
  }

  function Opened(sc: Script): seq<string> {
    if sc.loaded then [] else [HEADER]
  }

  /** The chunks before the first one that spells the sentinel. */
  function UpToSentinel(chunks: seq<string>): seq<string> {
    if chunks == [] || chunks[0] == SENTINEL then [] else [chunks[0]] + UpToSentinel(chunks[1..])
  }

  function MessageLines(messages: seq<string>): seq<string> {
    seq(|messages|, i requires 0 <= i < |messages| => Line(Decode(Encode(messages[i]))))
  }

  // ----- what the worker puts on the queues

  lemma Assoc<T>(a: seq<T>, b: seq<T>, c: seq<T>)
    ensures a + b + c == a + (b + c)
  {
  }

  lemma Nothing<T>(a: seq<T>)
    ensures a + [] == a && [] + a == a
  {
  }

  lemma {:induction false} ResponsesAdd(a: seq<Op>, b: seq<Op>)
    ensures Responses(a + b) == Responses(a) + Responses(b)
    decreases |b|
  {
    if b == [] {
      assert a + b == a;
    } else {
      var c := b[..|b| - 1];
      ResponsesAdd(a, c);
      assert (a + b)[..|a + b| - 1] == a + c;
    }
  }

  lemma {:induction false} ProgressesAdd(a: seq<Op>, b: seq<Op>)
    ensures Progresses(a + b) == Progresses(a) + Progresses(b)
    decreases |b|
  {
    if b == [] {
      assert a + b == a;
    } else {
      var c := b[..|b| - 1];
      ProgressesAdd(a, c);
      assert (a + b)[..|a + b| - 1] == a + c;
    }
  }

  function Encoded(messages: seq<string>): seq<string> {
    seq(|messages|, i requires 0 <= i < |messages| => Encode(messages[i]))
  }

  lemma {:induction false} MessagesPut(messages: seq<string>)
    ensures Responses(PutMessages(messages)) == [] && Progresses(PutMessages(messages)) == Encoded(messages)
  {
    if messages != [] {
      var before, last := messages[..|messages| - 1], messages[|messages| - 1];
      MessagesPut(before);
      assert PutMessages(messages)[..|messages| - 1] == PutMessages(before);
      assert Encoded(messages) == Encoded(before) + [Encode(last)];
    }
  }

  lemma {:induction false} ChunksPut(chunks: seq<string>)
    ensures Responses(PutChunks(chunks)) == chunks && Progresses(PutChunks(chunks)) == []
  {
    if chunks != [] {
      var before := chunks[..|chunks| - 1];
      ChunksPut(before);
      assert PutChunks(chunks)[..|chunks| - 1] == PutChunks(before);
      assert chunks == before + [chunks[|chunks| - 1]];
    }
  }

  /** The progress sentinels one task posts: none, one, or two. */
  function Ends(sc: Script): seq<string> {
    if sc.loaded then [] else if sc.inferFails then [PROGRESS_SENTINEL, PROGRESS_SENTINEL] else [PROGRESS_SENTINEL]
  }

  lemma EndPut(sc: Script)
    ensures Responses(EndProgress(sc)) == []
    ensures Progresses(EndProgress(sc)) == if sc.loaded then [] else [PROGRESS_SENTINEL]
  {
    if !sc.loaded {
      var ops := EndProgress(sc);
      assert ops[..|ops| - 1] == [];
    }
  }

  lemma WorkPut(sc: Script)
    requires ValidScript(sc)
    ensures Responses(Work(sc)) == sc.chunks
    ensures Progresses(Work(sc)) ==
            Encoded(sc.messages) + (if sc.loaded || sc.loadFails then [] else [PROGRESS_SENTINEL])
  {
    hide PutMessages, PutChunks, Responses, Progresses, Encoded, PROGRESS_SENTINEL;
    MessagesPut(sc.messages);
    ChunksPut(sc.chunks);
    EndPut(sc);
    NothingPut();
    var rest := if sc.loadFails then [] else EndProgress(sc) + PutChunks(sc.chunks);
    ResponsesAdd(EndProgress(sc), PutChunks(sc.chunks));
    ProgressesAdd(EndProgress(sc), PutChunks(sc.chunks));
    hide EndProgress;
    ResponsesAdd(PutMessages(sc.messages), rest);
    ProgressesAdd(PutMessages(sc.messages), rest);
  }

  lemma NothingPut()
    ensures Responses([]) == [] && Progresses([]) == []
  {
  }

  lemma HandlePut(sc: Script)
    ensures Responses(Handle(sc)) == []
    ensures Progresses(Handle(sc)) == if Fails(sc) && !sc.loaded then [PROGRESS_SENTINEL] else []
  {
    EndPut(sc);
    ResponsesAdd([HoldError], EndProgress(sc));
    ProgressesAdd([HoldError], EndProgress(sc));
    assert [HoldError][..0] == [];
  }

  lemma LastPut()
    ensures Responses([PutResponse(SENTINEL)]) == [SENTINEL] && Progresses([PutResponse(SENTINEL)]) == []
  {
    hide SENTINEL;
    assert [PutResponse(SENTINEL)][..0] == [];
  }

  lemma Put3(a: seq<Op>, b: seq<Op>, c: seq<Op>)
    ensures Responses(a + b + c) == Responses(a) + Responses(b) + Responses(c)
    ensures Progresses(a + b + c) == Progresses(a) + Progresses(b) + Progresses(c)
  {
    ResponsesAdd(a, b);
    ProgressesAdd(a, b);
    ResponsesAdd(a + b, c);
    ProgressesAdd(a + b, c);
    hide Responses, Progresses;
  }

  /** Over a whole task the response queue gets the chunks and the sentinel, the progress queue the
      messages and one sentinel or more. */
  lemma ProgramPut(sc: Script)
    requires ValidScript(sc)
    ensures Responses(Program(sc)) == sc.chunks + [SENTINEL]
    ensures Progresses(Program(sc)) == Encoded(sc.messages) + Ends(sc)
  {
    hide SENTINEL, PROGRESS_SENTINEL;
    var last := [PutResponse(SENTINEL)];
    assert Program(sc) == Work(sc) + Handle(sc) + last;
    Put3(Work(sc), Handle(sc), last);
    WorkPut(sc);
    HandlePut(sc);
    LastPut();
    hide Program, Work, Handle, Responses, Progresses, Encoded;
    Nothing(sc.chunks);
    ProgramEnds(sc, Encoded(sc.messages));
  }

  lemma ProgramEnds(sc: Script, encoded: seq<string>)
    requires ValidScript(sc)
    ensures encoded + (if sc.loaded || sc.loadFails then [] else [PROGRESS_SENTINEL])
            + (if Fails(sc) && !sc.loaded then [PROGRESS_SENTINEL] else []) + [] == encoded + Ends(sc)
  {
    hide PROGRESS_SENTINEL;
    Nothing(encoded);
    Assoc(encoded, [PROGRESS_SENTINEL], [PROGRESS_SENTINEL]);
    Nothing(encoded + [PROGRESS_SENTINEL]);
    Nothing(encoded + [PROGRESS_SENTINEL] + [PROGRESS_SENTINEL]);
    assert [PROGRESS_SENTINEL] + [PROGRESS_SENTINEL] == [PROGRESS_SENTINEL, PROGRESS_SENTINEL];
  }

  /** What the first operations put on a queue is a prefix of what all put there. */
  lemma PrefixPut(sc: Script, pos: nat)
    requires pos <= |Program(sc)|
    ensures Responses(Program(sc)[..pos]) <= Responses(Program(sc))
    ensures Progresses(Program(sc)[..pos]) <= Progresses(Program(sc))
  {
    var ops := Program(sc);
    assert ops == ops[..pos] + ops[pos..];
    ResponsesAdd(ops[..pos], ops[pos..]);
    ProgressesAdd(ops[..pos], ops[pos..]);
  }

  lemma ErrorFree(sc: Script)
    ensures HoldError !in Work(sc)
    ensures !Fails(sc) ==> HoldError !in Program(sc)
  {
  }

  /** Before the error is held only chunks are on the response queue. */
  lemma BeforeError(sc: Script, pos: nat)
    requires ValidScript(sc) && Fails(sc) && pos <= |Program(sc)| && HoldError !in Program(sc)[..pos]
    ensures Responses(Program(sc)[..pos]) <= sc.chunks
  {
    var ops, work := Program(sc), Work(sc);
    hide SENTINEL, PROGRESS_SENTINEL;
    assert ops[|work|] == HoldError;
    assert pos <= |work| by {
      assert forall k | 0 <= k < pos :: ops[..pos][k] == ops[k];
    }
    assert ops[..pos] == work[..pos];
    assert work == work[..pos] + work[pos..];
    ResponsesAdd(work[..pos], work[pos..]);
    WorkPut(sc);
  }

  // ----- invariant

  predicate Polling(stage: Stage) {
    stage.Opening? || stage.Progress? || stage.TimedOut? || (stage.LookForError? && !stage.done)
  }

  predicate PastProgress(stage: Stage) {
    stage.Respond? || Over(stage)
  }

  predicate Over(stage: Stage) {
    stage.Ended? || stage.Returned? || stage.Raised?
  }

  /** The responses handed on: all that were taken but the sentinel. */
  function Given(s: State): seq<string> {
    if Over(s.stage) && s.tookResponse != [] then s.tookResponse[..|s.tookResponse| - 1] else s.tookResponse
  }

  ghost predicate QueuesAgree(sc: Script, s: State) {
    && s.pos <= |Program(sc)|
    && s.tookProgress + s.progress == Announced(sc) + Progresses(Program(sc)[..s.pos])
    && s.tookResponse + s.response == Responses(Program(sc)[..s.pos])
    && (s.error <==> HoldError in Program(sc)[..s.pos])
  }

  ghost predicate OutputAgrees(sc: Script, s: State) {
    && (s.stage.Opening? ==> s.output == [] && s.tookProgress == [])
    && (!s.stage.Opening? ==> s.output == Opened(sc) + Lines(s.tookProgress) + Given(s))
    && (!PastProgress(s.stage) ==> s.tookResponse == [])
  }

  ghost predicate StageAgrees(sc: Script, s: State) {
    && (Polling(s.stage) ==> PROGRESS_SENTINEL !in s.tookProgress)
    && (s.stage.LookForError? && s.stage.done ==> PROGRESS_SENTINEL in s.tookProgress)
    && (PastProgress(s.stage) && !sc.loaded ==> s.error || PROGRESS_SENTINEL in s.tookProgress)
    && (s.stage.Draining? ==> s.error)
    && (sc.loaded ==> s.stage.Opening? || PastProgress(s.stage))
    && (s.stage.Respond? ==> SENTINEL !in s.tookResponse)
    && (Over(s.stage) ==>
          s.tookResponse != [] && s.tookResponse[|s.tookResponse| - 1] == SENTINEL && SENTINEL !in Given(s))
    && (s.stage.Raised? ==> s.error)
    && (s.stage.Returned? && SENTINEL !in sc.chunks ==> !Fails(sc))
  }

  ghost predicate Inv(sc: Script, s: State) {
    QueuesAgree(sc, s) && OutputAgrees(sc, s) && StageAgrees(sc, s)
  }

  lemma InitialInv(sc: Script)
    ensures Inv(sc, Initial(sc))
  {
    assert Program(sc)[..0] == [];
  }

  lemma PutOne(before: seq<Op>, op: Op)
    ensures Responses(before + [op]) == if op.PutResponse? then Responses(before) + [op.item] else Responses(before)
    ensures Progresses(before + [op]) == if op.PutProgress? then Progresses(before) + [op.item] else Progresses(before)
  {
    assert (before + [op])[..|before|] == before;
  }

  lemma QueueGrows(took: seq<string>, waiting: seq<string>, before: seq<string>, put: seq<string>, item: string)
    requires took + waiting == before + put
    ensures took + (waiting + [item]) == before + (put + [item])
  {
    Assoc(took, waiting, [item]);
    Assoc(before, put, [item]);
  }

  lemma ProduceQueues(sc: Script, s: State)
    requires QueuesAgree(sc, s) && s.pos < |Program(sc)|
    ensures QueuesAgree(sc, Produce(sc, s))
  {
    hide Program, Announced, Responses, Progresses;
    var ops, op := Program(sc), Program(sc)[s.pos];
    var before := ops[..s.pos];
    PutOne(before, op);
    assert ops[..s.pos + 1] == before + [op];
    assert HoldError in before + [op] <==> HoldError in before || op == HoldError;
    if op.PutProgress? {
      QueueGrows(s.tookProgress, s.progress, Announced(sc), Progresses(before), op.item);
    } else if op.PutResponse? {
      assert [] + Responses(before) == Responses(before);
      QueueGrows(s.tookResponse, s.response, [], Responses(before), op.item);
      assert [] + (Responses(before) + [op.item]) == Responses(before) + [op.item];
    }
  }

  lemma ProduceMoves(sc: Script, s: State)
    requires s.pos < |Program(sc)|
    ensures var s' := Produce(sc, s);
      s'.stage == s.stage && s'.output == s.output && s'.tookProgress == s.tookProgress
      && s'.tookResponse == s.tookResponse && (s.error ==> s'.error) && s'.pos == s.pos + 1
  {
    hide Program;
  }

  lemma ProduceKeeps(sc: Script, s: State)
    requires Inv(sc, s) && s.pos < |Program(sc)|
    ensures Inv(sc, Produce(sc, s))
  {
    ProduceQueues(sc, s);
    ProduceMoves(sc, s);
    hide SENTINEL, PROGRESS_SENTINEL, LOADING_START, MARKER, HEADER, Program, Lines, Opened, Announced, QueuesAgree, Produce;
  }

  lemma TakeKeeps(sc: Script, s: State)
    requires QueuesAgree(sc, s) && s.progress != []
    ensures QueuesAgree(sc, TakeProgress(s))
    ensures Lines(TakeProgress(s).tookProgress) ==
            Lines(s.tookProgress) + (if MARKER <= s.progress[0] then [Line(Decode(s.progress[0]))] else [])
  {
    var item, s' := s.progress[0], TakeProgress(s);
    assert s'.tookProgress[..|s'.tookProgress| - 1] == s.tookProgress;
    assert [item] + s.progress[1..] == s.progress;
    hide Program, Decode, Announced;
    assert s'.tookProgress + s'.progress == s.tookProgress + s.progress;
  }

  lemma TakeStepKeeps(sc: Script, s: State)
    requires Inv(sc, s) && (s.stage.Progress? || s.stage.Draining?) && s.progress != []
    ensures Inv(sc, Consume(sc, s))
  {
    TakeKeeps(sc, s);
    TakeOutput(sc, s);
    TakeQueues(sc, s);
    TakeStage(sc, s);
    hide QueuesAgree, OutputAgrees, StageAgrees, Consume, Program, Lines;
  }

  lemma TakeQueues(sc: Script, s: State)
    requires (s.stage.Progress? || s.stage.Draining?) && s.progress != [] && QueuesAgree(sc, TakeProgress(s))
    ensures QueuesAgree(sc, Consume(sc, s))
  {
    hide SENTINEL, PROGRESS_SENTINEL, LOADING_START, MARKER, HEADER, Program, Announced, Decode, Progresses, Responses;
  }

  lemma TakeStage(sc: Script, s: State)
    requires StageAgrees(sc, s) && OutputAgrees(sc, s) && (s.stage.Progress? || s.stage.Draining?) && s.progress != []
    ensures StageAgrees(sc, Consume(sc, s))
  {
    TookMore(s.tookProgress, s.progress[0], PROGRESS_SENTINEL);
    assert s.tookResponse == [];
    hide SENTINEL, PROGRESS_SENTINEL, LOADING_START, MARKER, HEADER, Decode, Line, OutputAgrees;
    assert Consume(sc, s).tookProgress == s.tookProgress + [s.progress[0]];
  }

  lemma TookMore(took: seq<string>, item: string, x: string)
    ensures x in took + [item] <==> x in took || x == item
  {
  }

  lemma TakeOutput(sc: Script, s: State)
    requires OutputAgrees(sc, s) && (s.stage.Progress? || s.stage.Draining?) && s.progress != []
    requires Lines(TakeProgress(s).tookProgress) ==
             Lines(s.tookProgress) + (if MARKER <= s.progress[0] then [Line(Decode(s.progress[0]))] else [])
    ensures OutputAgrees(sc, Consume(sc, s))
  {
    hide SENTINEL, PROGRESS_SENTINEL, LOADING_START, MARKER, HEADER, Decode, Opened, Lines, Line;
    assert s.output == Opened(sc) + Lines(s.tookProgress) + s.tookResponse == Opened(sc) + Lines(s.tookProgress);
  }

  lemma WaitStepKeeps(sc: Script, s: State)
    requires Inv(sc, s) && !PastProgress(s.stage) && !((s.stage.Progress? || s.stage.Draining?) && s.progress != [])
    ensures Inv(sc, Consume(sc, s))
  {
    hide SENTINEL, PROGRESS_SENTINEL, LOADING_START, MARKER, HEADER, Program, Announced, Decode, Progresses, Responses, TakeProgress;
    if s.stage.Opening? {
      assert Opened(sc) + Lines([]) + [] == Opened(sc);
    }
  }

  lemma AnswerStepKeeps(sc: Script, s: State)
    requires Inv(sc, s) && s.stage.Respond? && s.response != []
    ensures Inv(sc, Consume(sc, s))
  {
    hide SENTINEL, PROGRESS_SENTINEL, LOADING_START, MARKER, HEADER, Program, Announced, Decode, Opened, Progresses, Responses, TakeProgress, Lines;
    assert [s.response[0]] + s.response[1..] == s.response;
    assert s.tookResponse + s.response == (s.tookResponse + [s.response[0]]) + s.response[1..];
  }

  /** A sentinel taken in a failing run before the error is held is a chunk that spells it. */
  lemma EarlySentinel(sc: Script, s: State)
    requires ValidScript(sc) && Fails(sc) && QueuesAgree(sc, s) && !s.error && SENTINEL in s.tookResponse
    ensures SENTINEL in sc.chunks
  {
    BeforeError(sc, s.pos);
    hide SENTINEL, PROGRESS_SENTINEL, LOADING_START, MARKER, HEADER, Program, Announced, Progresses, Responses;
    var taken := Responses(Program(sc)[..s.pos]);
    assert SENTINEL in s.tookResponse + s.response;
    assert taken == sc.chunks[..|taken|];
  }

  lemma EndStepKeeps(sc: Script, s: State)
    requires ValidScript(sc) && Inv(sc, s) && s.stage.Ended?
    ensures Inv(sc, Consume(sc, s))
  {
    hide SENTINEL, PROGRESS_SENTINEL, LOADING_START, MARKER, HEADER;
    assert SENTINEL in s.tookResponse && QueuesAgree(sc, s);
    hide StageAgrees, OutputAgrees;
    if !s.error && Fails(sc) {
      hide QueuesAgree;
      EarlySentinel(sc, s);
    }
    EndMoves(sc, s);
  }

  lemma EndMoves(sc: Script, s: State)
    requires Inv(sc, s) && s.stage.Ended? && (!s.error && Fails(sc) ==> SENTINEL in sc.chunks)
    ensures Inv(sc, Consume(sc, s))
  {
    hide SENTINEL, PROGRESS_SENTINEL, LOADING_START, MARKER, HEADER;
    hide Program, Announced, Decode, Opened, Progresses, Responses, TakeProgress, Lines, Fails;
  }

  lemma StepKeeps(sc: Script, s: State, side: Side)
    requires ValidScript(sc) && Inv(sc, s) && Enabled(sc, s, side)
    ensures Inv(sc, Apply(sc, s, side))
  {
    hide Inv, Produce, Consume;
    match side
    case Task => ProduceKeeps(sc, s);
    case Generator =>
      if s.stage.Respond? {
        AnswerStepKeeps(sc, s);
      } else if s.stage.Ended? {
        EndStepKeeps(sc, s);
      } else if (s.stage.Progress? || s.stage.Draining?) && s.progress != [] {
        TakeStepKeeps(sc, s);
      } else {
        WaitStepKeeps(sc, s);
      }
  }

  lemma {:induction false} RunKeeps(sc: Script, s: State, run: seq<Side>)
    requires ValidScript(sc) && Inv(sc, s) && Legal(sc, s, run)
    ensures Inv(sc, Exec(sc, s, run))
    decreases |run|
  {
    if run != [] {
      StepKeeps(sc, s, run[0]);
      hide Inv, Apply, Enabled;
      RunKeeps(sc, Apply(sc, s, run[0]), run[1..]);
    }
  }
}
