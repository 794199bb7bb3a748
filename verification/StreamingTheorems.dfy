/** What the caller of a stream sees, over every interleaving of worker function and generator. */
module StreamingTheorems {
  import opened Streaming

  /** With the sentinel last and nowhere before, what was handed on is the chunks before the first that
      spells it. */
  lemma {:induction false} UpTo(given: seq<string>, chunks: seq<string>)
    requires SENTINEL !in given && given + [SENTINEL] <= chunks + [SENTINEL]
    ensures given == UpToSentinel(chunks)
    decreases |chunks|
  {
    var a, b := given + [SENTINEL], chunks + [SENTINEL];
    assert a[0] == b[0];
    if given != [] {
      assert given[0] == chunks[0];
      assert given[1..] + [SENTINEL] == a[1..] && chunks[1..] + [SENTINEL] == b[1..];
      UpTo(given[1..], chunks[1..]);
    }
  }

  lemma {:induction false} UpToExact(chunks: seq<string>)
    ensures UpToSentinel(chunks) == chunks <==> SENTINEL !in chunks
    ensures |UpToSentinel(chunks)| <= |chunks|
  {
    if chunks != [] && chunks[0] != SENTINEL {
      UpToExact(chunks[1..]);
      var rest := UpToSentinel(chunks[1..]);
      assert ([chunks[0]] + rest)[1..] == rest;
      assert chunks == [chunks[0]] + chunks[1..];
    }
  }

  lemma {:induction false} LinesOfMessages(messages: seq<string>)
    ensures Lines([LOADING_START] + Encoded(messages)) == MessageLines(messages)
  {
    ItemKinds("");
    hide LOADING_START, MARKER, Decode, Line;
    var items := [LOADING_START] + Encoded(messages);
    if messages == [] {
      assert items[..|items| - 1] == [];
      assert Lines(items) == Lines(items[..|items| - 1]) + [];
    } else {
      var before, last := messages[..|messages| - 1], messages[|messages| - 1];
      LinesOfMessages(before);
      assert items[..|items| - 1] == [LOADING_START] + Encoded(before);
      assert items[|items| - 1] == Encode(last);
      EncodeMarked(last);
      assert MessageLines(messages) == MessageLines(before) + [Line(Decode(Encode(last)))];
    }
  }

  lemma EncodeMarked(message: string)
    ensures MARKER <= Encode(message)
  {
    hide MARKER;
  }

  /** The lines for the progress items taken are those of the first messages, and of all of them once a
      progress sentinel is taken. */
  lemma {:induction false} TakenLines(messages: seq<string>, ends: seq<string>, took: seq<string>) returns (k: nat)
    requires forall e | e in ends :: e == PROGRESS_SENTINEL
    requires took <= [LOADING_START] + Encoded(messages) + ends
    ensures k <= |messages| && Lines(took) == MessageLines(messages[..k])
    ensures PROGRESS_SENTINEL in took ==> k == |messages|
    decreases |took|
  {
    hide SENTINEL, PROGRESS_SENTINEL, LOADING_START, MARKER, HEADER, Decode, Line, Encode, MessageLines;
    var head := [LOADING_START] + Encoded(messages);
    if took == [] {
      k := 0;
      NoMessageLines(messages);
    } else if |took| <= |head| {
      k := TakenMessages(messages, ends, took);
    } else {
      var i := |took| - 1;
      LastEnds(head, ends, took);
      k := TakenLines(messages, ends, took[..i]);
      if i == |head| {
        assert took[..i] == head;
        LinesOfMessages(messages);
        k := |messages|;
        assert messages[..k] == messages;
      } else {
        LastEnds(head, ends, took[..i]);
      }
      EndAddsNone(took);
    }
  }

  lemma NoMessageLines(messages: seq<string>)
    ensures Lines([]) == MessageLines(messages[..0])
  {
    hide LOADING_START, MARKER, Decode, Line;
  }

  lemma EndAddsNone(took: seq<string>)
    requires took != [] && took[|took| - 1] == PROGRESS_SENTINEL
    ensures Lines(took) == Lines(took[..|took| - 1])
  {
    ItemKinds("");
    hide SENTINEL, PROGRESS_SENTINEL, LOADING_START, MARKER, HEADER, Decode, Line;
    assert Lines(took) == Lines(took[..|took| - 1]) + [];
  }

  /** Where no end is among the items taken, they are the start and the first messages. */
  lemma TakenMessages(messages: seq<string>, ends: seq<string>, took: seq<string>) returns (k: nat)
    requires took != [] && |took| <= |messages| + 1 && |Encoded(messages)| == |messages|
    requires took <= [LOADING_START] + Encoded(messages) + ends
    ensures k <= |messages| && Lines(took) == MessageLines(messages[..k]) && PROGRESS_SENTINEL !in took
  {
    ItemKinds("");
    forall m: string ensures Encode(m) != PROGRESS_SENTINEL { ItemKinds(m); }
    hide SENTINEL, PROGRESS_SENTINEL, LOADING_START, MARKER, HEADER, Decode, Line, Encode;
    var head := [LOADING_START] + Encoded(messages);
    k := |took| - 1;
    assert took == (head + ends)[..|took|] == [LOADING_START] + Encoded(messages[..k]);
    LinesOfMessages(messages[..k]);
    TakenWhole(messages, k);
  }

  lemma LastEnds(head: seq<string>, ends: seq<string>, took: seq<string>)
    requires forall e | e in ends :: e == PROGRESS_SENTINEL
    requires |took| > |head| && took <= head + ends
    ensures took[|took| - 1] == PROGRESS_SENTINEL && took[..|took| - 1] <= head + ends
  {
    hide SENTINEL, PROGRESS_SENTINEL, LOADING_START, MARKER, HEADER;
    var i := |took| - 1;
    assert took[i] == (head + ends)[i] == ends[i - |head|];
    assert ends[i - |head|] in ends;
  }

  lemma TakenWhole(messages: seq<string>, k: nat)
    requires k <= |messages| && forall m: string :: Encode(m) != PROGRESS_SENTINEL
    requires LOADING_START != PROGRESS_SENTINEL
    ensures PROGRESS_SENTINEL !in [LOADING_START] + Encoded(messages[..k])
  {
    hide SENTINEL, PROGRESS_SENTINEL, LOADING_START, MARKER, HEADER, Encode;
  }

  /** What has been taken from the queues of a task. */
  lemma Taken(sc: Script, s: State)
    requires ValidScript(sc) && QueuesAgree(sc, s)
    ensures s.tookResponse + s.response <= sc.chunks + [SENTINEL]
    ensures s.tookProgress + s.progress <= Announced(sc) + (Encoded(sc.messages) + Ends(sc))
  {
    hide SENTINEL, PROGRESS_SENTINEL, LOADING_START, MARKER, HEADER, Encoded, Ends, Announced, Responses, Progresses;
    ProgramPut(sc);
    PrefixPut(sc, s.pos);
    hide Program;
    var before, all := Progresses(Program(sc)[..s.pos]), Progresses(Program(sc));
    assert before == all[..|before|];
    assert Announced(sc) + all == (Announced(sc) + before) + all[|before|..];
  }

  ghost predicate Finished(s: State) {
    s.stage.Returned? || s.stage.Raised?
  }

  /** Every finished run, failed or not, hands on the header if the model had to load, the lines of a
      prefix of the messages, and the chunks up to the first that spells the sentinel, in order. */
  lemma {:induction false} FinishedOutput(sc: Script, run: seq<Side>) returns (k: nat)
    requires ValidScript(sc) && Legal(sc, Initial(sc), run) && Finished(Exec(sc, Initial(sc), run))
    ensures k <= |sc.messages|
    ensures Exec(sc, Initial(sc), run).output ==
            Opened(sc) + MessageLines(sc.messages[..k]) + UpToSentinel(sc.chunks)
    ensures !Fails(sc) ==> k == |sc.messages| && Exec(sc, Initial(sc), run).stage == Returned
    ensures Fails(sc) && SENTINEL !in sc.chunks ==> Exec(sc, Initial(sc), run).stage == Raised
  {
    InitialInv(sc);
    RunKeeps(sc, Initial(sc), run);
    var s := Exec(sc, Initial(sc), run);
    hide Exec, Legal, Initial;
    k := FinishedState(sc, s);
  }

  lemma FinishedState(sc: Script, s: State) returns (k: nat)
    requires ValidScript(sc) && Inv(sc, s) && Finished(s)
    ensures k <= |sc.messages|
    ensures s.output == Opened(sc) + MessageLines(sc.messages[..k]) + UpToSentinel(sc.chunks)
    ensures !Fails(sc) ==> k == |sc.messages| && s.stage == Returned
    ensures Fails(sc) && SENTINEL !in sc.chunks ==> s.stage == Raised
  {
    FinishedGiven(sc, s);
    k := FinishedLines(sc, s);
    ErrorFree(sc);
    hide SENTINEL, PROGRESS_SENTINEL, LOADING_START, MARKER, HEADER, Program, Opened, Lines, MessageLines, UpToSentinel, Responses, Progresses, Given;
    assert !Fails(sc) ==> !s.error;
  }

  lemma FinishedGiven(sc: Script, s: State)
    requires ValidScript(sc) && Inv(sc, s) && Finished(s)
    ensures Given(s) == UpToSentinel(sc.chunks)
  {
    hide SENTINEL, PROGRESS_SENTINEL, LOADING_START, MARKER, HEADER, Lines, Opened, Announced, Responses, Progresses, Program, UpToSentinel;
    Taken(sc, s);
    var given := Given(s);
    assert s.tookResponse == given + [SENTINEL];
    assert s.tookResponse <= s.tookResponse + s.response;
    UpTo(given, sc.chunks);
  }

  lemma FinishedLines(sc: Script, s: State) returns (k: nat)
    requires ValidScript(sc) && Inv(sc, s) && Finished(s)
    ensures k <= |sc.messages| && Lines(s.tookProgress) == MessageLines(sc.messages[..k])
    ensures !Fails(sc) ==> k == |sc.messages|
  {
    hide SENTINEL, PROGRESS_SENTINEL, LOADING_START, MARKER, HEADER, Opened, Responses, Progresses, Program, UpToSentinel, Encoded, Given;
    hide Lines, MessageLines;
    Taken(sc, s);
    ErrorFree(sc);
    assert s.tookProgress <= s.tookProgress + s.progress;
    if sc.loaded {
      assert Encoded(sc.messages) == [] by { LoadedQuiet(sc); }
      assert s.tookProgress == [];
      NoMessageLines(sc.messages);
      k := 0;
    } else {
      assert [LOADING_START] + (Encoded(sc.messages) + Ends(sc)) == [LOADING_START] + Encoded(sc.messages) + Ends(sc);
      k := TakenLines(sc.messages, Ends(sc), s.tookProgress);
    }
  }

  lemma LoadedQuiet(sc: Script)
    requires ValidScript(sc) && sc.loaded
    ensures Encoded(sc.messages) == []
  {
  }

  /** A successful run hands on every message verbatim and then exactly the engine's chunks if and only
      if the messages are plain and no chunk spells the sentinel. */
  lemma {:induction false} SuccessIsVerbatim(sc: Script, run: seq<Side>)
    requires ValidScript(sc) && !Fails(sc) && Legal(sc, Initial(sc), run) && Finished(Exec(sc, Initial(sc), run))
    ensures Exec(sc, Initial(sc), run).stage == Returned
    ensures Exec(sc, Initial(sc), run).output == Opened(sc) + Verbatim(sc.messages) + sc.chunks
            <==> (forall m | m in sc.messages :: Plain(m)) && SENTINEL !in sc.chunks
  {
    var k := FinishedOutput(sc, run);
    hide SENTINEL, PROGRESS_SENTINEL, LOADING_START, MARKER, HEADER, Exec, Legal, Initial, Fails;
    assert sc.messages[..k] == sc.messages;
    UpToExact(sc.chunks);
    VerbatimExact(sc.messages);
    var head, chunks := Opened(sc), sc.chunks;
    hide Opened, UpToSentinel, Plain;
    SplitEqual(head, MessageLines(sc.messages), UpToSentinel(chunks), Verbatim(sc.messages), chunks);
  }

  function Verbatim(messages: seq<string>): seq<string> {
    seq(|messages|, i requires 0 <= i < |messages| => Line(messages[i]))
  }

  lemma SplitEqual(head: seq<string>, a: seq<string>, b: seq<string>, c: seq<string>, d: seq<string>)
    requires |a| == |c|
    ensures head + a + b == head + c + d <==> a == c && b == d
  {
    if head + a + b == head + c + d {
      assert (head + a + b)[|head|..][..|a|] == a && (head + c + d)[|head|..][..|a|] == c;
      assert (head + a + b)[|head| + |a|..] == b && (head + c + d)[|head| + |a|..] == d;
    }
  }

  lemma VerbatimExact(messages: seq<string>)
    ensures MessageLines(messages) == Verbatim(messages) <==> forall m | m in messages :: Plain(m)
  {
    forall m: string ensures Line(Decode(Encode(m))) == Line(m) <==> Plain(m) {
      RoundTripExactlyWhenPlain(m);
      LineInjective(Decode(Encode(m)), m);
    }
    hide Line, Decode, Encode, Plain;
    var lines, verbatim := MessageLines(messages), Verbatim(messages);
    if lines == verbatim {
      forall m | m in messages ensures Plain(m) {
        var i :| 0 <= i < |messages| && messages[i] == m;
        assert lines[i] == verbatim[i];
      }
    } else {
      assert |lines| == |verbatim|;
      var i :| 0 <= i < |lines| && lines[i] != verbatim[i];
      assert !Plain(messages[i]);
    }
  }

  lemma LineInjective(a: string, b: string)
    ensures Line(a) == Line(b) <==> a == b
  {
    var head := "[模型加载] ";
    assert Line(a)[|head|..|Line(a)| - 1] == a && Line(b)[|head|..|Line(b)| - 1] == b;
  }

  // ----- the generator ends

  /** Both queues hold, or have given, what ends them. */
  ghost predicate Settled(sc: Script, s: State) {
    && (s.stage == Respond ==> SENTINEL in s.response)
    && (!PastProgress(s.stage) ==> SENTINEL in s.response)
    && (sc.loaded || PROGRESS_SENTINEL in s.tookProgress || PROGRESS_SENTINEL in s.progress)
  }

  function Remaining(s: State): nat {
    4 * |s.progress| + |s.response|
    + match s.stage {
        case Opening => 9
        case TimedOut => 8
        case LookForError(_) => 7
        case Progress => 6
        case Draining => 5
        case Respond => 3
        case Ended => 1
        case _ => 0
      }
  }

  /** Once both ends are queued the generator is never blocked, and each of its steps brings it nearer
      its end. */
  lemma GeneratorMoves(sc: Script, s: State)
    requires Inv(sc, s) && Settled(sc, s) && !Finished(s)
    ensures Enabled(sc, s, Generator)
    ensures var s' := Apply(sc, s, Generator);
      Settled(sc, s') && Remaining(s') < Remaining(s) && s'.error == s.error && s'.pos == s.pos
  {
    hide SENTINEL, PROGRESS_SENTINEL, LOADING_START, MARKER, HEADER, Program, Announced, Decode, Opened, Progresses, Responses, Lines, QueuesAgree;
  }

  function Tasks(n: nat): seq<Side> {
    seq(n, i => Task)
  }

  lemma TaskOnce(sc: Script, s: State)
    requires ValidScript(sc) && Inv(sc, s) && s.pos < |Program(sc)|
    ensures Enabled(sc, s, Task)
    ensures var s' := Apply(sc, s, Task); Inv(sc, s') && s'.pos == s.pos + 1 && s'.stage == s.stage
  {
    hide Inv, Program, Produce;
    StepKeeps(sc, s, Task);
    ProduceMoves(sc, s);
  }

  lemma TaskFirst(sc: Script, s: State, n: nat)
    requires n > 0 && Enabled(sc, s, Task) && Legal(sc, Apply(sc, s, Task), Tasks(n - 1))
    ensures Legal(sc, s, Tasks(n)) && Exec(sc, s, Tasks(n)) == Exec(sc, Apply(sc, s, Task), Tasks(n - 1))
  {
    hide Apply, Enabled;
    assert Tasks(n)[0] == Task && Tasks(n)[1..] == Tasks(n - 1);
  }

  /** The task alone may always run on. */
  lemma {:induction false} TaskAlone(sc: Script, s: State, n: nat) returns (s': State)
    requires ValidScript(sc) && Inv(sc, s) && s.pos + n <= |Program(sc)|
    ensures Legal(sc, s, Tasks(n)) && s' == Exec(sc, s, Tasks(n))
    ensures Inv(sc, s') && s'.pos == s.pos + n && (n == 0 ==> s' == s) && s'.stage == s.stage
    decreases n
  {
    if n == 0 {
      s' := s;
    } else {
      hide Apply, Inv, Enabled, Program;
      TaskOnce(sc, s);
      s' := TaskAlone(sc, Apply(sc, s, Task), n - 1);
      hide Legal, Exec;
      TaskFirst(sc, s, n);
    }
  }

  lemma {:induction false} Joined(sc: Script, s: State, a: seq<Side>, b: seq<Side>)
    requires Legal(sc, s, a) && Legal(sc, Exec(sc, s, a), b)
    ensures Legal(sc, s, a + b) && Exec(sc, s, a + b) == Exec(sc, Exec(sc, s, a), b)
    decreases |a|
  {
    hide Apply, Enabled;
    if a == [] {
      assert a + b == b;
    } else {
      Joined(sc, Apply(sc, s, a[0]), a[1..], b);
      assert (a + b)[1..] == a[1..] + b;
    }
  }

  /** A run of the generator alone to its end. */
  lemma {:induction false} GeneratorEnds(sc: Script, s: State) returns (run: seq<Side>)
    requires ValidScript(sc) && Inv(sc, s) && Settled(sc, s)
    ensures Legal(sc, s, run) && Finished(Exec(sc, s, run)) && Exec(sc, s, run).error == s.error
    ensures |run| <= Remaining(s) && forall i | 0 <= i < |run| :: run[i] == Generator
    ensures Inv(sc, Exec(sc, s, run))
    decreases Remaining(s)
  {
    if Finished(s) {
      run := [];
    } else {
      GeneratorMoves(sc, s);
      StepKeeps(sc, s, Generator);
      hide Apply, Inv, Settled, Remaining, Enabled, Finished;
      var s' := Apply(sc, s, Generator);
      var rest := GeneratorEnds(sc, s');
      run := [Generator] + rest;
      assert run[1..] == rest;
    }
  }

  /** When the worker has run to its end both queues are settled. */
  lemma TaskDoneSettles(sc: Script, s: State)
    requires ValidScript(sc) && Inv(sc, s) && s.pos == |Program(sc)|
    ensures Settled(sc, s)
  {
    ProgramPut(sc);
    assert Program(sc)[..s.pos] == Program(sc);
    hide SENTINEL, PROGRESS_SENTINEL, LOADING_START, MARKER, HEADER, Program, Responses, Progresses, Lines, Decode, Opened, Encoded;
    var taken := s.tookResponse + s.response;
    assert taken == sc.chunks + [SENTINEL];
    assert taken[|taken| - 1] == SENTINEL;
    assert SENTINEL in s.tookResponse || SENTINEL in s.response;
    if !sc.loaded {
      assert PROGRESS_SENTINEL in Ends(sc);
      assert PROGRESS_SENTINEL in Announced(sc) + (Encoded(sc.messages) + Ends(sc));
      assert PROGRESS_SENTINEL in s.tookProgress + s.progress;
    }
  }

  /** No reachable state is stuck: until the generator has ended, the worker or the generator can move, and
      once the worker is done the generator ends by itself. */
  lemma {:induction false} EveryStreamCanEnd(sc: Script, run: seq<Side>) returns (more: seq<Side>)
    requires ValidScript(sc) && Legal(sc, Initial(sc), run)
    ensures var s := Exec(sc, Initial(sc), run);
      && Legal(sc, s, more) && Finished(Exec(sc, s, more))
      && (s.pos == |Program(sc)| ==> |more| <= Remaining(s) && forall i | 0 <= i < |more| :: more[i] == Generator)
  {
    InitialInv(sc);
    RunKeeps(sc, Initial(sc), run);
    var s := Exec(sc, Initial(sc), run);
    hide Exec, Legal, Initial, Program, Remaining;
    var s' := TaskAlone(sc, s, |Program(sc)| - s.pos);
    TaskDoneSettles(sc, s');
    var rest := GeneratorEnds(sc, s');
    more := Tasks(|Program(sc)| - s.pos) + rest;
    Joined(sc, s, Tasks(|Program(sc)| - s.pos), rest);
    if s.pos == |Program(sc)| {
      assert more == rest;
    }
  }

  /** A failing run always ends by raising if and only if no chunk spells the sentinel: otherwise the
      generator can take such a chunk for the end before the error is held. */
  lemma {:induction false} FailureRaisesExactly(sc: Script)
    requires ValidScript(sc) && Fails(sc)
    ensures (forall run: seq<Side> | Legal(sc, Initial(sc), run) && Finished(Exec(sc, Initial(sc), run)) ::
               Exec(sc, Initial(sc), run).stage == Raised)
            <==> SENTINEL !in sc.chunks
  {
    if SENTINEL !in sc.chunks {
      forall run: seq<Side> | Legal(sc, Initial(sc), run) && Finished(Exec(sc, Initial(sc), run))
        ensures Exec(sc, Initial(sc), run).stage == Raised
      {
        var _ := FinishedOutput(sc, run);
      }
    } else {
      var run := MissesTheFailure(sc);
    }
  }

  lemma {:induction false} MissesTheFailure(sc: Script) returns (run: seq<Side>)
    requires ValidScript(sc) && Fails(sc) && SENTINEL in sc.chunks
    ensures Legal(sc, Initial(sc), run) && Exec(sc, Initial(sc), run).stage == Returned
  {
    InitialInv(sc);
    var n := |Work(sc)|;
    var s := TaskAlone(sc, Initial(sc), n);
    WorkDoneSettles(sc, s);
    var rest := GeneratorEnds(sc, s);
    hide Legal, Exec, Initial;
    run := Tasks(n) + rest;
    Joined(sc, Initial(sc), Tasks(n), rest);
    RaisedHeld(sc, Exec(sc, Initial(sc), run));
  }

  lemma RaisedHeld(sc: Script, s: State)
    requires Inv(sc, s) && !s.error && Finished(s)
    ensures s.stage == Returned
  {
  }

  lemma WorkDoneSettles(sc: Script, s: State)
    requires ValidScript(sc) && Fails(sc) && SENTINEL in sc.chunks
    requires Inv(sc, s) && s.stage == Opening && s.pos == |Work(sc)|
    ensures Settled(sc, s) && !s.error
  {
    hide SENTINEL, PROGRESS_SENTINEL, LOADING_START, MARKER, HEADER;
    WorkDoneQueues(sc, s);
    var announced, encoded := Announced(sc), Encoded(sc.messages);
    hide Inv, Announced, Encoded, Work;
    if !sc.loaded {
      assert PROGRESS_SENTINEL in announced + (encoded + [PROGRESS_SENTINEL]);
    }
  }

  lemma WorkDoneQueues(sc: Script, s: State)
    requires ValidScript(sc) && Fails(sc) && sc.chunks != []
    requires Inv(sc, s) && s.stage == Opening && s.pos == |Work(sc)|
    ensures !s.error && s.response == sc.chunks
    ensures !sc.loaded ==> s.progress == Announced(sc) + (Encoded(sc.messages) + [PROGRESS_SENTINEL])
  {
    hide SENTINEL, PROGRESS_SENTINEL, LOADING_START, MARKER, HEADER;
    assert Program(sc)[..s.pos] == Work(sc);
    assert !s.error by { ErrorFree(sc); }
    WorkPut(sc);
    assert s.tookProgress == [] && s.tookResponse == [] && !sc.loadFails;
    hide Program, Responses, Progresses, Encoded, Work, OutputAgrees, StageAgrees, Announced;
    Nothing(s.response);
    Nothing(s.progress);
  }
}
