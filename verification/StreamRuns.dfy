/** Streams of chunks: a well-formed stream is tracked through all its chunks, up to the one that completes it. */
module StreamRuns {
  import opened Wrappers
  import opened ResponsesModel
  import opened StreamSteps
  import opened StreamSpec
  import opened StreamTracking

  function Choices(chunks: seq<Chunk>): seq<Choice> {
    if chunks == [] then [] else Choices(chunks[..|chunks| - 1]) + chunks[|chunks| - 1].choices
  }

  /** The first chunk brings the identifier, or it is the one of the response; no chunk brings another one. */
  predicate OneId(chunks: seq<Chunk>, responseId: string, chatId: string) {
    && (chunks != [] ==> chunks[0].id.GetOr(responseId) == chatId)
    && forall k | 0 <= k < |chunks| :: chunks[k].id.GetOr(chatId) == chatId
  }

  predicate Unfinished(cs: seq<Choice>) {
    forall k | 0 <= k < |cs| :: FinishOf(cs[k]).None?
  }

  /** A finish reason stands in the last choice and nowhere before, or there is none. */
  predicate Ended(cs: seq<Choice>) {
    cs != [] ==> Unfinished(cs[..|cs| - 1])
  }

  function Ending(cs: seq<Choice>): Option<Finish> {
    if cs == [] then None else FinishOf(cs[|cs| - 1])
  }

  /** The usage that comes with the last choice. */
  function EndingUsage(chunks: seq<Chunk>): Option<Json> {
    if chunks == [] then None
    else if chunks[|chunks| - 1].choices == [] then EndingUsage(chunks[..|chunks| - 1])
    else chunks[|chunks| - 1].usage
  }

  /** The creation time is the first one that a chunk brings and that is not zero. */
  function FirstCreated(chunks: seq<Chunk>): int {
    if chunks == [] then 0
    else
      var known := FirstCreated(chunks[..|chunks| - 1]);
      if known == 0 then chunks[|chunks| - 1].created.GetOr(0) else known
  }

  /** The creation time known when the last choice comes. */
  function EndingCreated(chunks: seq<Chunk>): int {
    if chunks == [] then 0
    else if chunks[|chunks| - 1].choices == [] then EndingCreated(chunks[..|chunks| - 1])
    else FirstCreated(chunks)
  }

  lemma {:induction false} TranscriptAppend(a: seq<Choice>, b: seq<Choice>)
    ensures Transcript(a + b) == Transcript(a) + Transcript(b)
  {
    if b == [] {
      assert a + b == a;
    } else {
      assert (a + b)[..|a + b| - 1] == a + b[..|b| - 1];
      TranscriptAppend(a, b[..|b| - 1]);
    }
  }

  lemma OneChoice(m: Meta, st: State, c: Choice)
    ensures (if c.delta.Some? then OnDelta(m, st, c.delta.value) else st) == Steps(m, st, Transcript([c]))
  {
    assert [c][..0] == [];
    if c.delta.Some? {
      DeltaSteps(m, st, c.delta.value);
      assert [] + OpsOf(c.delta.value) == OpsOf(c.delta.value);
    }
  }

  /** Choices without a finish reason are the steps of their deltas. */
  lemma {:induction false} ChoicesAreSteps(m: Meta, st: State, cs: seq<Choice>, usage: Option<Json>)
    requires Unfinished(cs)
    ensures OnChoices(m, st, cs, usage) == Steps(m, st, Transcript(cs))
  {
    if cs == [] {
    } else {
      var init, c := cs[..|cs| - 1], cs[|cs| - 1];
      ChoicesAreSteps(m, st, init, usage);
      OneChoice(m, Steps(m, st, Transcript(init)), c);
      StepsAppend(m, st, Transcript(init), Transcript([c]));
      assert init + [c] == cs;
      TranscriptAppend(init, [c]);
    }
  }

  lemma ChoicesTrack(m: Meta, st: State, ops: seq<Op>, cs: seq<Choice>, usage: Option<Json>)
    requires Tracks(m, st, ops) && Unfinished(cs) && WellFormed(ops + Transcript(cs))
    ensures Tracks(m, OnChoices(m, st, cs, usage), ops + Transcript(cs))
  {
    ChoicesAreSteps(m, st, cs, usage);
    StepsTrack(m, st, ops, Transcript(cs));
  }

  /** The identifier is learned with the first chunk and kept. */
  lemma {:induction false} IdIsKept(m: Meta, st: State, chunks: seq<Chunk>, chatId: string)
    requires m.chunkId == m.responseId && OneId(chunks, m.responseId, chatId)
    ensures var m' := Run(m, st, chunks).0;
            && m'.responseId == m.responseId && m'.model == m.model
            && (chunks != [] ==> m'.chunkId == chatId) && (chunks == [] ==> m' == m)
            && (m.created == 0 ==> m'.created == FirstCreated(chunks))
  {
    if chunks == [] {
    } else {
      var init := chunks[..|chunks| - 1];
      IdIsKept(m, st, init, chatId);
    }
  }

  /** A stream without a finish reason is tracked to its end. */
  lemma {:induction false} RunTracks(m: Meta, chunks: seq<Chunk>, chatId: string)
    requires m.chunkId == m.responseId && OneId(chunks, m.responseId, chatId)
    requires Unfinished(Choices(chunks)) && WellFormed(Transcript(Choices(chunks)))
    ensures var (m', st) := Run(m, FRESH, chunks); Tracks(m', st, Transcript(Choices(chunks)))
  {
    if chunks == [] {
      FreshTracks(m);
    } else {
      var init, last := chunks[..|chunks| - 1], chunks[|chunks| - 1];
      Split(chunks);
      WellFormedPrefix(Transcript(Choices(init)), Transcript(last.choices));
      RunTracks(m, init, chatId);
      var (m', st) := Run(m, FRESH, init);
      LearnTracks(m, chunks, chatId);
      ChoicesTrack(Learn(m', last), st, Transcript(Choices(init)), last.choices, last.usage);
    }
  }

  lemma Split(chunks: seq<Chunk>)
    requires chunks != []
    ensures var init, last := chunks[..|chunks| - 1], chunks[|chunks| - 1];
            && Transcript(Choices(chunks)) == Transcript(Choices(init)) + Transcript(last.choices)
            && (Unfinished(Choices(chunks)) <==> Unfinished(Choices(init)) && Unfinished(last.choices))
  {
    var init, last := chunks[..|chunks| - 1], chunks[|chunks| - 1];
    TranscriptAppend(Choices(init), last.choices);
    if Unfinished(Choices(chunks)) {
      assert Choices(chunks)[..|Choices(init)|] == Choices(init);
      assert Choices(chunks)[|Choices(init)|..] == last.choices;
      forall k | 0 <= k < |last.choices|
        ensures FinishOf(last.choices[k]).None?
      {
        assert last.choices[k] == Choices(chunks)[|Choices(init)| + k];
      }
    }
  }

  /** Learning from the next chunk leaves what has been tracked. */
  lemma LearnTracks(m: Meta, chunks: seq<Chunk>, chatId: string)
    requires m.chunkId == m.responseId && OneId(chunks, m.responseId, chatId) && chunks != []
    requires var init := chunks[..|chunks| - 1];
             Tracks(Run(m, FRESH, init).0, Run(m, FRESH, init).1, Transcript(Choices(init)))
    ensures var init, last := chunks[..|chunks| - 1], chunks[|chunks| - 1];
            Tracks(Learn(Run(m, FRESH, init).0, last), Run(m, FRESH, init).1, Transcript(Choices(init)))
  {
    var init, last := chunks[..|chunks| - 1], chunks[|chunks| - 1];
    var (m', st) := Run(m, FRESH, init);
    IdIsKept(m, FRESH, init, chatId);
    if init == [] {
      FreshTracks(Learn(m', last));
    } else {
      TracksOn(m', Learn(m', last), st, Transcript(Choices(init)));
    }
  }

  /**
   * A stream with a finish reason in its last choice is completed from a state that holds all its deltas; chunks
   * without choices may follow.
   */
  lemma {:induction false} RunCompletes(m: Meta, chunks: seq<Chunk>, chatId: string) returns (m': Meta, st: State)
    requires m.chunkId == m.responseId && OneId(chunks, m.responseId, chatId)
    requires Ended(Choices(chunks)) && Ending(Choices(chunks)).Some? && WellFormed(Transcript(Choices(chunks)))
    ensures m'.chunkId == chatId && m'.model == m.model && Tracks(m', st, Transcript(Choices(chunks)))
    ensures m.created == 0 ==> m'.created == EndingCreated(chunks)
    ensures var f := Ending(Choices(chunks)).value;
            Run(m, FRESH, chunks).1 == Complete(m', st.(finish := Some(f)), StatusOf(f), EndingUsage(chunks))
  {
    var init, last := chunks[..|chunks| - 1], chunks[|chunks| - 1];
    Split(chunks);
    if last.choices == [] {
      assert Choices(chunks) == Choices(init);
      m', st := RunCompletes(m, init, chatId);
    } else {
      m', st := LastChunk(m, chunks, chatId);
    }
  }

  lemma UnfinishedParts(a: seq<Choice>, b: seq<Choice>)
    requires b != [] && Unfinished((a + b)[..|a + b| - 1])
    ensures Unfinished(a) && Unfinished(b[..|b| - 1])
  {
    var init := (a + b)[..|a + b| - 1];
    assert forall k | 0 <= k < |a| :: a[k] == init[k];
    assert forall k | 0 <= k < |b| - 1 :: b[k] == init[|a| + k];
  }

  /** The chunk with the finish reason completes the stream, after its own deltas. */
  lemma LastChunk(m: Meta, chunks: seq<Chunk>, chatId: string) returns (m': Meta, st: State)
    requires m.chunkId == m.responseId && OneId(chunks, m.responseId, chatId) && chunks != []
    requires chunks[|chunks| - 1].choices != []
    requires Ended(Choices(chunks)) && Ending(Choices(chunks)).Some? && WellFormed(Transcript(Choices(chunks)))
    ensures m'.chunkId == chatId && m'.model == m.model && Tracks(m', st, Transcript(Choices(chunks)))
    ensures m.created == 0 ==> m'.created == FirstCreated(chunks)
    ensures var f := Ending(Choices(chunks)).value;
            Run(m, FRESH, chunks).1 == Complete(m', st.(finish := Some(f)), StatusOf(f), chunks[|chunks| - 1].usage)
  {
    var init, last := chunks[..|chunks| - 1], chunks[|chunks| - 1];
    BeforeLast(m, chunks, chatId);
    Split(chunks);
    IdIsKept(m, FRESH, chunks, chatId);
    m' := Learn(Run(m, FRESH, init).0, last);
    st := LastChoices(m', Run(m, FRESH, init).1, Transcript(Choices(init)), last.choices, last.usage);
  }

  /** What has been tracked when the last chunk comes. */
  lemma BeforeLast(m: Meta, chunks: seq<Chunk>, chatId: string)
    requires m.chunkId == m.responseId && OneId(chunks, m.responseId, chatId) && chunks != []
    requires chunks[|chunks| - 1].choices != [] && Unfinished(Choices(chunks)[..|Choices(chunks)| - 1])
    requires WellFormed(Transcript(Choices(chunks)))
    ensures var init, last := chunks[..|chunks| - 1], chunks[|chunks| - 1];
            && Tracks(Learn(Run(m, FRESH, init).0, last), Run(m, FRESH, init).1, Transcript(Choices(init)))
            && Unfinished(last.choices[..|last.choices| - 1])
  {
    var init, last := chunks[..|chunks| - 1], chunks[|chunks| - 1];
    UnfinishedParts(Choices(init), last.choices);
    Split(chunks);
    WellFormedPrefix(Transcript(Choices(init)), Transcript(last.choices));
    RunTracks(m, init, chatId);
    LearnTracks(m, chunks, chatId);
  }

  lemma SplitOps(ops: seq<Op>, cs: seq<Choice>)
    requires cs != []
    ensures ops + Transcript(cs) == ops + Transcript(cs[..|cs| - 1]) + Transcript([cs[|cs| - 1]])
  {
    var before, c := cs[..|cs| - 1], cs[|cs| - 1];
    assert before + [c] == cs;
    TranscriptAppend(before, [c]);
    Associates(ops, Transcript(before), Transcript([c]));
  }

  lemma Associates(a: seq<Op>, b: seq<Op>, c: seq<Op>)
    ensures a + (b + c) == a + b + c
  {
  }

  lemma LastChoices(m: Meta, st0: State, ops: seq<Op>, cs: seq<Choice>, usage: Option<Json>) returns (st: State)
    requires Tracks(m, st0, ops) && WellFormed(ops + Transcript(cs))
    requires cs != [] && Unfinished(cs[..|cs| - 1]) && FinishOf(cs[|cs| - 1]).Some?
    ensures Tracks(m, st, ops + Transcript(cs))
    ensures var f := FinishOf(cs[|cs| - 1]).value;
            OnChoices(m, st0, cs, usage) == Complete(m, st.(finish := Some(f)), StatusOf(f), usage)
  {
    var before, c := cs[..|cs| - 1], cs[|cs| - 1];
    SplitOps(ops, cs);
    WellFormedPrefix(ops + Transcript(before), Transcript([c]));
    ChoicesTrack(m, st0, ops, before, usage);
    st := FinishingChoice(m, OnChoices(m, st0, before, usage), ops + Transcript(before), c, usage);
  }

  lemma FinishingChoice(m: Meta, a: State, ops: seq<Op>, c: Choice, usage: Option<Json>) returns (st: State)
    requires Tracks(m, a, ops) && WellFormed(ops + Transcript([c])) && FinishOf(c).Some?
    ensures Tracks(m, st, ops + Transcript([c]))
    ensures var f := FinishOf(c).value; OnChoice(m, a, c, usage) == Complete(m, st.(finish := Some(f)), StatusOf(f), usage)
  {
    OneChoice(m, a, c);
    StepsTrack(m, a, ops, Transcript([c]));
    st := Steps(m, a, Transcript([c]));
  }
}
