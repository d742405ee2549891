/** Reasoning that comes after the message has begun: exactly then the log of a stream is not complete. */
module StreamLateness {
  import opened Wrappers
  import opened ResponsesModel
  import opened StreamSteps
  import opened StreamSpec
  import opened StreamLog
  import opened StreamTracking
  import opened StreamCompletion
  import opened StreamRuns
  import opened StreamTheorems
  import opened StreamSafety

  /** Calls are opened in the order 0, 1, 2, ..., and arguments only go to calls that are open. */
  predicate CallsFit(ops: seq<Op>) {
    ops != [] ==> CallsFit(ops[..|ops| - 1]) && CallFits(ops[..|ops| - 1], ops[|ops| - 1])
  }

  predicate CallFits(before: seq<Op>, op: Op) {
    op.Call? ==> ToolFits(|Openings(Tools(before))|, op.td)
  }

  /** Reasoning text after the message has begun. */
  predicate IsLate(ops: seq<Op>, k: nat)
    requires k < |ops|
  {
    ops[k].Think? && ops[k].text != "" && Started(ops[..k])
  }

  predicate SomeLate(ops: seq<Op>) {
    exists k: nat | k < |ops| :: IsLate(ops, k)
  }

  lemma SomeLateSnoc(ops: seq<Op>, op: Op)
    ensures SomeLate(ops + [op]) <==> SomeLate(ops) || (op.Think? && op.text != "" && Started(ops))
  {
    forall k: nat | k < |ops|
      ensures IsLate(ops + [op], k) <==> IsLate(ops, k)
    {
      assert (ops + [op])[..k] == ops[..k];
    }
    if k: nat :| k < |ops| && IsLate(ops, k) {
      assert IsLate(ops + [op], k);
    }
    assert (ops + [op])[..|ops|] == ops;
    assert IsLate(ops + [op], |ops|) <==> op.Think? && op.text != "" && Started(ops);
  }

  /** With calls in order, well-formed means that no reasoning is late. */
  lemma {:induction false} WellFormedUnlessLate(ops: seq<Op>)
    requires CallsFit(ops)
    ensures WellFormed(ops) <==> !SomeLate(ops)
  {
    if ops == [] {
    } else {
      WellFormedUnlessLate(ops[..|ops| - 1]);
      SomeLateSnoc(ops[..|ops| - 1], ops[|ops| - 1]);
      assert ops[..|ops| - 1] + [ops[|ops| - 1]] == ops;
    }
  }

  // ----- States that cannot be completed any more -----

  predicate CallsPlaced(st: State) {
    forall k | 0 <= k < |st.data.calls| :: st.data.calls[k].outputIndex == MessageIndex(st) + 1 + k
  }

  /** What stands at index 0: text behind the end of reasoning, or more text than the message has. */
  predicate Misplaced(st: State) {
    var evs := At(st.log, 0);
    if st.hadReasoning then evs != [] && evs[|evs| - 1].TextDelta?
    else |Joined(evs)| > |st.data.messageText|
  }

  predicate Spoiled(st: State, ops: seq<Op>) {
    && st.phase == MessageInProgress && st.finish == None && |st.data.calls| == |Openings(Tools(ops))|
    && CallsPlaced(st) && Misplaced(st)
  }

  /** The first late reasoning spoils the log. */
  lemma LateSpoils(m: Meta, st: State, ops: seq<Op>, text: string)
    requires Tracks(m, st, ops) && !Fits(ops, Think(text))
    ensures Spoiled(OnReasoning(m, st, text), ops + [Think(text)])
  {
    LateReasoningIsMisplaced(m, st, ops, text);
    OneMoreOp(ops, Think(text));
    assert Tools(ops) + [] == Tools(ops);
    var evs := At(OnReasoning(m, st, text).log, 0);
    assert evs[|evs| - 1] == TextDelta(0, text);
    assert |Said(ops) + text| == |Said(ops)| + |text|;
  }

  /** Without reasoning all text goes to index 0, and none of it leaves the message with as much. */
  lemma TextStays(st: State, e: Event, st': State)
    requires Misplaced(st) && e.TextDelta? && st'.log == st.log + [e] && st'.hadReasoning == st.hadReasoning
    requires !st.hadReasoning ==> e.index == 0 && |st'.data.messageText| <= |st.data.messageText| + |e.delta|
    ensures Misplaced(st')
  {
    AtOneMore(st.log, e, 0);
    JoinedSnoc(At(st.log, 0), e);
    assert At(st.log, 0) + [] == At(st.log, 0);
  }

  lemma ElsewhereStays(st: State, more: seq<Event>, st': State)
    requires Misplaced(st) && At(more, 0) == [] && st'.log == st.log + more && st'.hadReasoning == st.hadReasoning
    requires st'.data.messageText == st.data.messageText
    ensures Misplaced(st')
  {
    AtAppend(st.log, more, 0);
    assert At(st.log, 0) + [] == At(st.log, 0);
  }

  lemma TextStepSpoiled(m: Meta, st: State, ops: seq<Op>, op: Op)
    requires Spoiled(st, ops) && !op.Call?
    ensures Spoiled(Step(m, st, op), ops + [op])
  {
    OneMoreOp(ops, op);
    assert Tools(ops) + [] == Tools(ops);
    match op
    case Think(text) =>
      if text != "" {
        assert st.log + [] + [TextDelta(0, text)] == st.log + [TextDelta(0, text)];
        TextStays(st, TextDelta(0, text), Step(m, st, op));
      }
    case Role(_) =>
    case Say(text) =>
      if text != "" {
        assert st.log + [] + [TextDelta(MessageIndex(st), text)] == st.log + [TextDelta(MessageIndex(st), text)];
        TextStays(st, TextDelta(MessageIndex(st), text), Step(m, st, op));
      }
    case Show(_, _) =>
  }

  /** Events of calls that fit are behind the message. */
  lemma ToolEventsElsewhere(m: Meta, st: State, td: ToolDelta)
    requires st.phase == MessageInProgress && ToolFits(|st.data.calls|, td)
    ensures At(ToolEvents(m, st, td), 0) == []
  {
    var index, id := CallIndex(st, td), IdText(td.id);
    var added := ItemAdded(index, FunctionCallItem(FunctionCallId(id), id, td.name.GetOr(""), "", Pending));
    var delta := ArgumentsDelta(index, CallIdAt(CallsAfter(st, td), index), td.arguments);
    var opening := if td.id.Absent? then [] else [added];
    var extending := if td.arguments == "" then [] else [delta];
    assert [] + [added] == [added];
    assert ToolEvents(m, st, td) == opening + extending;
    AtAppend(opening, extending, 0);
    OneEvent(added, 0);
    OneEvent(delta, 0);
  }

  lemma CallsStayPlaced(st: State, td: ToolDelta)
    requires CallsPlaced(st) && ToolFits(|st.data.calls|, td)
    ensures |CallsAfter(st, td)| == |st.data.calls| + if td.id.Absent? then 0 else 1
    ensures forall k | 0 <= k < |CallsAfter(st, td)| :: CallsAfter(st, td)[k].outputIndex == MessageIndex(st) + 1 + k
  {
  }

  lemma ToolStepSpoiled(m: Meta, st: State, ops: seq<Op>, td: ToolDelta)
    requires Spoiled(st, ops) && CallFits(ops, Call(td))
    ensures Spoiled(OnToolDelta(m, st, td), ops + [Call(td)])
  {
    OneMoreOp(ops, Call(td));
    assert (Tools(ops) + [td])[..|Tools(ops)|] == Tools(ops);
    ToolEventsElsewhere(m, st, td);
    CallsStayPlaced(st, td);
    ElsewhereStays(st, ToolEvents(m, st, td), OnToolDelta(m, st, td));
  }

  // ----- All steps -----

  /** As long as nothing is late the stream is tracked; from then on the log is spoiled. */
  ghost predicate Followed(m: Meta, st: State, ops: seq<Op>) {
    CallsFit(ops) && if WellFormed(ops) then Tracks(m, st, ops) else Spoiled(st, ops)
  }

  lemma {:induction false} StepFollowed(m: Meta, st: State, ops: seq<Op>, op: Op)
    requires Followed(m, st, ops) && CallFits(ops, op)
    ensures Followed(m, Step(m, st, op), ops + [op])
  {
    OneMoreOp(ops, op);
    assert (ops + [op])[..|ops|] == ops;
    if !WellFormed(ops) {
      if op.Call? {
        ToolStepSpoiled(m, st, ops, op.td);
      } else {
        TextStepSpoiled(m, st, ops, op);
      }
    } else if Fits(ops, op) {
      StepTracks(m, st, ops, op);
    } else {
      assert Tracks(m, st, ops);
      assert |Openings(Tools(ops))| == |st.data.calls|;
      LateSpoils(m, st, ops, op.text);
    }
  }

  lemma {:induction false} CallsFitPrefix(a: seq<Op>, b: seq<Op>)
    requires CallsFit(a + b)
    ensures CallsFit(a)
    decreases |b|
  {
    if b == [] {
      assert a + b == a;
    } else {
      assert (a + b)[..|a + b| - 1] == a + b[..|b| - 1];
      CallsFitPrefix(a, b[..|b| - 1]);
    }
  }

  lemma {:induction false} StepsFollowed(m: Meta, st: State, ops: seq<Op>, more: seq<Op>)
    requires Followed(m, st, ops) && CallsFit(ops + more)
    ensures Followed(m, Steps(m, st, more), ops + more)
    decreases |more|
  {
    if more == [] {
      assert ops + more == ops;
    } else {
      var init, op := more[..|more| - 1], more[|more| - 1];
      assert ops + init + [op] == ops + more;
      assert (ops + more)[..|ops + more| - 1] == ops + init;
      StepsFollowed(m, st, ops, init);
      StepFollowed(m, Steps(m, st, init), ops + init, op);
    }
  }

  // ----- Runs -----

  lemma FreshFollowed(m: Meta)
    ensures Followed(m, FRESH, [])
  {
    FreshTracks(m);
  }

  /** Learning from the next chunk leaves what is followed. */
  lemma {:induction false} LearnFollowed(m: Meta, chunks: seq<Chunk>, chatId: string)
    requires m.chunkId == m.responseId && OneId(chunks, m.responseId, chatId) && chunks != []
    requires var init := chunks[..|chunks| - 1]; Followed(Run(m, FRESH, init).0, Run(m, FRESH, init).1, Ops(init))
    ensures var init, last := chunks[..|chunks| - 1], chunks[|chunks| - 1];
            Followed(Learn(Run(m, FRESH, init).0, last), Run(m, FRESH, init).1, Ops(init))
  {
    if WellFormed(Ops(chunks[..|chunks| - 1])) {
      LearnTracks(m, chunks, chatId);
    }
  }

  /** A stream without a finish reason is followed to its end. */
  lemma {:induction false} RunFollowed(m: Meta, chunks: seq<Chunk>, chatId: string)
    requires m.chunkId == m.responseId && OneId(chunks, m.responseId, chatId)
    requires Unfinished(Choices(chunks)) && CallsFit(Ops(chunks))
    ensures var (m', st) := Run(m, FRESH, chunks); Followed(m', st, Ops(chunks))
  {
    if chunks == [] {
      FreshFollowed(m);
    } else {
      var init, last := chunks[..|chunks| - 1], chunks[|chunks| - 1];
      Split(chunks);
      CallsFitPrefix(Ops(init), Transcript(last.choices));
      RunFollowed(m, init, chatId);
      LearnFollowed(m, chunks, chatId);
      var (m', st) := Run(m, FRESH, init);
      ChoicesAreSteps(Learn(m', last), st, last.choices, last.usage);
      StepsFollowed(Learn(m', last), st, Ops(init), Transcript(last.choices));
    }
  }

  /** A stream with a finish reason in its last choice is completed from a state that has been followed. */
  lemma {:induction false} FinishFollowed(m: Meta, chunks: seq<Chunk>, chatId: string) returns (m': Meta, st: State)
    requires m.chunkId == m.responseId && OneId(chunks, m.responseId, chatId)
    requires Ended(Choices(chunks)) && Ending(Choices(chunks)).Some? && CallsFit(Ops(chunks))
    ensures Followed(m', st, Ops(chunks))
    ensures var f := Ending(Choices(chunks)).value;
            Run(m, FRESH, chunks).1 == Complete(m', st.(finish := Some(f)), StatusOf(f), EndingUsage(chunks))
  {
    var init, last := chunks[..|chunks| - 1], chunks[|chunks| - 1];
    Split(chunks);
    if last.choices == [] {
      assert Choices(chunks) == Choices(init);
      m', st := FinishFollowed(m, init, chatId);
    } else {
      UnfinishedParts(Choices(init), last.choices);
      CallsFitPrefix(Ops(init), Transcript(last.choices));
      RunFollowed(m, init, chatId);
      LearnFollowed(m, chunks, chatId);
      m' := Learn(Run(m, FRESH, init).0, last);
      st := LastFollowed(m', Run(m, FRESH, init).1, Ops(init), last.choices, last.usage);
    }
  }

  lemma {:induction false} LastFollowed(m: Meta, st0: State, ops: seq<Op>, cs: seq<Choice>, usage: Option<Json>)
    returns (st: State)
    requires Followed(m, st0, ops) && CallsFit(ops + Transcript(cs))
    requires cs != [] && Unfinished(cs[..|cs| - 1]) && FinishOf(cs[|cs| - 1]).Some?
    ensures Followed(m, st, ops + Transcript(cs))
    ensures var f := FinishOf(cs[|cs| - 1]).value;
            OnChoices(m, st0, cs, usage) == Complete(m, st.(finish := Some(f)), StatusOf(f), usage)
  {
    st := Steps(m, st0, Transcript(cs));
    StepsFollowed(m, st0, ops, Transcript(cs));
    LastCompletes(m, st0, cs, usage);
  }

  lemma {:induction false} LastCompletes(m: Meta, st0: State, cs: seq<Choice>, usage: Option<Json>)
    requires cs != [] && Unfinished(cs[..|cs| - 1]) && FinishOf(cs[|cs| - 1]).Some?
    ensures var f := FinishOf(cs[|cs| - 1]).value;
            OnChoices(m, st0, cs, usage) ==
            Complete(m, Steps(m, st0, Transcript(cs)).(finish := Some(f)), StatusOf(f), usage)
  {
    var before, c := cs[..|cs| - 1], cs[|cs| - 1];
    StepsAppend(m, st0, Transcript(before), Transcript([c]));
    TranscriptAppend(before, [c]);
    assert before + [c] == cs;
    ChoicesAreSteps(m, st0, before, usage);
    OneChoice(m, Steps(m, st0, Transcript(before)), c);
  }

  // ----- The completed log -----

  /** What follows at index 0 when a spoiled log is completed is nothing, or the end of the message. */
  lemma CompletedAtZero(m: Meta, st: State, status: Status, usage: Option<Json>)
    requires st.phase == MessageInProgress && CallsPlaced(st)
    ensures var part, done := Part(st.data.messageText, st.data.annotations), MessageResult(m, st.data, status);
            At(Complete(m, st, status, usage).log, 0) ==
            At(st.log, 0) + if st.hadReasoning then [] else [PartDone(0, part), ItemDone(0, done)]
  {
    var b := MessageIndex(st);
    var part, done := Part(st.data.messageText, st.data.annotations), MessageResult(m, st.data, status);
    var items := ItemsDone(m, st.hadReasoning, st.data, st.finish, status);
    var response := FinalResponse(m, st.hadReasoning, st.data, st.finish, status, usage);
    assert st.log + [] == st.log;
    AtClosed(st.log, items, response, 0);
    ItemsDoneSum(m, st.hadReasoning, st.data, st.finish, status, 0);
    ThreeParts(CallsAt(b + 1, st.data.calls, status, 0), MessageAt(b, part, done, 0),
               ImageAt(m, b + 1 + |st.data.calls|, st.data.images, ImageStatusOf(st.finish), 0));
  }

  lemma ReasoningEnds(evs: seq<Event>, index: int, item: Item, early: bool)
    requires item.ReasoningItem? && Lifecycle(evs, index, item, early)
    ensures evs != [] && evs[|evs| - 1].ItemDone?
  {
    assert evs[|evs| - 2..][1] == evs[|evs| - 1];
  }

  /** Then the events at index 0 are not the life of the item there. */
  lemma SpoiledAtZero(m: Meta, st: State, status: Status, usage: Option<Json>, early: bool)
    requires Misplaced(st) && st.phase == MessageInProgress && CallsPlaced(st)
    ensures var output := FinalOutput(m, st.hadReasoning, st.data, st.finish, status);
            output != [] && !Lifecycle(At(Complete(m, st, status, usage).log, 0), 0, output[0], early)
  {
    var before, evs := At(st.log, 0), At(Complete(m, st, status, usage).log, 0);
    var item := FinalOutput(m, st.hadReasoning, st.data, st.finish, status)[0];
    CompletedAtZero(m, st, status, usage);
    if st.hadReasoning {
      assert evs == before;
      if Lifecycle(evs, 0, item, early) {
        ReasoningEnds(evs, 0, item, early);
      }
    } else {
      var part, done := Part(st.data.messageText, st.data.annotations), MessageResult(m, st.data, status);
      var end := [PartDone(0, part), ItemDone(0, done)];
      JoinedAppend(before, end);
      NothingJoined(end);
      if Lifecycle(evs, 0, item, early) {
        LifecycleJoined(evs, 0, item, early);
      }
    }
  }

  /** A log whose last event reports a response that it is the complete log of. */
  ghost predicate IsComplete(log: seq<Event>) {
    && log != [] && log[|log| - 1].Completed?
    && (CompleteLog(log, Reported(log), true) || CompleteLog(log, Reported(log), false))
  }

  lemma CompletedWhenFollowed(m: Meta, st: State, ops: seq<Op>, finish: Finish, usage: Option<Json>)
    requires Followed(m, st, ops)
    ensures var log := Complete(m, st.(finish := Some(finish)), StatusOf(finish), usage).log;
            log != [] && log[|log| - 1].Completed? && (IsComplete(log) <==> WellFormed(ops))
  {
    var st', status := st.(finish := Some(finish)), StatusOf(finish);
    var log := Complete(m, st', status, usage).log;
    var response := FinalResponse(m, st'.hadReasoning, st'.data, st'.finish, status, usage);
    assert log[|log| - 1] == Completed(response);
    if WellFormed(ops) {
      FinishKeepsLog(m, st, finish);
      CompletesLog(m, st', status, usage);
    } else {
      SpoiledAtZero(m, st', status, usage, true);
      SpoiledAtZero(m, st', status, usage, false);
    }
  }

  /**
   * For a stream with calls in order, finished or cut off, the completed response is what the log before it has told,
   * item by item, exactly when no reasoning comes after the message has begun.
   */
  lemma CompleteUnlessLate(responseId: string, model: string, chunks: seq<Chunk>, chatId: string)
    requires OneId(chunks, responseId, chatId) && Ended(Choices(chunks)) && CallsFit(Ops(chunks)) && !Silent(chunks)
    ensures var log := Relayed(responseId, model, chunks);
            && log != [] && log[|log| - 1].Completed? && (IsComplete(log) <==> !SomeLate(Ops(chunks)))
  {
    var m := Initially(responseId, model);
    WellFormedUnlessLate(Ops(chunks));
    if Ending(Choices(chunks)).Some? {
      var m', st := FinishFollowed(m, chunks, chatId);
      CompletedWhenFollowed(m', st, Ops(chunks), Ending(Choices(chunks)).value, EndingUsage(chunks));
    } else {
      assert Unfinished(Choices(chunks));
      RunFollowed(m, chunks, chatId);
      RunUnderway(m, chunks);
      var (m', st) := Run(m, FRESH, chunks);
      CutOffFollowed(m', st, Ops(chunks));
    }
  }

  lemma CutOffFollowed(m: Meta, st: State, ops: seq<Op>)
    requires Followed(m, st, ops) && st.phase != NotStarted && st.phase != Finished
    ensures var log := Finalize(m, st).log;
            log != [] && log[|log| - 1].Completed? && (IsComplete(log) <==> WellFormed(ops))
  {
    CompletedWhenFollowed(m, st, ops, Length, None);
  }
}
