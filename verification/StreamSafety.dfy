/** What holds of every stream, well-formed or not, and what only holds of well-formed ones. */
module StreamSafety {
  import opened Wrappers
  import opened ResponsesModel
  import opened StreamSteps
  import opened StreamSpec
  import opened StreamLog
  import opened StreamTracking
  import opened StreamRuns
  import opened StreamTheorems

  // ----- Conservation of deltas in a complete log -----

  /** The text that an item ends up with. */
  function TextOf(item: Item): string {
    match item
    case ReasoningItem(_, _, content) => if content == [] then "" else content[0].text
    case MessageItem(_, _, content) => if content == [] then "" else content[0].text
    case FunctionCallItem(_, _, _, arguments, _) => arguments
    case ImageItem(_, _, _) => ""
  }

  predicate IsDelta(e: Event) {
    e.TextDelta? || e.ArgumentsDelta?
  }

  lemma {:induction false} JoinedAppend(a: seq<Event>, b: seq<Event>)
    ensures Joined(a + b) == Joined(a) + Joined(b)
  {
    if b == [] {
      assert a + b == a;
    } else {
      assert (a + b)[..|a + b| - 1] == a + b[..|b| - 1];
      JoinedAppend(a, b[..|b| - 1]);
    }
  }

  lemma {:induction false} NothingJoined(evs: seq<Event>)
    requires forall k | 0 <= k < |evs| :: !IsDelta(evs[k])
    ensures Joined(evs) == ""
  {
    if evs == [] {
    } else {
      NothingJoined(evs[..|evs| - 1]);
    }
  }

  lemma OpenTextJoined(evs: seq<Event>, index: int, added: Item, text: string)
    requires OpenText(evs, index, added, text)
    ensures Joined(evs) == text
  {
    assert evs == evs[..2] + evs[2..] && evs[0] == evs[..2][0] && evs[1] == evs[..2][1];
    JoinedAppend(evs[..2], evs[2..]);
    NothingJoined(evs[..2]);
  }

  lemma ClosedTextJoined(evs: seq<Event>, index: int, added: Item, part: Part, done: Item)
    requires ClosedText(evs, index, added, part, done)
    ensures Joined(evs) == part.text
  {
    var n := |evs| - 2;
    assert evs == evs[..n] + evs[n..] && evs[n] == evs[n..][0] && evs[n + 1] == evs[n..][1];
    OpenTextJoined(evs[..n], index, added, part.text);
    JoinedAppend(evs[..n], evs[n..]);
    NothingJoined(evs[n..]);
  }

  lemma CallJoined(evs: seq<Event>, index: int, item: Item, closedEarly: bool)
    requires item.FunctionCallItem? && Lifecycle(evs, index, item, closedEarly)
    ensures Joined(evs) == item.arguments
  {
    var init, n := evs[..|evs| - 1], |evs| - 1;
    JoinedAppend([init[0]], init[1..]);
    assert init == [init[0]] + init[1..] && evs == init + [evs[n]];
    NothingJoined([init[0]]);
    JoinedAppend(init, [evs[n]]);
    NothingJoined([evs[n]]);
  }

  /** The deltas at the index of an item add up to the text of the item. */
  lemma LifecycleJoined(evs: seq<Event>, index: int, item: Item, closedEarly: bool)
    requires Lifecycle(evs, index, item, closedEarly)
    ensures Joined(evs) == TextOf(item)
  {
    match item
    case FunctionCallItem(_, _, _, _, _) =>
      CallJoined(evs, index, item, closedEarly);
    case ImageItem(_, _, _) =>
      NothingJoined(evs);
    case _ => TextItemJoined(evs, index, item, closedEarly);
  }

  lemma TextItemJoined(evs: seq<Event>, index: int, item: Item, closedEarly: bool)
    requires (item.ReasoningItem? || item.MessageItem?) && Lifecycle(evs, index, item, closedEarly)
    ensures Joined(evs) == TextOf(item)
  {
    match item
    case ReasoningItem(id, status, content) =>
      ClosedTextJoined(evs, index, ReasoningItem(id, Pending, []), content[0],
                       ReasoningItem(id, if closedEarly then Done else status, content));
    case MessageItem(id, _, content) =>
      ClosedTextJoined(evs, index, MessageItem(id, Pending, []), content[0], item);
  }

  /** At every output index the deltas of a well-formed stream add up to the text of the completed item there. */
  lemma DeltasAreConserved(responseId: string, model: string, chunks: seq<Chunk>, chatId: string, i: nat)
    requires Proper(chunks, responseId, chatId) && !Silent(chunks)
    requires var log := Relayed(responseId, model, chunks);
             log != [] && log[|log| - 1].Completed? && i < |Reported(log).output|
    ensures var log := Relayed(responseId, model, chunks); Joined(At(log, i)) == TextOf(Reported(log).output[i])
  {
    var log := Relayed(responseId, model, chunks);
    WholeStream(responseId, model, chunks, chatId);
    LifecycleJoined(At(log, i), i, Reported(log).output[i], Started(Ops(chunks)));
  }

  /**
   * The final event of the reasoning item agrees with its entry in the completed output, except when the message has
   * begun before the stream was cut short: then reasoning has already been reported as completed.
   */
  lemma ReasoningStatus(responseId: string, model: string, chunks: seq<Chunk>, chatId: string)
    requires Proper(chunks, responseId, chatId) && Thinking(Ops(chunks)) != ""
    ensures var log := Relayed(responseId, model, chunks);
            && log != [] && log[|log| - 1].Completed? && Reported(log).output != []
            && At(log, 0) != [] && At(log, 0)[|At(log, 0)| - 1].ItemDone?
            && (At(log, 0)[|At(log, 0)| - 1].item == Reported(log).output[0] <==>
                !Started(Ops(chunks)) || FinishReason(chunks).Stop?)
  {
    var log := Relayed(responseId, model, chunks);
    WholeStream(responseId, model, chunks, chatId);
    var evs, item := At(log, 0), Reported(log).output[0];
    assert item == ReasoningItem(ReasoningId(chatId), StatusOf(FinishReason(chunks)),
                                 [Part(Thinking(Ops(chunks)), [])]);
    assert Lifecycle(evs, 0, item, Started(Ops(chunks)));
    assert evs[|evs| - 2..][1] == evs[|evs| - 1];
  }

  // ----- Every stream whatever -----

  /** Once reasoning or the message has begun, whether there is reasoning no longer changes; phases only advance. */
  predicate Advances(st: State, st': State) {
    && Rank(st.phase) <= Rank(st'.phase)
    && (Rank(Reasoning) <= Rank(st.phase) ==> st'.hadReasoning == st.hadReasoning)
  }

  lemma {:induction false} ToolDeltasAdvance(m: Meta, st: State, tds: seq<ToolDelta>)
    ensures Advances(st, OnToolDeltas(m, st, tds))
  {
    if tds == [] {
    } else {
      ToolDeltasAdvance(m, st, tds[..|tds| - 1]);
    }
  }

  lemma DeltaAdvances(m: Meta, st: State, d: Delta)
    ensures Advances(st, OnDelta(m, st, d))
  {
    var a := OnReasoning(m, st, d.reasoning);
    var b := OnRole(m, a, d.role == Some("assistant"));
    assert Advances(st, a) && Advances(a, b) && Advances(b, OnContent(m, b, d.content));
    ToolDeltasAdvance(m, OnExtras(OnTexts(m, st, d), d), d.toolCalls);
  }

  lemma ChoiceAdvances(m: Meta, st: State, c: Choice, usage: Option<Json>)
    ensures Advances(st, OnChoice(m, st, c, usage))
  {
    if c.delta.Some? {
      DeltaAdvances(m, st, c.delta.value);
    }
  }

  lemma {:induction false} ChoicesAdvance(m: Meta, st: State, cs: seq<Choice>, usage: Option<Json>)
    ensures Advances(st, OnChoices(m, st, cs, usage))
  {
    if cs == [] {
    } else {
      ChoicesAdvance(m, st, cs[..|cs| - 1], usage);
      ChoiceAdvances(m, OnChoices(m, st, cs[..|cs| - 1], usage), cs[|cs| - 1], usage);
    }
  }

  /** In every run, from every state: the message index is fixed before the first event that uses it. */
  lemma {:induction false} EveryRunAdvances(m: Meta, st: State, chunks: seq<Chunk>)
    ensures Advances(st, Run(m, st, chunks).1)
  {
    if chunks == [] {
    } else {
      var (m', st') := Run(m, st, chunks[..|chunks| - 1]);
      EveryRunAdvances(m, st, chunks[..|chunks| - 1]);
      ChoicesAdvance(Learn(m', chunks[|chunks| - 1]), st', chunks[|chunks| - 1].choices, chunks[|chunks| - 1].usage);
    }
  }

  /** How often a log reports a completed response. */
  function Completions(log: seq<Event>): nat {
    if log == [] then 0 else Completions(log[..|log| - 1]) + if log[|log| - 1].Completed? then 1 else 0
  }

  function Finishing(cs: seq<Choice>): nat {
    if cs == [] then 0 else Finishing(cs[..|cs| - 1]) + if FinishOf(cs[|cs| - 1]).Some? then 1 else 0
  }

  lemma {:induction false} CompletionsAppend(a: seq<Event>, b: seq<Event>)
    ensures Completions(a + b) == Completions(a) + Completions(b)
  {
    if b == [] {
      assert a + b == a;
    } else {
      assert (a + b)[..|a + b| - 1] == a + b[..|b| - 1];
      CompletionsAppend(a, b[..|b| - 1]);
    }
  }

  lemma {:induction false} NoCompletions(evs: seq<Event>)
    requires forall k | 0 <= k < |evs| :: !evs[k].Completed?
    ensures Completions(evs) == 0
  {
    if evs == [] {
    } else {
      NoCompletions(evs[..|evs| - 1]);
    }
  }

  lemma Quietly(log: seq<Event>, more: seq<Event>)
    requires forall k | 0 <= k < |more| :: !more[k].Completed?
    ensures Completions(log + more) == Completions(log)
  {
    CompletionsAppend(log, more);
    NoCompletions(more);
  }

  lemma ReasoningCompletes(m: Meta, st: State, text: string)
    ensures Completions(OnReasoning(m, st, text).log) == Completions(st.log)
  {
    if text != "" {
      Quietly(st.log, ReasoningEvents(m, st));
      Quietly(st.log + ReasoningEvents(m, st), [TextDelta(0, text)]);
    }
  }

  lemma RoleCompletes(m: Meta, st: State, isAssistant: bool)
    ensures Completions(OnRole(m, st, isAssistant).log) == Completions(st.log)
  {
    Quietly(st.log, BeginEvents(m, st, Done));
  }

  lemma ContentCompletes(m: Meta, st: State, text: string)
    ensures Completions(OnContent(m, st, text).log) == Completions(st.log)
  {
    if text != "" {
      Quietly(st.log, BeginEvents(m, st, Done));
      Quietly(st.log + BeginEvents(m, st, Done), [TextDelta(MessageIndex(st), text)]);
    }
  }

  lemma TextsComplete(m: Meta, st: State, d: Delta)
    ensures Completions(OnExtras(OnTexts(m, st, d), d).log) == Completions(st.log)
  {
    var a := OnReasoning(m, st, d.reasoning);
    var b := OnRole(m, a, d.role == Some("assistant"));
    ReasoningCompletes(m, st, d.reasoning);
    RoleCompletes(m, a, d.role == Some("assistant"));
    ContentCompletes(m, b, d.content);
    assert OnExtras(OnTexts(m, st, d), d).log == OnContent(m, b, d.content).log;
  }

  lemma ToolDeltaCompletes(m: Meta, st: State, td: ToolDelta)
    ensures Completions(OnToolDelta(m, st, td).log) == Completions(st.log)
  {
    Quietly(st.log, ToolEvents(m, st, td));
  }

  lemma {:induction false} ToolDeltasComplete(m: Meta, st: State, tds: seq<ToolDelta>)
    ensures Completions(OnToolDeltas(m, st, tds).log) == Completions(st.log)
  {
    if tds == [] {
    } else {
      ToolDeltasComplete(m, st, tds[..|tds| - 1]);
      ToolDeltaCompletes(m, OnToolDeltas(m, st, tds[..|tds| - 1]), tds[|tds| - 1]);
    }
  }

  lemma {:induction false} ImagesComplete(m: Meta, start: int, images: seq<string>, status: Status)
    ensures Completions(ImageEvents(m, start, images, status)) == 0
    decreases |images|
  {
    if images == [] {
    } else {
      var k := |images| - 1;
      ImagesComplete(m, start, images[..k], status);
      Quietly(ImageEvents(m, start, images[..k], status),
              [ItemAdded(start + k, ImageItem(ImageId(m.chunkId, k), Pending, None)),
               ItemDone(start + k, ImageItem(ImageId(m.chunkId, k), status, Some(images[k])))]);
    }
  }

  lemma ItemsComplete(m: Meta, hadReasoning: bool, data: Data, finish: Option<Finish>, status: Status)
    ensures Completions(ItemsDone(m, hadReasoning, data, finish, status)) == 0
  {
    var index := if hadReasoning then 1 else 0;
    var calls := CallsDone(data.calls, status);
    var message := [PartDone(index, Part(data.messageText, data.annotations)), ItemDone(index, MessageResult(m, data, status))];
    NoCompletions(calls);
    Quietly(calls, message);
    ImagesComplete(m, index + 1 + |data.calls|, data.images, ImageStatusOf(finish));
    CompletionsAppend(calls + message, ImageEvents(m, index + 1 + |data.calls|, data.images, ImageStatusOf(finish)));
  }

  lemma OneCompletion(m: Meta, st: State, status: Status, usage: Option<Json>)
    ensures Completions(Complete(m, st, status, usage).log) == Completions(st.log) + 1
  {
    var begun := st.log + BeginEvents(m, st, status);
    var items := ItemsDone(m, st.hadReasoning, st.data, st.finish, status);
    var completed := Completed(FinalResponse(m, st.hadReasoning, st.data, st.finish, status, usage));
    Quietly(st.log, BeginEvents(m, st, status));
    ItemsComplete(m, st.hadReasoning, st.data, st.finish, status);
    assert (items + [completed])[..|items|] == items;
    CompletionsAppend(begun, items + [completed]);
  }

  lemma ChoiceCompletes(m: Meta, st: State, c: Choice, usage: Option<Json>)
    ensures Completions(OnChoice(m, st, c, usage).log) == Completions(st.log) + if FinishOf(c).Some? then 1 else 0
  {
    if c.delta.Some? {
      var d := c.delta.value;
      TextsComplete(m, st, d);
      ToolDeltasComplete(m, OnExtras(OnTexts(m, st, d), d), d.toolCalls);
    }
    var a := if c.delta.Some? then OnDelta(m, st, c.delta.value) else st;
    if FinishOf(c).Some? {
      OneCompletion(m, a.(finish := FinishOf(c)), StatusOf(FinishOf(c).value), usage);
    }
  }

  lemma {:induction false} ChoicesComplete(m: Meta, st: State, cs: seq<Choice>, usage: Option<Json>)
    ensures Completions(OnChoices(m, st, cs, usage).log) == Completions(st.log) + Finishing(cs)
  {
    if cs == [] {
    } else {
      ChoicesComplete(m, st, cs[..|cs| - 1], usage);
      ChoiceCompletes(m, OnChoices(m, st, cs[..|cs| - 1], usage), cs[|cs| - 1], usage);
    }
  }

  lemma {:induction false} FinishingAppend(a: seq<Choice>, b: seq<Choice>)
    ensures Finishing(a + b) == Finishing(a) + Finishing(b)
  {
    if b == [] {
      assert a + b == a;
    } else {
      assert (a + b)[..|a + b| - 1] == a + b[..|b| - 1];
      FinishingAppend(a, b[..|b| - 1]);
    }
  }

  lemma {:induction false} RunCompletions(m: Meta, st: State, chunks: seq<Chunk>)
    ensures Completions(Run(m, st, chunks).1.log) == Completions(st.log) + Finishing(Choices(chunks))
  {
    if chunks == [] {
    } else {
      var init, last := chunks[..|chunks| - 1], chunks[|chunks| - 1];
      var (m', st') := Run(m, st, init);
      RunCompletions(m, st, init);
      ChoicesComplete(Learn(m', last), st', last.choices, last.usage);
      FinishingAppend(Choices(init), last.choices);
    }
  }

  /** Something has begun that a client has to hear the end of. */
  predicate Began(ops: seq<Op>) {
    Started(ops) || Thinking(ops) != ""
  }

  predicate Underway(st: State, ops: seq<Op>) {
    st.phase != Finished && (st.phase != NotStarted <==> Began(ops))
  }

  lemma StepUnderway(m: Meta, st: State, ops: seq<Op>, op: Op)
    requires Underway(st, ops)
    ensures Underway(Step(m, st, op), ops + [op])
  {
    OneMoreOp(ops, op);
  }

  lemma {:induction false} StepsUnderway(m: Meta, st: State, ops: seq<Op>, more: seq<Op>)
    requires Underway(st, ops)
    ensures Underway(Steps(m, st, more), ops + more)
  {
    if more == [] {
      assert ops + more == ops;
    } else {
      var init, op := more[..|more| - 1], more[|more| - 1];
      StepsUnderway(m, st, ops, init);
      StepUnderway(m, Steps(m, st, init), ops + init, op);
      assert ops + init + [op] == ops + more;
    }
  }

  lemma {:induction false} NoneFinishes(cs: seq<Choice>)
    ensures Finishing(cs) == 0 <==> Unfinished(cs)
  {
    if cs == [] {
    } else {
      NoneFinishes(cs[..|cs| - 1]);
      assert Unfinished(cs) <==> Unfinished(cs[..|cs| - 1]) && FinishOf(cs[|cs| - 1]).None? by {
        assert forall k | 0 <= k < |cs| - 1 :: cs[..|cs| - 1][k] == cs[k];
      }
    }
  }

  /** Without a finish reason the phase says whether something has begun. */
  lemma {:induction false} RunUnderway(m: Meta, chunks: seq<Chunk>)
    requires Unfinished(Choices(chunks))
    ensures Underway(Run(m, FRESH, chunks).1, Ops(chunks))
  {
    if chunks == [] {
    } else {
      var init, last := chunks[..|chunks| - 1], chunks[|chunks| - 1];
      var (m', st) := Run(m, FRESH, init);
      Split(chunks);
      RunUnderway(m, init);
      ChoicesAreSteps(Learn(m', last), st, last.choices, last.usage);
      StepsUnderway(Learn(m', last), st, Ops(init), Transcript(last.choices));
    }
  }

  lemma {:induction false} ChoicesFinish(m: Meta, st: State, cs: seq<Choice>, usage: Option<Json>)
    requires st.phase == Finished || Finishing(cs) > 0
    ensures OnChoices(m, st, cs, usage).phase == Finished
  {
    if cs == [] {
    } else {
      var init, c := cs[..|cs| - 1], cs[|cs| - 1];
      if FinishOf(c).None? {
        ChoicesFinish(m, st, init, usage);
        ChoiceAdvances(m, OnChoices(m, st, init, usage), c, usage);
      }
    }
  }

  /** Once a choice has finished the stream stays finished. */
  lemma {:induction false} RunFinishes(m: Meta, st: State, chunks: seq<Chunk>)
    requires Finishing(Choices(chunks)) > 0
    ensures Run(m, st, chunks).1.phase == Finished
  {
    if chunks == [] {
    } else {
      var init, last := chunks[..|chunks| - 1], chunks[|chunks| - 1];
      FinishingAppend(Choices(init), last.choices);
      if Finishing(last.choices) == 0 {
        RunFinishes(m, st, init);
      }
      ChoicesFinish(Learn(Run(m, st, init).0, last), Run(m, st, init).1, last.choices, last.usage);
    }
  }

  /**
   * On every stream there is one completed response for each choice that finishes, and one when none does but
   * something has begun. So there is exactly one when one choice finishes, or when none does and something has begun.
   */
  lemma OneCompletionPerFinish(responseId: string, model: string, chunks: seq<Chunk>)
    ensures var n, count := Finishing(Choices(chunks)), Completions(Relayed(responseId, model, chunks));
            && count == n + (if n == 0 && Began(Ops(chunks)) then 1 else 0)
            && (count == 1 <==> n == 1 || (n == 0 && Began(Ops(chunks))))
  {
    var m := Initially(responseId, model);
    var (m', st) := Run(m, FRESH, chunks);
    RunCompletions(m, FRESH, chunks);
    NoneFinishes(Choices(chunks));
    if Finishing(Choices(chunks)) > 0 {
      RunFinishes(m, FRESH, chunks);
    } else {
      RunUnderway(m, chunks);
      if Began(Ops(chunks)) {
        OneCompletion(m', if st.finish.None? then st.(finish := Some(Length)) else st, Incomplete, None);
      }
    }
  }

  // ----- Streams that are not well-formed -----

  /**
   * Reasoning after the message has begun goes to index 0 all the same: to the message itself when there was no
   * reasoning before, and behind the end of the reasoning item when there was.
   */
  lemma LateReasoningIsMisplaced(m: Meta, st: State, ops: seq<Op>, text: string)
    requires Tracks(m, st, ops) && !Fits(ops, Think(text))
    ensures var evs := At(OnReasoning(m, st, text).log, 0);
            && evs == At(st.log, 0) + [TextDelta(0, text)]
            && (!st.hadReasoning ==> MessageIndex(st) == 0 && Joined(evs) == Said(ops) + text)
            && (st.hadReasoning ==> |At(st.log, 0)| >= 2 && At(st.log, 0)[|At(st.log, 0)| - 1].ItemDone?)
  {
    var evs := At(st.log, 0);
    assert OnReasoning(m, st, text).log == st.log + [TextDelta(0, text)];
    AtOneMore(st.log, TextDelta(0, text), 0);
    if st.hadReasoning {
      assert ReasoningLog(m, st);
      assert evs[|evs| - 2..][1] == evs[|evs| - 1];
    } else {
      assert MessageLog(m, st);
      OpenTextJoined(evs, 0, MessageItem(MessageId(m.chunkId), Pending, []), Said(ops));
      JoinedSnoc(evs, TextDelta(0, text));
    }
  }
}
