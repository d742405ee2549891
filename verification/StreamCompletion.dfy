/** The end of a stream: the complete log, and the one-shot conversion it agrees with. */
module StreamCompletion {
  import opened Wrappers
  import opened ResponsesModel
  import opened StreamSteps
  import opened StreamSpec
  import opened StreamLog

  // ----- The closing events at each index -----

  function CallsAt(first: int, calls: seq<ActiveCall>, status: Status, index: int): seq<Event> {
    if first <= index < first + |calls| then [ItemDone(index, CallResult(calls[index - first], status))] else []
  }

  function MessageAt(b: int, part: Part, done: Item, index: int): seq<Event> {
    if index == b then [PartDone(b, part), ItemDone(b, done)] else []
  }

  function ImageAt(m: Meta, start: int, images: seq<string>, status: Status, index: int): seq<Event> {
    if start <= index < start + |images| then
      [ItemAdded(index, ImageItem(ImageId(m.chunkId, index - start), Pending, None)),
       ItemDone(index, ImageItem(ImageId(m.chunkId, index - start), status, Some(images[index - start])))]
    else []
  }

  lemma {:induction false} CallsDoneAt(calls: seq<ActiveCall>, first: int, status: Status, index: int)
    requires forall k | 0 <= k < |calls| :: calls[k].outputIndex == first + k
    ensures At(CallsDone(calls, status), index) == CallsAt(first, calls, status, index)
    decreases |calls|
  {
    if calls == [] {
    } else {
      CallsDoneAt(calls[..|calls| - 1], first, status, index);
      LastCallDoneAt(calls, first, status, index);
    }
  }

  lemma LastCallDoneAt(calls: seq<ActiveCall>, first: int, status: Status, index: int)
    requires calls != [] && calls[|calls| - 1].outputIndex == first + |calls| - 1
    requires At(CallsDone(calls[..|calls| - 1], status), index) == CallsAt(first, calls[..|calls| - 1], status, index)
    ensures At(CallsDone(calls, status), index) == CallsAt(first, calls, status, index)
  {
    var k := |calls| - 1;
    var e := ItemDone(calls[k].outputIndex, CallResult(calls[k], status));
    assert CallsDone(calls, status) == CallsDone(calls[..k], status) + [e];
    AtOneMore(CallsDone(calls[..k], status), e, index);
    CallsAtSnoc(first, calls, status, index);
  }

  lemma CallsAtSnoc(first: int, calls: seq<ActiveCall>, status: Status, index: int)
    requires calls != [] && calls[|calls| - 1].outputIndex == first + |calls| - 1
    ensures var k := |calls| - 1;
            var e := ItemDone(calls[k].outputIndex, CallResult(calls[k], status));
            CallsAt(first, calls, status, index) ==
            CallsAt(first, calls[..k], status, index) + if HasIndex(e) && e.index == index then [e] else []
  {
  }

  lemma {:induction false} ImagesAt(m: Meta, start: int, images: seq<string>, status: Status, index: int)
    ensures At(ImageEvents(m, start, images, status), index) == ImageAt(m, start, images, status, index)
    decreases |images|
  {
    if images == [] {
    } else {
      var k := |images| - 1;
      var added := ItemAdded(start + k, ImageItem(ImageId(m.chunkId, k), Pending, None));
      var done := ItemDone(start + k, ImageItem(ImageId(m.chunkId, k), status, Some(images[k])));
      ImagesAt(m, start, images[..k], status, index);
      AtAppend(ImageEvents(m, start, images[..k], status), [added, done], index);
      TwoAt(added, done, index);
      ImageAtEnd(m, start, images, status, index);
    }
  }

  lemma ImageAtEnd(m: Meta, start: int, images: seq<string>, status: Status, index: int)
    requires images != []
    ensures var k := |images| - 1;
            var added := ItemAdded(start + k, ImageItem(ImageId(m.chunkId, k), Pending, None));
            var done := ItemDone(start + k, ImageItem(ImageId(m.chunkId, k), status, Some(images[k])));
            ImageAt(m, start, images, status, index) ==
            ImageAt(m, start, images[..k], status, index) + if start + k == index then [added, done] else []
  {
  }

  lemma MessageDoneAt(b: int, part: Part, done: Item, index: int)
    ensures At([PartDone(b, part), ItemDone(b, done)], index) == MessageAt(b, part, done, index)
  {
    TwoAt(PartDone(b, part), ItemDone(b, done), index);
  }

  /** The closing events at an index: a call is done, the message is done, or an image is added and done. */
  lemma ItemsDoneSum(m: Meta, hadReasoning: bool, data: Data, finish: Option<Finish>, status: Status, index: int)
    requires var b := if hadReasoning then 1 else 0;
             forall k | 0 <= k < |data.calls| :: data.calls[k].outputIndex == b + 1 + k
    ensures var b := if hadReasoning then 1 else 0;
            At(ItemsDone(m, hadReasoning, data, finish, status), index) ==
            CallsAt(b + 1, data.calls, status, index)
            + MessageAt(b, Part(data.messageText, data.annotations), MessageResult(m, data, status), index)
            + ImageAt(m, b + 1 + |data.calls|, data.images, ImageStatusOf(finish), index)
  {
    var b, n := if hadReasoning then 1 else 0, |data.calls|;
    var part, done := Part(data.messageText, data.annotations), MessageResult(m, data, status);
    CallsDoneAt(data.calls, b + 1, status, index);
    MessageDoneAt(b, part, done, index);
    ImagesAt(m, b + 1 + n, data.images, ImageStatusOf(finish), index);
    AtThree(CallsDone(data.calls, status), [PartDone(b, part), ItemDone(b, done)],
            ImageEvents(m, b + 1 + n, data.images, ImageStatusOf(finish)), index);
  }

  lemma AtThree(a: seq<Event>, b: seq<Event>, c: seq<Event>, index: int)
    ensures At(a + b + c, index) == At(a, index) + At(b, index) + At(c, index)
  {
    AtAppend(a + b, c, index);
    AtAppend(a, b, index);
  }

  lemma ThreeParts(a: seq<Event>, b: seq<Event>, c: seq<Event>)
    ensures b == [] && c == [] ==> a + b + c == a
    ensures a == [] && c == [] ==> a + b + c == b
    ensures a == [] && b == [] ==> a + b + c == c
  {
  }

  // ----- Settling -----

  /** Reasoning is closed, the message is open, and so are the calls. */
  ghost predicate Settled(m: Meta, hadReasoning: bool, data: Data, log: seq<Event>, reasoningStatus: Status) {
    var b := if hadReasoning then 1 else 0;
    && Opened(log, b + 1 + |data.calls|) && Announced(log, ResponseId(m.chunkId))
    && (hadReasoning ==> SettledReasoning(m, data, log, reasoningStatus))
    && OpenText(At(log, b), b, MessageItem(MessageId(m.chunkId), Pending, []), data.messageText)
    && forall k | 0 <= k < |data.calls| ::
         data.calls[k].outputIndex == b + 1 + k && SettledCall(log, data.calls[k])
  }

  ghost predicate SettledReasoning(m: Meta, data: Data, log: seq<Event>, status: Status) {
    var id, part := ReasoningId(m.chunkId), Part(data.reasoningText, []);
    ClosedText(At(log, 0), 0, ReasoningItem(id, Pending, []), part, ReasoningItem(id, status, [part]))
  }

  ghost predicate SettledCall(log: seq<Event>, c: ActiveCall) {
    OpenCall(At(log, c.outputIndex), c.outputIndex, FunctionCallItem(c.id, c.callId, c.name, "", Pending), c.callId,
             c.arguments)
  }

  lemma Settles(m: Meta, st: State, status: Status)
    requires LogOk(m, st)
    ensures Settled(m, st.hadReasoning, st.data, st.log + BeginEvents(m, st, status),
                    if st.phase == MessageInProgress then Done else status)
  {
    if st.phase == MessageInProgress {
      assert st.log + [] == st.log;
      forall k | 0 <= k < |st.data.calls|
        ensures SettledCall(st.log, st.data.calls[k])
      {
        assert CallLog(st, st.data.calls[k]);
      }
    } else {
      BegunIsOpened(m, st, status);
      TextOpens(MessageIndex(st), MessageItem(MessageId(m.chunkId), Pending, []));
      if st.phase == Reasoning {
        BegunReasoning(m, st, status);
        ReasoningCloses(m, st, status);
      } else {
        BegunFresh(m, st, status);
      }
    }
  }

  // ----- The complete log -----

  lemma OutputAt(m: Meta, hadReasoning: bool, data: Data, finish: Option<Finish>, status: Status, i: int)
    requires 0 <= i < |FinalOutput(m, hadReasoning, data, finish, status)|
    ensures var b, n := if hadReasoning then 1 else 0, |data.calls|;
            var item := FinalOutput(m, hadReasoning, data, finish, status)[i];
            && |FinalOutput(m, hadReasoning, data, finish, status)| == b + 1 + n + |data.images|
            && item ==
               if i < b then ReasoningResult(m, data, status)
               else if i == b then MessageResult(m, data, status)
               else if i <= b + n then CallResult(data.calls[i - b - 1], status)
               else ImageItem(ImageId(m.chunkId, i - b - n - 1), ImageStatusOf(finish),
                              Some(data.images[i - b - n - 1]))
  {
  }

  /** The last event of a call is that it is done. */
  lemma CallLives(before: seq<Event>, c: ActiveCall, status: Status)
    requires OpenCall(before, c.outputIndex, FunctionCallItem(c.id, c.callId, c.name, "", Pending), c.callId,
                      c.arguments)
    ensures Lifecycle(before + [ItemDone(c.outputIndex, CallResult(c, status))], c.outputIndex, CallResult(c, status),
                      false)
    ensures Lifecycle(before + [ItemDone(c.outputIndex, CallResult(c, status))], c.outputIndex, CallResult(c, status),
                      true)
  {
    assert (before + [ItemDone(c.outputIndex, CallResult(c, status))])[..|before|] == before;
  }

  lemma MessageLives(m: Meta, before: seq<Event>, b: int, data: Data, status: Status, closedEarly: bool)
    requires OpenText(before, b, MessageItem(MessageId(m.chunkId), Pending, []), data.messageText)
    ensures var done := MessageResult(m, data, status);
            Lifecycle(before + [PartDone(b, Part(data.messageText, data.annotations)), ItemDone(b, done)], b, done,
                      closedEarly)
  {
    TextCloses(before, b, MessageItem(MessageId(m.chunkId), Pending, []), Part(data.messageText, data.annotations),
               MessageResult(m, data, status));
  }

  /** What stands at an index when the closing events follow. */
  lemma AtClosed(log: seq<Event>, items: seq<Event>, response: Response, i: int)
    ensures At(log + (items + [Completed(response)]), i) == At(log, i) + At(items, i)
  {
    AtAppend(log, items + [Completed(response)], i);
    AtOneMore(items, Completed(response), i);
    assert At(items, i) + [] == At(items, i);
  }

  /** Reasoning, if there is any, and the message. */
  lemma TextLifecycle(m: Meta, hadReasoning: bool, data: Data, finish: Option<Finish>, status: Status, log: seq<Event>,
                      closedEarly: bool, i: int)
    requires Settled(m, hadReasoning, data, log, if closedEarly then Done else status)
    requires 0 <= i < |FinalOutput(m, hadReasoning, data, finish, status)|
    requires i <= if hadReasoning then 1 else 0
    ensures Lifecycle(At(log, i) + At(ItemsDone(m, hadReasoning, data, finish, status), i), i,
                      FinalOutput(m, hadReasoning, data, finish, status)[i], closedEarly)
  {
    var b, n := if hadReasoning then 1 else 0, |data.calls|;
    var before, after := At(log, i), At(ItemsDone(m, hadReasoning, data, finish, status), i);
    ItemsDoneSum(m, hadReasoning, data, finish, status, i);
    ThreeParts(CallsAt(b + 1, data.calls, status, i),
               MessageAt(b, Part(data.messageText, data.annotations), MessageResult(m, data, status), i),
               ImageAt(m, b + 1 + n, data.images, ImageStatusOf(finish), i));
    OutputAt(m, hadReasoning, data, finish, status, i);
    if i < b {
      assert before + [] == before;
    } else {
      MessageLives(m, before, b, data, status, closedEarly);
    }
  }

  /** The calls and the images. */
  lemma CallLifecycle(m: Meta, hadReasoning: bool, data: Data, finish: Option<Finish>, status: Status, log: seq<Event>,
                      closedEarly: bool, i: int)
    requires Settled(m, hadReasoning, data, log, if closedEarly then Done else status)
    requires 0 <= i < |FinalOutput(m, hadReasoning, data, finish, status)|
    requires i > if hadReasoning then 1 else 0
    ensures Lifecycle(At(log, i) + At(ItemsDone(m, hadReasoning, data, finish, status), i), i,
                      FinalOutput(m, hadReasoning, data, finish, status)[i], closedEarly)
  {
    var b, n := if hadReasoning then 1 else 0, |data.calls|;
    var before, after := At(log, i), At(ItemsDone(m, hadReasoning, data, finish, status), i);
    ItemsDoneSum(m, hadReasoning, data, finish, status, i);
    ThreeParts(CallsAt(b + 1, data.calls, status, i),
               MessageAt(b, Part(data.messageText, data.annotations), MessageResult(m, data, status), i),
               ImageAt(m, b + 1 + n, data.images, ImageStatusOf(finish), i));
    OutputAt(m, hadReasoning, data, finish, status, i);
    if i <= b + n {
      assert SettledCall(log, data.calls[i - b - 1]);
      CallLives(before, data.calls[i - b - 1], status);
    } else {
      NothingBeyond(log, b + 1 + n, i);
      assert [] + after == after;
    }
  }

  /** At every index of the output array the log holds the whole life of the item there. */
  lemma LifecycleAt(m: Meta, hadReasoning: bool, data: Data, finish: Option<Finish>, status: Status, log: seq<Event>,
                    closedEarly: bool, i: int)
    requires Settled(m, hadReasoning, data, log, if closedEarly then Done else status)
    requires 0 <= i < |FinalOutput(m, hadReasoning, data, finish, status)|
    ensures Lifecycle(At(log, i) + At(ItemsDone(m, hadReasoning, data, finish, status), i), i,
                      FinalOutput(m, hadReasoning, data, finish, status)[i], closedEarly)
  {
    if i <= if hadReasoning then 1 else 0 {
      TextLifecycle(m, hadReasoning, data, finish, status, log, closedEarly, i);
    } else {
      CallLifecycle(m, hadReasoning, data, finish, status, log, closedEarly, i);
    }
  }

  lemma {:induction false} ImagesHaveIndex(m: Meta, start: int, images: seq<string>, status: Status)
    ensures forall k | 0 <= k < |ImageEvents(m, start, images, status)| ::
              var e := ImageEvents(m, start, images, status)[k]; HasIndex(e) && start <= e.index < start + |images|
    decreases |images|
  {
    if images == [] {
    } else {
      ImagesHaveIndex(m, start, images[..|images| - 1], status);
    }
  }

  lemma ItemsHaveIndex(m: Meta, hadReasoning: bool, data: Data, finish: Option<Finish>, status: Status)
    requires var b := if hadReasoning then 1 else 0;
             forall k | 0 <= k < |data.calls| :: data.calls[k].outputIndex == b + 1 + k
    ensures var b := if hadReasoning then 1 else 0;
            forall k | 0 <= k < |ItemsDone(m, hadReasoning, data, finish, status)| ::
              var e := ItemsDone(m, hadReasoning, data, finish, status)[k];
              HasIndex(e) && 0 <= e.index < b + 1 + |data.calls| + |data.images|
  {
    var b := if hadReasoning then 1 else 0;
    ImagesHaveIndex(m, b + 1 + |data.calls|, data.images, ImageStatusOf(finish));
  }

  /** The closed log holds the life of every item. */
  ghost predicate AllLive(log: seq<Event>, response: Response, closedEarly: bool) {
    forall i | 0 <= i < |response.output| :: Lifecycle(At(log, i), i, response.output[i], closedEarly)
  }

  lemma ItemsLive(m: Meta, st: State, status: Status, usage: Option<Json>, begun: seq<Event>)
    requires LogOk(m, st) && begun == st.log + BeginEvents(m, st, status)
    ensures var response := FinalResponse(m, st.hadReasoning, st.data, st.finish, status, usage);
            var items := ItemsDone(m, st.hadReasoning, st.data, st.finish, status);
            AllLive(begun + (items + [Completed(response)]), response, st.phase == MessageInProgress)
  {
    var response := FinalResponse(m, st.hadReasoning, st.data, st.finish, status, usage);
    var items := ItemsDone(m, st.hadReasoning, st.data, st.finish, status);
    Settles(m, st, status);
    forall i | 0 <= i < |response.output|
      ensures Lifecycle(At(begun + (items + [Completed(response)]), i), i, response.output[i], st.phase == MessageInProgress)
    {
      AtClosed(begun, items, response, i);
      LifecycleAt(m, st.hadReasoning, st.data, st.finish, status, begun, st.phase == MessageInProgress, i);
    }
  }

  lemma ItemsOpened(m: Meta, st: State, status: Status, usage: Option<Json>, begun: seq<Event>)
    requires LogOk(m, st) && begun == st.log + BeginEvents(m, st, status)
    ensures var response := FinalResponse(m, st.hadReasoning, st.data, st.finish, status, usage);
            && Announced(begun, ResponseId(m.chunkId)) && response.id == ResponseId(m.chunkId)
            && Opened(begun + ItemsDone(m, st.hadReasoning, st.data, st.finish, status), |response.output|)
  {
    var response := FinalResponse(m, st.hadReasoning, st.data, st.finish, status, usage);
    var items := ItemsDone(m, st.hadReasoning, st.data, st.finish, status);
    Settles(m, st, status);
    ItemsHaveIndex(m, st.hadReasoning, st.data, st.finish, status);
    OutputAt(m, st.hadReasoning, st.data, st.finish, status, 0);
    OpenedAppend(begun, MessageIndex(st) + 1 + |st.data.calls|, items, |response.output|);
  }

  /** Completing a stream completes its log, from every state a well-formed stream can be in. */
  lemma CompletesLog(m: Meta, st: State, status: Status, usage: Option<Json>)
    requires LogOk(m, st)
    ensures CompleteLog(Complete(m, st, status, usage).log,
                        FinalResponse(m, st.hadReasoning, st.data, st.finish, status, usage),
                        st.phase == MessageInProgress)
  {
    var response := FinalResponse(m, st.hadReasoning, st.data, st.finish, status, usage);
    var begun := st.log + BeginEvents(m, st, status);
    var items := ItemsDone(m, st.hadReasoning, st.data, st.finish, status);
    var log := begun + (items + [Completed(response)]);
    ItemsOpened(m, st, status, usage, begun);
    assert log[..|log| - 1] == begun + items && log[..|begun|] == begun;
    ItemsLive(m, st, status, usage, begun);
    assert Complete(m, st, status, usage).log == log;
  }
}
