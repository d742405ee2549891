/** The log of the stream transformer: what every step keeps, up to the complete log. */
module StreamLog {
  import opened Wrappers
  import opened ResponsesModel
  import opened StreamSteps
  import opened StreamSpec

  function Count(st: State): int {
    MessageIndex(st) + if Rank(MessageInProgress) <= Rank(st.phase) then 1 + |st.data.calls| else 0
  }

  /** Between two elementary steps a stream has not begun, is reasoning, or has its message in progress. */
  ghost predicate Resting(st: State) {
    && st.phase in {NotStarted, Reasoning, MessageInProgress}
    && (st.phase == NotStarted ==> !st.hadReasoning)
    && (!st.hadReasoning ==> st.data.reasoningText == "")
    && (st.phase == Reasoning ==> st.hadReasoning)
    && (st.phase != MessageInProgress ==> st.data.calls == [] && st.data.messageText == "")
  }

  ghost predicate CallsInPlace(st: State) {
    forall k | 0 <= k < |st.data.calls| ::
      var c := st.data.calls[k];
      c.outputIndex == MessageIndex(st) + 1 + k && c.id == FunctionCallId(c.callId)
  }

  ghost predicate ReasoningLog(m: Meta, st: State) {
    var evs, id := At(st.log, 0), ReasoningId(m.chunkId);
    var added, part := ReasoningItem(id, Pending, []), Part(st.data.reasoningText, []);
    match st.phase
    case Reasoning => OpenText(evs, 0, added, st.data.reasoningText)
    case _ => ClosedText(evs, 0, added, part, ReasoningItem(id, Done, [part]))
  }

  ghost predicate MessageLog(m: Meta, st: State) {
    OpenText(At(st.log, MessageIndex(st)), MessageIndex(st), MessageItem(MessageId(m.chunkId), Pending, []),
             st.data.messageText)
  }

  ghost predicate CallLog(st: State, c: ActiveCall) {
    OpenCall(At(st.log, c.outputIndex), c.outputIndex, FunctionCallItem(c.id, c.callId, c.name, "", Pending), c.callId,
             c.arguments)
  }

  /** Every item that has begun has exactly its opening events and its deltas at its index. */
  ghost predicate LogOk(m: Meta, st: State) {
    && Resting(st) && CallsInPlace(st)
    && (st.phase == NotStarted ==> st.log == [])
    && (st.phase != NotStarted ==> Opened(st.log, Count(st)) && Announced(st.log, ResponseId(m.chunkId)))
    && (st.hadReasoning ==> ReasoningLog(m, st))
    && (st.phase == MessageInProgress ==> MessageLog(m, st))
    && (forall k | 0 <= k < |st.data.calls| :: CallLog(st, st.data.calls[k]))
  }

  /** Nothing happens at an index beyond the items that have begun. */
  lemma {:induction false} NothingBeyond(log: seq<Event>, count: int, index: int)
    requires Opened(log, count) && count <= index
    ensures At(log, index) == []
    decreases |log|
  {
    if |log| == 2 {
      assert log == [log[0], log[1]];
      AtAppend([log[0]], [log[1]], index);
      OneEvent(log[0], index);
      OneEvent(log[1], index);
    } else {
      NothingBeyond(log[..|log| - 1], count, index);
    }
  }

  lemma OneEvent(e: Event, index: int)
    ensures At([e], index) == if HasIndex(e) && e.index == index then [e] else []
  {
    assert [e][..0] == [];
  }

  lemma TwoEvents(e: Event, f: Event, index: int)
    ensures At([e, f], index) == At([e], index) + At([f], index)
  {
    assert [e, f] == [e] + [f];
    AtAppend([e], [f], index);
  }

  lemma OpenedAppend(log: seq<Event>, count: int, more: seq<Event>, total: int)
    requires Opened(log, count) && count <= total
    requires forall k | 0 <= k < |more| :: HasIndex(more[k]) && 0 <= more[k].index < total
    ensures Opened(log + more, total)
  {
  }

  lemma JoinedSnoc(evs: seq<Event>, e: Event)
    ensures Joined(evs + [e]) == Joined(evs) + if e.TextDelta? || e.ArgumentsDelta? then e.delta else ""
  {
    assert (evs + [e])[..|evs|] == evs;
  }

  /** A further delta extends an open text. */
  lemma TextGrows(evs: seq<Event>, index: int, added: Item, text: string, delta: string)
    requires OpenText(evs, index, added, text)
    ensures OpenText(evs + [TextDelta(index, delta)], index, added, text + delta)
  {
    var all := evs + [TextDelta(index, delta)];
    assert all[..2] == evs[..2] && all[2..] == evs[2..] + [TextDelta(index, delta)];
    JoinedSnoc(evs[2..], TextDelta(index, delta));
  }

  lemma TextCloses(evs: seq<Event>, index: int, added: Item, part: Part, done: Item)
    requires OpenText(evs, index, added, part.text)
    ensures ClosedText(evs + [PartDone(index, part), ItemDone(index, done)], index, added, part, done)
  {
    var all := evs + [PartDone(index, part), ItemDone(index, done)];
    assert all[..|all| - 2] == evs && all[|all| - 2..] == [PartDone(index, part), ItemDone(index, done)];
  }

  lemma TextOpens(index: int, added: Item)
    ensures OpenText([ItemAdded(index, added), PartAdded(index)], index, added, "")
  {
    var evs := [ItemAdded(index, added), PartAdded(index)];
    assert evs[..2] == evs && evs[2..] == [];
  }

  lemma CallGrows(evs: seq<Event>, index: int, added: Item, callId: string, text: string, delta: string)
    requires OpenCall(evs, index, added, callId, text)
    ensures OpenCall(evs + [ArgumentsDelta(index, callId, delta)], index, added, callId, text + delta)
  {
    var all := evs + [ArgumentsDelta(index, callId, delta)];
    assert all[1..] == evs[1..] + [ArgumentsDelta(index, callId, delta)];
    JoinedSnoc(evs[1..], ArgumentsDelta(index, callId, delta));
  }

  lemma InitialAt(m: Meta, st: State, index: int)
    ensures At(InitialEvents(m, st), index) == []
  {
    var r := Response(ResponseId(m.chunkId), m.created, Pending, m.model, [], None);
    TwoAt(Created(r), InProgress(r), index);
  }

  /** What the opening events of the message say at each index. */
  lemma BeginAt(m: Meta, st: State, status: Status, index: int)
    ensures At(InitialEvents(m, st), index) == []
    ensures At(ClosingEvents(m, st, status), index) == if index == 0 then ClosingEvents(m, st, status) else []
    ensures At(StartingEvents(m, st), index) == if index == MessageIndex(st) then StartingEvents(m, st) else []
  {
    InitialAt(m, st, index);
    var part := Part(st.data.reasoningText, []);
    TwoAt(PartDone(0, part), ItemDone(0, ReasoningResult(m, st.data, status)), index);
    TwoAt(ItemAdded(MessageIndex(st), MessageItem(MessageId(m.chunkId), Pending, [])), PartAdded(MessageIndex(st)),
          index);
  }

  /** Two events that are about the same index, or about none. */
  lemma TwoAt(e: Event, f: Event, index: int)
    requires HasIndex(e) == HasIndex(f) && (HasIndex(e) ==> e.index == f.index)
    ensures At([e, f], index) == if HasIndex(e) && e.index == index then [e, f] else []
  {
    TwoEvents(e, f, index);
    OneEvent(e, index);
    OneEvent(f, index);
  }

  function BeginState(m: Meta, st: State): State {
    st.(phase := Begun(st.phase), log := st.log + BeginEvents(m, st, Done))
  }

  lemma AtBegun(m: Meta, st: State, status: Status, index: int)
    requires Rank(st.phase) < Rank(MessageInProgress)
    ensures At(st.log + BeginEvents(m, st, status), index) ==
            At(st.log, index)
            + (if index == 0 then ClosingEvents(m, st, status) else [])
            + (if index == MessageIndex(st) then StartingEvents(m, st) else [])
  {
    var i, c, s := InitialEvents(m, st), ClosingEvents(m, st, status), StartingEvents(m, st);
    AtAppend(st.log, i + c + s, index);
    AtAppend(i + c, s, index);
    AtAppend(i, c, index);
    BeginAt(m, st, status, index);
  }

  lemma BegunIsOpened(m: Meta, st: State, status: Status)
    requires LogOk(m, st) && st.phase != MessageInProgress
    ensures Opened(st.log + BeginEvents(m, st, status), MessageIndex(st) + 1)
    ensures Announced(st.log + BeginEvents(m, st, status), ResponseId(m.chunkId))
  {
    var i, c, s := InitialEvents(m, st), ClosingEvents(m, st, status), StartingEvents(m, st);
    if st.phase == NotStarted {
      assert st.log + (i + c + s) == i + s;
    } else {
      assert i + c + s == c + s;
      OpenedAppend(st.log, Count(st), c + s, MessageIndex(st) + 1);
    }
  }

  lemma BegunFresh(m: Meta, st: State, status: Status)
    requires st.phase == NotStarted && !st.hadReasoning && st.log == []
    ensures At(st.log + BeginEvents(m, st, status), 0) == StartingEvents(m, st)
  {
    AtBegun(m, st, status, 0);
    assert [] + [] + StartingEvents(m, st) == StartingEvents(m, st);
  }

  lemma BegunReasoning(m: Meta, st: State, status: Status)
    requires LogOk(m, st) && st.phase == Reasoning
    ensures At(st.log + BeginEvents(m, st, status), 0) == At(st.log, 0) + ClosingEvents(m, st, status)
    ensures At(st.log + BeginEvents(m, st, status), 1) == StartingEvents(m, st)
  {
    AtBegun(m, st, status, 0);
    AtBegun(m, st, status, 1);
    NothingBeyond(st.log, 1, 1);
    assert At(st.log, 0) + ClosingEvents(m, st, status) + [] == At(st.log, 0) + ClosingEvents(m, st, status);
    assert [] + [] + StartingEvents(m, st) == StartingEvents(m, st);
  }

  lemma BeginAfterReasoningOk(m: Meta, st: State)
    requires LogOk(m, st) && st.phase == Reasoning
    ensures LogOk(m, BeginState(m, st))
  {
    BegunIsOpened(m, st, Done);
    TextOpens(1, MessageItem(MessageId(m.chunkId), Pending, []));
    BegunReasoning(m, st, Done);
    ReasoningCloses(m, st, Done);
  }

  lemma BeginFreshOk(m: Meta, st: State)
    requires LogOk(m, st) && st.phase == NotStarted
    ensures LogOk(m, BeginState(m, st))
  {
    BegunIsOpened(m, st, Done);
    TextOpens(0, MessageItem(MessageId(m.chunkId), Pending, []));
    BegunFresh(m, st, Done);
  }

  /** Starting the message item. */
  lemma BeginOk(m: Meta, st: State)
    requires LogOk(m, st)
    ensures LogOk(m, BeginState(m, st)) && BeginState(m, st).phase == MessageInProgress
  {
    if st.phase == MessageInProgress {
      assert st.log + [] == st.log;
    } else if st.phase == Reasoning {
      BeginAfterReasoningOk(m, st);
    } else {
      BeginFreshOk(m, st);
    }
  }

  lemma ReasoningCloses(m: Meta, st: State, status: Status)
    requires LogOk(m, st) && st.phase == Reasoning
    ensures var part := Part(st.data.reasoningText, []);
            ClosedText(At(st.log, 0) + ClosingEvents(m, st, status), 0,
                       ReasoningItem(ReasoningId(m.chunkId), Pending, []),
                       part, ReasoningItem(ReasoningId(m.chunkId), status, [part]))
  {
    var part := Part(st.data.reasoningText, []);
    TextCloses(At(st.log, 0), 0, ReasoningItem(ReasoningId(m.chunkId), Pending, []), part,
               ReasoningItem(ReasoningId(m.chunkId), status, [part]));
  }

  /** One more event, about an index where something is already open. */
  lemma AtOneMore(log: seq<Event>, e: Event, index: int)
    ensures At(log + [e], index) == At(log, index) + if HasIndex(e) && e.index == index then [e] else []
  {
    AtAppend(log, [e], index);
    OneEvent(e, index);
  }

  /** One more event at an index other than those of the calls leaves their logs alone. */
  lemma CallLogsKept(st: State, st': State, e: Event)
    requires st'.log == st.log + [e] && st'.data.calls == st.data.calls
    requires forall k | 0 <= k < |st.data.calls| :: CallLog(st, st.data.calls[k])
    requires HasIndex(e) && forall k | 0 <= k < |st.data.calls| :: e.index != st.data.calls[k].outputIndex
    ensures forall k | 0 <= k < |st.data.calls| :: CallLog(st', st'.data.calls[k])
  {
    forall k | 0 <= k < |st.data.calls|
      ensures CallLog(st', st'.data.calls[k])
    {
      var c := st.data.calls[k];
      AtOneMore(st.log, e, c.outputIndex);
      assert At(st.log, c.outputIndex) + [] == At(st.log, c.outputIndex);
    }
  }

  // ----- The elementary steps -----

  function ReasoningState(m: Meta, st: State): State {
    st.(phase := Reasoning, hadReasoning := true, log := st.log + ReasoningEvents(m, st))
  }

  /** Reasoning is begun before its first text. */
  lemma BeginReasoningOk(m: Meta, st: State)
    requires LogOk(m, st) && st.phase == NotStarted
    ensures LogOk(m, ReasoningState(m, st))
  {
    ReasoningBegunOpened(m, st);
    ReasoningBegunLog(m, st);
    assert st.log + ReasoningEvents(m, st) == ReasoningEvents(m, st);
  }

  lemma ReasoningBegunLog(m: Meta, st: State)
    requires st.phase == NotStarted && st.data.reasoningText == ""
    ensures OpenText(At(ReasoningEvents(m, st), 0), 0, ReasoningItem(ReasoningId(m.chunkId), Pending, []),
                     st.data.reasoningText)
  {
    ReasoningBegunAt(m, st);
    TextOpens(0, ReasoningItem(ReasoningId(m.chunkId), Pending, []));
  }

  lemma ReasoningBegunOpened(m: Meta, st: State)
    requires st.phase == NotStarted
    ensures Opened(ReasoningEvents(m, st), 1) && Announced(ReasoningEvents(m, st), ResponseId(m.chunkId))
  {
    var initial := InitialEvents(m, st);
    var added, part := ItemAdded(0, ReasoningItem(ReasoningId(m.chunkId), Pending, [])), PartAdded(0);
    assert ReasoningEvents(m, st) == [initial[0], initial[1], added, part];
  }

  lemma ReasoningBegunAt(m: Meta, st: State)
    requires st.phase == NotStarted
    ensures At(ReasoningEvents(m, st), 0) == [ItemAdded(0, ReasoningItem(ReasoningId(m.chunkId), Pending, [])), PartAdded(0)]
  {
    var added, part := ItemAdded(0, ReasoningItem(ReasoningId(m.chunkId), Pending, [])), PartAdded(0);
    AtAppend(InitialEvents(m, st), [added, part], 0);
    InitialAt(m, st, 0);
    TwoAt(added, part, 0);
    assert [] + [added, part] == [added, part];
  }

  lemma MoreReasoningOk(m: Meta, st: State, text: string)
    requires LogOk(m, st) && st.phase == Reasoning
    ensures LogOk(m, st.(data := st.data.(reasoningText := st.data.reasoningText + text),
                         log := st.log + [TextDelta(0, text)]))
  {
    AtOneMore(st.log, TextDelta(0, text), 0);
    OpenedAppend(st.log, Count(st), [TextDelta(0, text)], Count(st));
    TextGrows(At(st.log, 0), 0, ReasoningItem(ReasoningId(m.chunkId), Pending, []), st.data.reasoningText, text);
  }

  lemma ThinkOk(m: Meta, st: State, text: string)
    requires LogOk(m, st) && (text != "" ==> st.phase != MessageInProgress)
    ensures LogOk(m, OnReasoning(m, st, text))
  {
    if text != "" {
      if st.phase == NotStarted {
        BeginReasoningOk(m, st);
        MoreReasoningOk(m, ReasoningState(m, st), text);
      } else {
        assert st.log + [] == st.log;
        MoreReasoningOk(m, st, text);
      }
    }
  }

  lemma MoreContentOk(m: Meta, st: State, text: string)
    requires LogOk(m, st) && st.phase == MessageInProgress
    ensures LogOk(m, st.(data := st.data.(messageText := st.data.messageText + text),
                         log := st.log + [TextDelta(MessageIndex(st), text)]))
  {
    var e := TextDelta(MessageIndex(st), text);
    var st' := st.(data := st.data.(messageText := st.data.messageText + text), log := st.log + [e]);
    AtOneMore(st.log, e, MessageIndex(st));
    OpenedAppend(st.log, Count(st), [e], Count(st));
    TextGrows(At(st.log, MessageIndex(st)), MessageIndex(st), MessageItem(MessageId(m.chunkId), Pending, []),
              st.data.messageText, text);
    CallLogsKept(st, st', e);
    ReasoningKept(m, st, st', e);
  }

  /** Once closed, reasoning stays closed. */
  lemma ReasoningKept(m: Meta, st: State, st': State, e: Event)
    requires st.phase == MessageInProgress && (st.hadReasoning ==> ReasoningLog(m, st))
    requires st'.log == st.log + [e] && st'.data.reasoningText == st.data.reasoningText
    requires st'.phase == st.phase && st'.hadReasoning == st.hadReasoning
    requires HasIndex(e) && MessageIndex(st) <= e.index
    ensures st'.hadReasoning ==> ReasoningLog(m, st')
  {
    AtOneMore(st.log, e, 0);
    assert At(st.log, 0) + [] == At(st.log, 0);
  }

  lemma SayOk(m: Meta, st: State, text: string)
    requires LogOk(m, st)
    ensures LogOk(m, OnContent(m, st, text))
  {
    if text != "" {
      BeginOk(m, st);
      MoreContentOk(m, BeginState(m, st), text);
    }
  }

  lemma RoleOk(m: Meta, st: State, isAssistant: bool)
    requires LogOk(m, st)
    ensures LogOk(m, OnRole(m, st, isAssistant))
  {
    BeginOk(m, st);
  }

  /** A new call is opened at the next index. */
  function OpenState(st: State, id: string, name: string): State {
    var index := MessageIndex(st) + 1 + |st.data.calls|;
    st.(data := st.data.(calls := st.data.calls + [ActiveCall(index, FunctionCallId(id), id, name, "")]),
        log := st.log + [ItemAdded(index, FunctionCallItem(FunctionCallId(id), id, name, "", Pending))])
  }

  lemma OpenOk(m: Meta, st: State, id: string, name: string)
    requires LogOk(m, st) && st.phase == MessageInProgress
    ensures LogOk(m, OpenState(st, id, name))
  {
    var st' := OpenState(st, id, name);
    var index := MessageIndex(st) + 1 + |st.data.calls|;
    var e := ItemAdded(index, FunctionCallItem(FunctionCallId(id), id, name, "", Pending));
    OpenedAppend(st.log, Count(st), [e], Count(st'));
    AtOneMore(st.log, e, MessageIndex(st));
    assert At(st.log, MessageIndex(st)) + [] == At(st.log, MessageIndex(st));
    ReasoningKept(m, st, st', e);
    OpenCallLogs(m, st, id, name);
  }

  /** A new call at an index where nothing has happened. */
  lemma NewCallLog(log: seq<Event>, index: int, added: Item, callId: string)
    requires Opened(log, index)
    ensures OpenCall(At(log + [ItemAdded(index, added)], index), index, added, callId, "")
  {
    var e := ItemAdded(index, added);
    AtOneMore(log, e, index);
    NothingBeyond(log, index, index);
    assert [] + [e] == [e] && [e][1..] == [];
  }

  lemma OpenCallLogs(m: Meta, st: State, id: string, name: string)
    requires LogOk(m, st) && st.phase == MessageInProgress
    ensures forall k | 0 <= k < |OpenState(st, id, name).data.calls| ::
              CallLog(OpenState(st, id, name), OpenState(st, id, name).data.calls[k])
  {
    var st' := OpenState(st, id, name);
    var index := MessageIndex(st) + 1 + |st.data.calls|;
    var added := FunctionCallItem(FunctionCallId(id), id, name, "", Pending);
    var logged := st.(log := st'.log);
    CallLogsKept(st, logged, ItemAdded(index, added));
    NewCallLog(st.log, index, added, id);
    forall k | 0 <= k < |st'.data.calls|
      ensures CallLog(st', st'.data.calls[k])
    {
      if k < |st.data.calls| {
        assert CallLog(logged, st.data.calls[k]);
      }
    }
  }

  /** Argument text goes to the call at its index. */
  function ExtendState(st: State, k: nat, text: string): State
    requires k < |st.data.calls|
  {
    var c := st.data.calls[k];
    st.(data := st.data.(calls := st.data.calls[k := c.(arguments := c.arguments + text)]),
        log := st.log + [ArgumentsDelta(c.outputIndex, c.callId, text)])
  }

  lemma ExtendOk(m: Meta, st: State, k: nat, text: string)
    requires LogOk(m, st) && k < |st.data.calls|
    ensures LogOk(m, ExtendState(st, k, text))
  {
    var st' := ExtendState(st, k, text);
    var c := st.data.calls[k];
    var e := ArgumentsDelta(c.outputIndex, c.callId, text);
    OpenedAppend(st.log, Count(st), [e], Count(st'));
    AtOneMore(st.log, e, MessageIndex(st));
    assert At(st.log, MessageIndex(st)) + [] == At(st.log, MessageIndex(st));
    ReasoningKept(m, st, st', e);
    forall j | 0 <= j < |st'.data.calls|
      ensures CallLog(st', st'.data.calls[j])
    {
      var d := st.data.calls[j];
      AtOneMore(st.log, e, d.outputIndex);
      if j == k {
        CallGrows(At(st.log, c.outputIndex), c.outputIndex, FunctionCallItem(c.id, c.callId, c.name, "", Pending),
                  c.callId,
                  c.arguments, text);
      } else {
        assert At(st.log, d.outputIndex) + [] == At(st.log, d.outputIndex);
      }
    }
  }

  lemma {:induction false} FindInPlace(calls: seq<ActiveCall>, first: int, k: nat)
    requires k < |calls| && forall j | 0 <= j < |calls| :: calls[j].outputIndex == first + j
    ensures FindCall(calls, first + k) == Some(k)
  {
    if k == 0 {
    } else {
      assert forall j | 0 <= j < |calls[1..]| :: calls[1..][j].outputIndex == calls[j + 1].outputIndex;
      FindInPlace(calls[1..], first + 1, k - 1);
    }
  }

  /** The state after the identifier of a tool-call delta has been looked at. */
  function AfterId(m: Meta, st: State, td: ToolDelta): State {
    if td.id.Absent? then st else OpenState(BeginState(m, st), IdText(td.id), td.name.GetOr(""))
  }

  lemma AfterIdOk(m: Meta, st: State, td: ToolDelta)
    requires LogOk(m, st) && ToolFits(|st.data.calls|, td)
    ensures LogOk(m, AfterId(m, st, td))
    ensures td.arguments != "" ==> 0 <= td.index.GetOr(0) < |AfterId(m, st, td).data.calls|
  {
    if !td.id.Absent? {
      BeginOk(m, st);
      OpenOk(m, BeginState(m, st), IdText(td.id), td.name.GetOr(""));
    }
  }

  lemma KnownCalls(m: Meta, st: State, td: ToolDelta)
    requires ToolFits(|st.data.calls|, td)
    ensures var a := AfterId(m, st, td);
            && CallIndex(st, td) == MessageIndex(a) + 1 + td.index.GetOr(0)
            && CallsAfter(st, td) ==
               if td.arguments == "" then a.data.calls else AppendArguments(a.data.calls, CallIndex(st, td), td.arguments)
  {
  }

  /** Arguments find the call of their index, whatever the others are. */
  lemma ToolCalls(m: Meta, st: State, td: ToolDelta, k: nat)
    requires ToolFits(|st.data.calls|, td) && td.arguments != "" && k == td.index.GetOr(0)
    requires k < |AfterId(m, st, td).data.calls| && CallsInPlace(AfterId(m, st, td))
    ensures CallsAfter(st, td) == ExtendState(AfterId(m, st, td), k, td.arguments).data.calls
    ensures CallIdAt(CallsAfter(st, td), CallIndex(st, td)) == AfterId(m, st, td).data.calls[k].callId
  {
    var a := AfterId(m, st, td);
    KnownCalls(m, st, td);
    FindInPlace(a.data.calls, MessageIndex(a) + 1, k);
    FindInPlace(CallsAfter(st, td), MessageIndex(a) + 1, k);
  }

  lemma ToolLog(m: Meta, st: State, td: ToolDelta)
    requires ToolFits(|st.data.calls|, td)
    ensures var a, index := AfterId(m, st, td), CallIndex(st, td);
            var delta := ArgumentsDelta(index, CallIdAt(CallsAfter(st, td), index), td.arguments);
            st.log + ToolEvents(m, st, td) == if td.arguments == "" then a.log else a.log + [delta]
  {
    if !td.id.Absent? {
      var index, id := CallIndex(st, td), IdText(td.id);
      var added := ItemAdded(index, FunctionCallItem(FunctionCallId(id), id, td.name.GetOr(""), "", Pending));
      assert AfterId(m, st, td).log == st.log + BeginEvents(m, st, Done) + [added];
    }
  }

  /** A tool-call delta that fits opens a call, extends one, or both. */
  lemma ToolIsOpenExtend(m: Meta, st: State, td: ToolDelta)
    requires ToolFits(|st.data.calls|, td)
    requires td.arguments != "" ==> 0 <= td.index.GetOr(0) < |AfterId(m, st, td).data.calls|
    requires CallsInPlace(AfterId(m, st, td))
    ensures OnToolDelta(m, st, td) ==
            if td.arguments == "" then AfterId(m, st, td)
            else ExtendState(AfterId(m, st, td), td.index.GetOr(0), td.arguments)
  {
    ToolLog(m, st, td);
    KnownCalls(m, st, td);
    if td.arguments != "" {
      ToolCalls(m, st, td, td.index.GetOr(0));
    }
  }

  lemma ToolOk(m: Meta, st: State, td: ToolDelta)
    requires LogOk(m, st) && ToolFits(|st.data.calls|, td)
    ensures LogOk(m, OnToolDelta(m, st, td))
  {
    AfterIdOk(m, st, td);
    ToolIsOpenExtend(m, st, td);
    if td.arguments != "" {
      ExtendOk(m, AfterId(m, st, td), td.index.GetOr(0), td.arguments);
    }
  }
}
