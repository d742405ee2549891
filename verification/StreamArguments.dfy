/** What becomes of the arguments of tool calls, on every stream: which are sent, under which call, and which arrive. */
module StreamArguments {
  import opened Wrappers
  import opened ResponsesModel
  import opened StreamSteps
  import opened StreamSpec
  import opened StreamTracking
  import opened StreamRuns
  import opened StreamTheorems
  import opened StreamSafety

  function IndexOf(td: ToolDelta): int {
    td.index.GetOr(0)
  }

  /** The number of the first call that is opened under a tool index. */
  function OpenerOf(tds: seq<ToolDelta>, index: int): Option<nat> {
    if tds == [] then None
    else
      var init, last := tds[..|tds| - 1], tds[|tds| - 1];
      var before := OpenerOf(init, index);
      if before.Some? then before
      else if !last.id.Absent? && IndexOf(last) == index then Some(|Openings(init)|) else None
  }

  lemma {:induction false} OpenerIsFirst(tds: seq<ToolDelta>, index: int)
    ensures match OpenerOf(tds, index)
            case Some(n) =>
              && n < |Openings(tds)| && IndexOf(Openings(tds)[n]) == index
              && forall k | 0 <= k < n :: IndexOf(Openings(tds)[k]) != index
            case None => forall k | 0 <= k < |Openings(tds)| :: IndexOf(Openings(tds)[k]) != index
  {
    if tds == [] {
    } else {
      OpenerIsFirst(tds[..|tds| - 1], index);
    }
  }

  /** Argument text for a tool index that comes with or after the opening of its first call. */
  function Kept(tds: seq<ToolDelta>, index: int): string {
    if tds == [] then ""
    else
      var init, last := Kept(tds[..|tds| - 1], index), tds[|tds| - 1];
      if IndexOf(last) == index && OpenerOf(tds, index).Some? then init + last.arguments else init
  }

  /** Argument text for a tool index that comes before any call is opened under it. */
  function Early(tds: seq<ToolDelta>, index: int): string {
    if tds == [] then ""
    else
      var init, last := Early(tds[..|tds| - 1], index), tds[|tds| - 1];
      if IndexOf(last) == index && OpenerOf(tds, index).None? then init + last.arguments else init
  }

  lemma {:induction false} NothingKept(tds: seq<ToolDelta>, index: int)
    requires OpenerOf(tds, index).None?
    ensures Kept(tds, index) == "" && Early(tds, index) == ArgumentsFor(tds, index)
  {
    if tds == [] {
    } else {
      NothingKept(tds[..|tds| - 1], index);
    }
  }

  /** All argument text for an index is early or kept. */
  lemma {:induction false} EarlyOrKept(tds: seq<ToolDelta>, index: int)
    ensures ArgumentsFor(tds, index) == Early(tds, index) + Kept(tds, index)
  {
    if tds == [] {
    } else {
      var init, last := tds[..|tds| - 1], tds[|tds| - 1];
      EarlyOrKept(init, index);
      if OpenerOf(tds, index).None? {
        NothingKept(init, index);
        NothingKept(tds, index);
      } else {
        assert Early(init, index) + (Kept(init, index) + last.arguments) ==
               Early(init, index) + Kept(init, index) + last.arguments;
      }
    }
  }

  // ----- The calls of a state -----

  /** What a call has received: all text since its opening, unless another call was opened before under its index. */
  function Received(tds: seq<ToolDelta>, k: nat): string
    requires k < |Openings(tds)|
  {
    var index := IndexOf(Openings(tds)[k]);
    if OpenerOf(tds, index) == Some(k) then Kept(tds, index) else ""
  }

  predicate IsCall(call: ActiveCall, tds: seq<ToolDelta>, base: int, k: nat)
    requires k < |Openings(tds)|
  {
    var td := Openings(tds)[k];
    call == ActiveCall(base + 1 + IndexOf(td), FunctionCallId(IdText(td.id)), IdText(td.id), td.name.GetOr(""),
                       Received(tds, k))
  }

  /** The calls are those that have been opened, and once there is one the indices no longer move. */
  predicate CallsFollow(st: State, tds: seq<ToolDelta>) {
    && |st.data.calls| == |Openings(tds)|
    && (st.data.calls != [] ==> Rank(MessageInProgress) <= Rank(st.phase))
    && forall k: nat | k < |Openings(tds)| :: IsCall(st.data.calls[k], tds, MessageIndex(st), k)
  }

  lemma {:induction false} FoundCall(calls: seq<ActiveCall>, index: int)
    ensures match FindCall(calls, index)
            case Some(k) => calls[k].outputIndex == index && forall j | 0 <= j < k :: calls[j].outputIndex != index
            case None => forall j | 0 <= j < |calls| :: calls[j].outputIndex != index
  {
    if calls == [] {
    } else {
      FoundCall(calls[1..], index);
      assert forall j | 1 <= j < |calls| :: calls[j] == calls[1..][j - 1];
    }
  }

  /** A call is found by its being the first with its index. */
  lemma {:induction false} FoundFirst(calls: seq<ActiveCall>, index: int, found: Option<nat>)
    requires match found
             case Some(k) => k < |calls| && calls[k].outputIndex == index && forall j | 0 <= j < k :: calls[j].outputIndex != index
             case None => forall j | 0 <= j < |calls| :: calls[j].outputIndex != index
    ensures FindCall(calls, index) == found
  {
    FoundCall(calls, index);
  }

  /** The call that is found at an output index is the first that was opened under the tool index. */
  lemma {:induction false} FoundIsOpener(st: State, tds: seq<ToolDelta>, index: int)
    requires CallsFollow(st, tds)
    ensures FindCall(st.data.calls, MessageIndex(st) + 1 + index) == OpenerOf(tds, index)
  {
    var calls, opens, at := st.data.calls, Openings(tds), MessageIndex(st) + 1 + index;
    var opener := OpenerOf(tds, index);
    forall k: nat | k < |opens|
      ensures calls[k].outputIndex == MessageIndex(st) + 1 + IndexOf(opens[k])
    {
      assert IsCall(calls[k], tds, MessageIndex(st), k);
    }
    OpenerIsFirst(tds, index);
    FoundFirst(calls, at, opener);
  }

  lemma {:induction false} FoundAfterOpening(calls: seq<ActiveCall>, c: ActiveCall, index: int)
    ensures FindCall(calls + [c], index) ==
            if FindCall(calls, index).Some? then FindCall(calls, index)
            else if c.outputIndex == index then Some(|calls|) else None
  {
    FoundCall(calls, index);
    var found := if FindCall(calls, index).Some? then FindCall(calls, index)
                 else if c.outputIndex == index then Some(|calls|) else None;
    FoundFirst(calls + [c], index, found);
  }

  lemma {:induction false} OpeningsSnoc(tds: seq<ToolDelta>, td: ToolDelta)
    ensures Openings(tds + [td]) == if td.id.Absent? then Openings(tds) else Openings(tds) + [td]
  {
    assert (tds + [td])[..|tds|] == tds;
  }

  lemma {:induction false} OpenerSnoc(tds: seq<ToolDelta>, td: ToolDelta, index: int)
    ensures OpenerOf(tds + [td], index) ==
            if OpenerOf(tds, index).Some? then OpenerOf(tds, index)
            else if !td.id.Absent? && IndexOf(td) == index then Some(|Openings(tds)|) else None
    ensures Kept(tds + [td], index) ==
            Kept(tds, index)
            + if IndexOf(td) == index && OpenerOf(tds + [td], index).Some? then td.arguments else ""
  {
    assert (tds + [td])[..|tds|] == tds;
    assert Kept(tds, index) + "" == Kept(tds, index);
  }

  /** One more delta: a call that is there takes in its arguments exactly when it was the first under their index. */
  lemma {:induction false} ReceivedOn(tds: seq<ToolDelta>, td: ToolDelta, k: nat)
    requires k < |Openings(tds)|
    ensures k < |Openings(tds + [td])| && Openings(tds + [td])[k] == Openings(tds)[k]
    ensures Received(tds + [td], k) ==
            Received(tds, k) + if OpenerOf(tds + [td], IndexOf(td)) == Some(k) then td.arguments else ""
  {
    var index := IndexOf(Openings(tds)[k]);
    OpeningsSnoc(tds, td);
    OpenerSnoc(tds, td, index);
    OpenerSnoc(tds, td, IndexOf(td));
    OpenerIsFirst(tds, index);
    OpenerIsFirst(tds + [td], IndexOf(td));
    assert Received(tds, k) + "" == Received(tds, k);
  }

  lemma {:induction false} ReceivedFirst(tds: seq<ToolDelta>, td: ToolDelta)
    requires !td.id.Absent?
    ensures var k := |Openings(tds)|;
            && k < |Openings(tds + [td])| && Openings(tds + [td])[k] == td
            && Received(tds + [td], k) == if OpenerOf(tds + [td], IndexOf(td)) == Some(k) then td.arguments else ""
  {
    OpeningsSnoc(tds, td);
    OpenerSnoc(tds, td, IndexOf(td));
    OpenerIsFirst(tds, IndexOf(td));
    if OpenerOf(tds, IndexOf(td)).None? {
      NothingKept(tds, IndexOf(td));
      assert "" + td.arguments == td.arguments;
    }
  }

  function Grown(call: ActiveCall, grows: bool, arguments: string): ActiveCall {
    if grows then call.(arguments := call.arguments + arguments) else call
  }

  /** Arguments are put at the end of the call that is found for them, if there is one. */
  lemma {:induction false} ArgumentsAppended(calls: seq<ActiveCall>, index: int, arguments: string)
    ensures var after := if arguments == "" then calls else AppendArguments(calls, index, arguments);
            && |after| == |calls|
            && forall k: nat | k < |calls| :: after[k] == Grown(calls[k], FindCall(calls, index) == Some(k), arguments)
  {
    forall k: nat | k < |calls|
      ensures calls[k].(arguments := calls[k].arguments + "") == calls[k]
    {
      assert calls[k].arguments + "" == calls[k].arguments;
    }
  }

  function Opened(st: State, td: ToolDelta): ActiveCall {
    ActiveCall(CallIndex(st, td), FunctionCallId(IdText(td.id)), IdText(td.id), td.name.GetOr(""), "")
  }

  function Known(st: State, td: ToolDelta): seq<ActiveCall> {
    if td.id.Absent? then st.data.calls else st.data.calls + [Opened(st, td)]
  }

  lemma {:induction false} KnownFound(st: State, tds: seq<ToolDelta>, td: ToolDelta)
    requires CallsFollow(st, tds)
    ensures |Known(st, td)| == |Openings(tds + [td])|
    ensures FindCall(Known(st, td), CallIndex(st, td)) == OpenerOf(tds + [td], IndexOf(td))
  {
    OpeningsSnoc(tds, td);
    OpenerSnoc(tds, td, IndexOf(td));
    FoundIsOpener(st, tds, IndexOf(td));
    FoundAfterOpening(st.data.calls, Opened(st, td), CallIndex(st, td));
  }

  /** The calls after a delta: each as before, with the arguments at its end when it is the first under their index. */
  lemma {:induction false} CallsAfterAt(st: State, tds: seq<ToolDelta>, td: ToolDelta, k: nat)
    requires CallsFollow(st, tds) && k < |Openings(tds + [td])|
    ensures |CallsAfter(st, td)| == |Known(st, td)| == |Openings(tds + [td])|
    ensures CallsAfter(st, td)[k] == Grown(Known(st, td)[k], OpenerOf(tds + [td], IndexOf(td)) == Some(k), td.arguments)
  {
    KnownFound(st, tds, td);
    ArgumentsAppended(Known(st, td), CallIndex(st, td), td.arguments);
  }

  lemma {:induction false} OldCallFollows(st: State, tds: seq<ToolDelta>, td: ToolDelta, k: nat)
    requires CallsFollow(st, tds) && k < |Openings(tds)|
    ensures k < |CallsAfter(st, td)| && k < |Openings(tds + [td])|
    ensures IsCall(CallsAfter(st, td)[k], tds + [td], MessageIndex(st), k)
  {
    ReceivedOn(tds, td, k);
    CallsAfterAt(st, tds, td, k);
    assert IsCall(st.data.calls[k], tds, MessageIndex(st), k);
    assert Known(st, td)[k] == st.data.calls[k];
    assert Received(tds, k) + "" == Received(tds, k);
  }

  lemma {:induction false} NewCallFollows(st: State, tds: seq<ToolDelta>, td: ToolDelta)
    requires CallsFollow(st, tds) && !td.id.Absent?
    ensures var k := |Openings(tds)|;
            && k < |CallsAfter(st, td)| && k < |Openings(tds + [td])|
            && IsCall(CallsAfter(st, td)[k], tds + [td], MessageIndex(st), k)
  {
    ReceivedFirst(tds, td);
    CallsAfterAt(st, tds, td, |Openings(tds)|);
    assert "" + td.arguments == td.arguments;
  }

  lemma {:induction false} LengthAfter(st: State, tds: seq<ToolDelta>, td: ToolDelta)
    requires CallsFollow(st, tds)
    ensures |CallsAfter(st, td)| == |Openings(tds + [td])| == |Openings(tds)| + if td.id.Absent? then 0 else 1
  {
    OpeningsSnoc(tds, td);
    KnownFound(st, tds, td);
    ArgumentsAppended(Known(st, td), CallIndex(st, td), td.arguments);
  }

  lemma {:induction false} CallFollows(st: State, tds: seq<ToolDelta>, td: ToolDelta, k: nat)
    requires CallsFollow(st, tds) && k < |Openings(tds + [td])|
    ensures |CallsAfter(st, td)| == |Openings(tds + [td])|
    ensures IsCall(CallsAfter(st, td)[k], tds + [td], MessageIndex(st), k)
  {
    LengthAfter(st, tds, td);
    if k < |Openings(tds)| {
      OldCallFollows(st, tds, td, k);
    } else {
      assert k == |Openings(tds)|;
      NewCallFollows(st, tds, td);
    }
  }

  lemma {:induction false} ToolDeltaFollows(m: Meta, st: State, tds: seq<ToolDelta>, td: ToolDelta)
    requires CallsFollow(st, tds)
    ensures CallsFollow(OnToolDelta(m, st, td), tds + [td])
  {
    forall k: nat | k < |Openings(tds + [td])|
      ensures |CallsAfter(st, td)| == |Openings(tds + [td])|
      ensures IsCall(CallsAfter(st, td)[k], tds + [td], MessageIndex(st), k)
    {
      CallFollows(st, tds, td, k);
    }
    KnownFound(st, tds, td);
    ArgumentsAppended(Known(st, td), CallIndex(st, td), td.arguments);
    PhaseAfter(m, st, tds, td);
  }

  lemma {:induction false} PhaseAfter(m: Meta, st: State, tds: seq<ToolDelta>, td: ToolDelta)
    requires CallsFollow(st, tds)
    ensures var st' := OnToolDelta(m, st, td);
            MessageIndex(st') == MessageIndex(st) && (st'.data.calls != [] ==> Rank(MessageInProgress) <= Rank(st'.phase))
  {
    ArgumentsAppended(Known(st, td), CallIndex(st, td), td.arguments);
  }

  lemma {:induction false} StepFollows(m: Meta, st: State, ops: seq<Op>, op: Op)
    requires CallsFollow(st, Tools(ops))
    ensures CallsFollow(Step(m, st, op), Tools(ops + [op]))
  {
    OneMoreOp(ops, op);
    if op.Call? {
      ToolDeltaFollows(m, st, Tools(ops), op.td);
    } else {
      assert Tools(ops) + [] == Tools(ops);
      SameCallsFollow(st, Step(m, st, op), Tools(ops));
    }
  }

  lemma {:induction false} SameCallsFollow(st: State, st': State, tds: seq<ToolDelta>)
    requires CallsFollow(st, tds) && st'.data.calls == st.data.calls && Advances(st, st')
    ensures CallsFollow(st', tds)
  {
    forall k: nat | k < |Openings(tds)|
      ensures IsCall(st'.data.calls[k], tds, MessageIndex(st'), k)
    {
      assert IsCall(st.data.calls[k], tds, MessageIndex(st), k);
    }
  }

  // ----- Which arguments are sent -----

  /** The call identifier and the text of all argument deltas of a log. */
  function SentArguments(log: seq<Event>): seq<(string, string)> {
    if log == [] then []
    else
      var init, last := SentArguments(log[..|log| - 1]), log[|log| - 1];
      if last.ArgumentsDelta? then init + [(last.callId, last.delta)] else init
  }

  /** The identifier of the first call opened under a tool index, and none when there is no such call. */
  function CallIdFor(tds: seq<ToolDelta>, index: int): string {
    match OpenerOf(tds, index)
    case Some(k) => if k < |Openings(tds)| then IdText(Openings(tds)[k].id) else ""
    case None => ""
  }

  /** All argument texts in order, each with the identifier of its call as far as it is known by then. */
  function ArgumentsOf(tds: seq<ToolDelta>): seq<(string, string)> {
    if tds == [] then []
    else
      var init, last := ArgumentsOf(tds[..|tds| - 1]), tds[|tds| - 1];
      if last.arguments == "" then init else init + [(CallIdFor(tds, IndexOf(last)), last.arguments)]
  }

  /** The events that tool deltas send about their calls: openings and arguments. */
  predicate IsCallEvent(e: Event) {
    e.ArgumentsDelta? || (e.ItemAdded? && e.item.FunctionCallItem?)
  }

  function CallEvents(log: seq<Event>): seq<Event> {
    if log == [] then []
    else
      var init, last := CallEvents(log[..|log| - 1]), log[|log| - 1];
      if IsCallEvent(last) then init + [last] else init
  }

  lemma {:induction false} CallEventsAppend(a: seq<Event>, b: seq<Event>)
    ensures CallEvents(a + b) == CallEvents(a) + CallEvents(b)
  {
    if b == [] {
      assert a + b == a;
    } else {
      assert (a + b)[..|a + b| - 1] == a + b[..|b| - 1];
      CallEventsAppend(a, b[..|b| - 1]);
    }
  }

  lemma {:induction false} NoCallEvents(evs: seq<Event>)
    requires forall k | 0 <= k < |evs| :: !IsCallEvent(evs[k])
    ensures CallEvents(evs) == []
  {
    if evs == [] {
    } else {
      NoCallEvents(evs[..|evs| - 1]);
    }
  }

  lemma {:induction false} CallEventsOn(log: seq<Event>, more: seq<Event>)
    requires forall k | 0 <= k < |more| :: !IsCallEvent(more[k])
    ensures CallEvents(log + more) == CallEvents(log)
  {
    CallEventsAppend(log, more);
    NoCallEvents(more);
  }

  /** Where the calls are added, in order. */
  function AddedAt(log: seq<Event>): seq<int> {
    if log == [] then []
    else
      var init, last := AddedAt(log[..|log| - 1]), log[|log| - 1];
      if last.ItemAdded? && last.item.FunctionCallItem? then init + [last.index] else init
  }

  lemma OneMoreSent(log: seq<Event>, e: Event)
    ensures SentArguments(log + [e]) == SentArguments(log) + if e.ArgumentsDelta? then [(e.callId, e.delta)] else []
    ensures AddedAt(log + [e]) == AddedAt(log) + if e.ItemAdded? && e.item.FunctionCallItem? then [e.index] else []
  {
    assert (log + [e])[..|log|] == log;
    assert SentArguments(log) + [] == SentArguments(log) && AddedAt(log) + [] == AddedAt(log);
  }

  lemma {:induction false} CallEventsTell(log: seq<Event>)
    ensures SentArguments(CallEvents(log)) == SentArguments(log) && AddedAt(CallEvents(log)) == AddedAt(log)
  {
    if log == [] {
    } else {
      CallEventsTell(log[..|log| - 1]);
      OneMoreSent(CallEvents(log[..|log| - 1]), log[|log| - 1]);
    }
  }

  /** Only tool deltas send events about calls. */
  lemma {:induction false} OtherStepsSend(m: Meta, st: State, op: Op)
    requires !op.Call?
    ensures CallEvents(Step(m, st, op).log) == CallEvents(st.log)
  {
    match op
    case Think(text) =>
      if text != "" {
        CallEventsOn(st.log, ReasoningEvents(m, st));
        CallEventsOn(st.log + ReasoningEvents(m, st), [TextDelta(0, text)]);
      }
    case Role(_) =>
      CallEventsOn(st.log, BeginEvents(m, st, Done));
    case Say(text) =>
      if text != "" {
        CallEventsOn(st.log, BeginEvents(m, st, Done));
        CallEventsOn(st.log + BeginEvents(m, st, Done), [TextDelta(MessageIndex(st), text)]);
      }
    case Show(_, _) =>
  }

  lemma {:induction false} FoundAfter(st: State, tds: seq<ToolDelta>, td: ToolDelta)
    requires CallsFollow(st, tds)
    ensures FindCall(CallsAfter(st, td), CallIndex(st, td)) == OpenerOf(tds + [td], IndexOf(td))
  {
    KnownFound(st, tds, td);
    ArgumentsAppended(Known(st, td), CallIndex(st, td), td.arguments);
    SameIndices(Known(st, td), CallsAfter(st, td), CallIndex(st, td));
  }

  lemma {:induction false} OpenerId(st: State, tds: seq<ToolDelta>, td: ToolDelta)
    requires CallsFollow(st, tds) && OpenerOf(tds + [td], IndexOf(td)).Some?
    ensures var k := OpenerOf(tds + [td], IndexOf(td)).value;
            k < |CallsAfter(st, td)| && CallsAfter(st, td)[k].callId == CallIdFor(tds + [td], IndexOf(td))
  {
    OpenerIsFirst(tds + [td], IndexOf(td));
    CallFollows(st, tds, td, OpenerOf(tds + [td], IndexOf(td)).value);
  }

  lemma {:induction false} CallIdIsKnown(st: State, tds: seq<ToolDelta>, td: ToolDelta)
    requires CallsFollow(st, tds)
    ensures CallIdAt(CallsAfter(st, td), CallIndex(st, td)) == CallIdFor(tds + [td], IndexOf(td))
  {
    FoundAfter(st, tds, td);
    if OpenerOf(tds + [td], IndexOf(td)).Some? {
      OpenerId(st, tds, td);
    }
  }

  lemma {:induction false} SameIndices(a: seq<ActiveCall>, b: seq<ActiveCall>, index: int)
    requires |a| == |b| && forall k | 0 <= k < |a| :: a[k].outputIndex == b[k].outputIndex
    ensures FindCall(a, index) == FindCall(b, index)
  {
    FoundCall(a, index);
    FoundFirst(b, index, FindCall(a, index));
  }

  function Indices(calls: seq<ActiveCall>): seq<int> {
    seq(|calls|, k requires 0 <= k < |calls| => calls[k].outputIndex)
  }

  /** The opening of a tool delta, if it is one. */
  function OpeningEvents(st: State, td: ToolDelta): seq<Event> {
    var id := IdText(td.id);
    if td.id.Absent? then []
    else [ItemAdded(CallIndex(st, td), FunctionCallItem(FunctionCallId(id), id, td.name.GetOr(""), "", Pending))]
  }

  function ExtendingEvents(st: State, td: ToolDelta): seq<Event> {
    var index := CallIndex(st, td);
    if td.arguments == "" then [] else [ArgumentsDelta(index, CallIdAt(CallsAfter(st, td), index), td.arguments)]
  }

  lemma {:induction false} ToolCallEvents(m: Meta, st: State, td: ToolDelta)
    ensures CallEvents(OnToolDelta(m, st, td).log) == CallEvents(st.log) + OpeningEvents(st, td) + ExtendingEvents(st, td)
  {
    var begun := if td.id.Absent? then [] else BeginEvents(m, st, Done);
    var opening, extending := OpeningEvents(st, td), ExtendingEvents(st, td);
    assert ToolEvents(m, st, td) == begun + opening + extending;
    FourParts(st.log, begun, opening, extending);
    CallEventsOn(st.log, begun);
    AllCallEvents(opening);
    AllCallEvents(extending);
    CallEventsAppend(st.log + begun, opening);
    CallEventsAppend(st.log + begun + opening, extending);
  }

  lemma FourParts(a: seq<Event>, b: seq<Event>, c: seq<Event>, d: seq<Event>)
    ensures a + (b + c + d) == a + b + c + d
  {
  }

  lemma AllCallEvents(evs: seq<Event>)
    requires |evs| <= 1 && forall k | 0 <= k < |evs| :: IsCallEvent(evs[k])
    ensures CallEvents(evs) == evs
  {
    assert evs != [] ==> evs[..0] == [];
  }

  /** What has been sent about calls: all argument texts, and the opening of every call. */
  predicate Told(evs: seq<Event>, calls: seq<ActiveCall>, tds: seq<ToolDelta>) {
    SentArguments(evs) == ArgumentsOf(tds) && AddedAt(evs) == Indices(calls)
  }

  lemma {:induction false} OpeningTells(st: State, tds: seq<ToolDelta>, td: ToolDelta, evs: seq<Event>)
    requires Told(evs, st.data.calls, tds)
    ensures SentArguments(evs + OpeningEvents(st, td)) == ArgumentsOf(tds)
    ensures AddedAt(evs + OpeningEvents(st, td)) == Indices(Known(st, td))
  {
    if td.id.Absent? {
      assert evs + [] == evs;
    } else {
      OneMoreSent(evs, OpeningEvents(st, td)[0]);
      assert SentArguments(evs) + [] == SentArguments(evs);
      assert Indices(Known(st, td)) == Indices(st.data.calls) + [CallIndex(st, td)];
    }
  }

  lemma {:induction false} ToolDeltaSends(m: Meta, st: State, tds: seq<ToolDelta>, td: ToolDelta)
    requires Sending(st, tds)
    ensures Told(CallEvents(OnToolDelta(m, st, td).log), CallsAfter(st, td), tds + [td])
  {
    var evs := CallEvents(st.log) + OpeningEvents(st, td);
    ToolCallEvents(m, st, td);
    OpeningTells(st, tds, td, CallEvents(st.log));
    CallIdIsKnown(st, tds, td);
    ArgumentsAppended(Known(st, td), CallIndex(st, td), td.arguments);
    assert Indices(CallsAfter(st, td)) == Indices(Known(st, td));
    assert (tds + [td])[..|tds|] == tds;
    if td.arguments == "" {
      assert evs + [] == evs;
    } else {
      OneMoreSent(evs, ExtendingEvents(st, td)[0]);
      assert AddedAt(evs) + [] == AddedAt(evs);
    }
  }

  predicate Sending(st: State, tds: seq<ToolDelta>) {
    CallsFollow(st, tds) && Told(CallEvents(st.log), st.data.calls, tds)
  }

  lemma {:induction false} StepSends(m: Meta, st: State, ops: seq<Op>, op: Op)
    requires Sending(st, Tools(ops))
    ensures Sending(Step(m, st, op), Tools(ops + [op]))
  {
    StepFollows(m, st, ops, op);
    OneMoreOp(ops, op);
    if op.Call? {
      ToolDeltaSends(m, st, Tools(ops), op.td);
    } else {
      OtherStepsSend(m, st, op);
      assert Tools(ops) + [] == Tools(ops);
    }
  }

  lemma {:induction false} StepsSend(m: Meta, st: State, ops: seq<Op>, more: seq<Op>)
    requires Sending(st, Tools(ops))
    ensures Sending(Steps(m, st, more), Tools(ops + more))
  {
    if more == [] {
      assert ops + more == ops;
    } else {
      var init, op := more[..|more| - 1], more[|more| - 1];
      StepsSend(m, st, ops, init);
      StepSends(m, Steps(m, st, init), ops + init, op);
      assert ops + init + [op] == ops + more;
    }
  }

  lemma {:induction false} ImagesSend(m: Meta, start: int, images: seq<string>, status: Status)
    ensures CallEvents(ImageEvents(m, start, images, status)) == []
    decreases |images|
  {
    if images == [] {
    } else {
      var k := |images| - 1;
      ImagesSend(m, start, images[..k], status);
      CallEventsOn(ImageEvents(m, start, images[..k], status),
             [ItemAdded(start + k, ImageItem(ImageId(m.chunkId, k), Pending, None)),
              ItemDone(start + k, ImageItem(ImageId(m.chunkId, k), status, Some(images[k])))]);
    }
  }

  lemma {:induction false} ItemsSend(m: Meta, hadReasoning: bool, data: Data, finish: Option<Finish>, status: Status)
    ensures CallEvents(ItemsDone(m, hadReasoning, data, finish, status)) == []
  {
    var index := if hadReasoning then 1 else 0;
    var calls := CallsDone(data.calls, status);
    var message := [PartDone(index, Part(data.messageText, data.annotations)), ItemDone(index, MessageResult(m, data, status))];
    NoCallEvents(calls);
    CallEventsOn(calls, message);
    ImagesSend(m, index + 1 + |data.calls|, data.images, ImageStatusOf(finish));
    CallEventsAppend(calls + message, ImageEvents(m, index + 1 + |data.calls|, data.images, ImageStatusOf(finish)));
  }

  lemma {:induction false} CompleteCallEvents(m: Meta, st: State, status: Status, usage: Option<Json>)
    ensures CallEvents(Complete(m, st, status, usage).log) == CallEvents(st.log)
  {
    var begun, items := st.log + BeginEvents(m, st, status), ItemsDone(m, st.hadReasoning, st.data, st.finish, status);
    var completed := Completed(FinalResponse(m, st.hadReasoning, st.data, st.finish, status, usage));
    CallEventsOn(st.log, BeginEvents(m, st, status));
    ItemsSend(m, st.hadReasoning, st.data, st.finish, status);
    CallEventsOn(items, [completed]);
    CallEventsAppend(begun, items + [completed]);
    assert CallEvents(st.log) + [] == CallEvents(st.log);
  }

  lemma {:induction false} CompleteSends(m: Meta, st: State, status: Status, usage: Option<Json>, tds: seq<ToolDelta>)
    requires Sending(st, tds)
    ensures Sending(Complete(m, st, status, usage), tds)
  {
    CompleteCallEvents(m, st, status, usage);
    SameCallsFollow(st, Complete(m, st, status, usage), tds);
  }

  lemma {:induction false} ChoiceSends(m: Meta, st: State, ops: seq<Op>, c: Choice, usage: Option<Json>)
    requires Sending(st, Tools(ops))
    ensures Sending(OnChoice(m, st, c, usage), Tools(ops + Transcript([c])))
  {
    OneChoice(m, st, c);
    StepsSend(m, st, ops, Transcript([c]));
    var a, tds := Steps(m, st, Transcript([c])), Tools(ops + Transcript([c]));
    if FinishOf(c).Some? {
      SameCallsFollow(a, a.(finish := FinishOf(c)), tds);
      CompleteSends(m, a.(finish := FinishOf(c)), StatusOf(FinishOf(c).value), usage, tds);
    }
  }

  lemma {:induction false} ChoicesSend(m: Meta, st: State, ops: seq<Op>, cs: seq<Choice>, usage: Option<Json>)
    requires Sending(st, Tools(ops))
    ensures Sending(OnChoices(m, st, cs, usage), Tools(ops + Transcript(cs)))
  {
    if cs == [] {
      assert ops + [] == ops;
    } else {
      var init, c := cs[..|cs| - 1], cs[|cs| - 1];
      ChoicesSend(m, st, ops, init, usage);
      ChoiceSends(m, OnChoices(m, st, init, usage), ops + Transcript(init), c, usage);
      SplitOps(ops, cs);
    }
  }

  lemma {:induction false} RunSends(m: Meta, chunks: seq<Chunk>)
    ensures Sending(Run(m, FRESH, chunks).1, Tools(Ops(chunks)))
  {
    if chunks == [] {
    } else {
      var init, last := chunks[..|chunks| - 1], chunks[|chunks| - 1];
      RunSends(m, init);
      Split(chunks);
      ChoicesSend(Learn(Run(m, FRESH, init).0, last), Run(m, FRESH, init).1, Ops(init), last.choices, last.usage);
    }
  }

  /**
   * Whatever the stream: all argument texts are sent, once and in order, each under the identifier of the first call
   * that has been opened with its index, and under none when there is no such call.
   */
  lemma {:induction false} ArgumentsAreSent(responseId: string, model: string, chunks: seq<Chunk>)
    ensures SentArguments(Relayed(responseId, model, chunks)) == ArgumentsOf(Tools(Ops(chunks)))
  {
    var m := Initially(responseId, model);
    var (m', st) := Run(m, FRESH, chunks);
    RunSends(m, chunks);
    if st.phase != NotStarted && st.phase != Finished {
      var a := if st.finish.None? then st.(finish := Some(Length)) else st;
      SameCallsFollow(st, a, Tools(Ops(chunks)));
      CompleteSends(m', a, Incomplete, None, Tools(Ops(chunks)));
    }
    CallEventsTell(Finalize(m', st).log);
  }

  // ----- Which calls arrive -----

  /** The function calls of an output array. */
  function FunctionCalls(output: seq<Item>): seq<Item> {
    if output == [] then []
    else
      var init, last := FunctionCalls(output[..|output| - 1]), output[|output| - 1];
      if last.FunctionCallItem? then init + [last] else init
  }

  lemma {:induction false} FunctionCallsAppend(a: seq<Item>, b: seq<Item>)
    ensures FunctionCalls(a + b) == FunctionCalls(a) + FunctionCalls(b)
  {
    if b == [] {
      assert a + b == a;
    } else {
      assert (a + b)[..|a + b| - 1] == a + b[..|b| - 1];
      FunctionCallsAppend(a, b[..|b| - 1]);
    }
  }

  lemma {:induction false} AllCalls(items: seq<Item>)
    requires forall k | 0 <= k < |items| :: items[k].FunctionCallItem?
    ensures FunctionCalls(items) == items
  {
    if items == [] {
    } else {
      AllCalls(items[..|items| - 1]);
    }
  }

  lemma {:induction false} NoCalls(items: seq<Item>)
    requires forall k | 0 <= k < |items| :: !items[k].FunctionCallItem?
    ensures FunctionCalls(items) == []
  {
    if items == [] {
    } else {
      NoCalls(items[..|items| - 1]);
    }
  }

  lemma {:induction false} FinalCalls(m: Meta, hadReasoning: bool, data: Data, finish: Option<Finish>, status: Status)
    ensures FunctionCalls(FinalOutput(m, hadReasoning, data, finish, status)) == CallResults(data.calls, status)
  {
    var reasoning := if hadReasoning then [ReasoningResult(m, data, status)] else [];
    var message := [MessageResult(m, data, status)];
    var calls, images := CallResults(data.calls, status), ImageResults(m, data.images, ImageStatusOf(finish));
    NoCalls(reasoning);
    NoCalls(message);
    NoCalls(images);
    AllCalls(calls);
    FunctionCallsAppend(reasoning, message);
    FunctionCallsAppend(reasoning + message, calls);
    FunctionCallsAppend(reasoning + message + calls, images);
  }

  /** Where the function calls stand in an output array, counted from `first`. */
  function CallPositions(output: seq<Item>, first: nat): seq<int> {
    if output == [] then []
    else
      var n := |output| - 1;
      if output[n].FunctionCallItem? then CallPositions(output[..n], first) + [first + n] else CallPositions(output[..n], first)
  }

  lemma {:induction false} PositionsAppend(a: seq<Item>, b: seq<Item>, first: nat)
    ensures CallPositions(a + b, first) == CallPositions(a, first) + CallPositions(b, first + |a|)
  {
    if b == [] {
      assert a + b == a;
    } else {
      assert (a + b)[..|a + b| - 1] == a + b[..|b| - 1];
      PositionsAppend(a, b[..|b| - 1], first);
    }
  }

  lemma {:induction false} NoPositions(items: seq<Item>, first: nat)
    requires forall k | 0 <= k < |items| :: !items[k].FunctionCallItem?
    ensures CallPositions(items, first) == []
  {
    if items == [] {
    } else {
      NoPositions(items[..|items| - 1], first);
    }
  }

  function Consecutive(first: int, n: nat): seq<int> {
    seq(n, k requires 0 <= k < n => first + k)
  }

  lemma {:induction false} AllPositions(items: seq<Item>, first: nat)
    requires forall k | 0 <= k < |items| :: items[k].FunctionCallItem?
    ensures CallPositions(items, first) == Consecutive(first, |items|)
  {
    if items == [] {
    } else {
      AllPositions(items[..|items| - 1], first);
      assert Consecutive(first, |items|) == Consecutive(first, |items| - 1) + [first + |items| - 1];
    }
  }

  lemma {:induction false} FinalPositions(m: Meta, hadReasoning: bool, data: Data, finish: Option<Finish>, status: Status)
    ensures CallPositions(FinalOutput(m, hadReasoning, data, finish, status), 0) ==
            Consecutive(if hadReasoning then 2 else 1, |data.calls|)
  {
    var reasoning := if hadReasoning then [ReasoningResult(m, data, status)] else [];
    PositionsBetween(reasoning + [MessageResult(m, data, status)], CallResults(data.calls, status),
                     ImageResults(m, data.images, ImageStatusOf(finish)));
  }

  lemma {:induction false} PositionsBetween(before: seq<Item>, calls: seq<Item>, after: seq<Item>)
    requires forall k | 0 <= k < |before| :: !before[k].FunctionCallItem?
    requires forall k | 0 <= k < |calls| :: calls[k].FunctionCallItem?
    requires forall k | 0 <= k < |after| :: !after[k].FunctionCallItem?
    ensures CallPositions(before + calls + after, 0) == Consecutive(|before|, |calls|)
  {
    NoPositions(before, 0);
    AllPositions(calls, |before|);
    NoPositions(after, |before + calls|);
    PositionsAppend(before, calls, 0);
    PositionsAppend(before + calls, after, 0);
  }

  /** The last event reports a response with a function call for each call of the state, behind the message. */
  predicate ReportsCalls(st: State) {
    && st.log != [] && st.log[|st.log| - 1].Completed?
    && FunctionCalls(Reported(st.log).output) == CallResults(st.data.calls, Reported(st.log).status)
    && CallPositions(Reported(st.log).output, 0) == Consecutive(MessageIndex(st) + 1, |st.data.calls|)
  }

  lemma {:induction false} CompleteReportsCalls(m: Meta, st: State, status: Status, usage: Option<Json>)
    ensures ReportsCalls(Complete(m, st, status, usage))
  {
    FinalCalls(m, st.hadReasoning, st.data, st.finish, status);
    FinalPositions(m, st.hadReasoning, st.data, st.finish, status);
    var completed := Completed(FinalResponse(m, st.hadReasoning, st.data, st.finish, status, usage));
    var log := Complete(m, st, status, usage).log;
    assert log[|log| - 1] == completed;
  }

  lemma {:induction false} RunReportsCalls(m: Meta, chunks: seq<Chunk>)
    requires Ending(Choices(chunks)).Some?
    ensures ReportsCalls(Run(m, FRESH, chunks).1)
  {
    if chunks == [] {
    } else {
      var init, last := chunks[..|chunks| - 1], chunks[|chunks| - 1];
      var (m', st) := Run(m, FRESH, init);
      if last.choices == [] {
        assert Choices(chunks) == Choices(init);
        RunReportsCalls(m, init);
      } else {
        var before, c := last.choices[..|last.choices| - 1], last.choices[|last.choices| - 1];
        assert c == Choices(chunks)[|Choices(chunks)| - 1];
        ChoiceReportsCalls(Learn(m', last), OnChoices(Learn(m', last), st, before, last.usage), c, last.usage);
      }
    }
  }

  lemma {:induction false} ChoiceReportsCalls(m: Meta, st: State, c: Choice, usage: Option<Json>)
    requires FinishOf(c).Some?
    ensures ReportsCalls(OnChoice(m, st, c, usage))
  {
    var a := if c.delta.Some? then OnDelta(m, st, c.delta.value) else st;
    CompleteReportsCalls(m, a.(finish := FinishOf(c)), StatusOf(FinishOf(c).value), usage);
  }

  /** The stream ends with a finish reason, or none comes and it is closed because something has begun. */
  predicate Concluded(chunks: seq<Chunk>) {
    Ending(Choices(chunks)).Some? || (Unfinished(Choices(chunks)) && Began(Ops(chunks)))
  }

  lemma {:induction false} StreamGoes(responseId: string, model: string, chunks: seq<Chunk>) returns (st: State)
    requires Concluded(chunks)
    ensures st.log == Relayed(responseId, model, chunks) && ReportsCalls(st)
    ensures CallsFollow(st, Tools(Ops(chunks))) && AddedAt(st.log) == Indices(st.data.calls)
  {
    var m := Initially(responseId, model);
    var (m', a) := Run(m, FRESH, chunks);
    RunSends(m, chunks);
    st := Finalize(m', a);
    if Ending(Choices(chunks)).Some? {
      NoneFinishes(Choices(chunks));
      RunFinishes(m, FRESH, chunks);
      RunReportsCalls(m, chunks);
    } else {
      RunUnderway(m, chunks);
      var b := if a.finish.None? then a.(finish := Some(Length)) else a;
      SameCallsFollow(a, b, Tools(Ops(chunks)));
      CompleteSends(m', b, Incomplete, None, Tools(Ops(chunks)));
      CompleteReportsCalls(m', b, Incomplete, None);
    }
    CallEventsTell(st.log);
  }

  /** The argument text that has arrived for a tool index: that of the first call opened under it, if there is one. */
  function Arrived(output: seq<Item>, tds: seq<ToolDelta>, index: int): string {
    match OpenerOf(tds, index)
    case Some(k) =>
      if k < |FunctionCalls(output)| && FunctionCalls(output)[k].FunctionCallItem? then FunctionCalls(output)[k].arguments
      else ""
    case None => ""
  }

  /**
   * Whatever the stream: the completed output has one function call for each delta that opens one, and for every tool
   * index all argument text arrives in the first of its calls, exactly unless some comes before the call is opened.
   */
  lemma {:induction false} ArgumentsArrive(responseId: string, model: string, chunks: seq<Chunk>, index: int)
    requires Concluded(chunks)
    ensures var log, tds := Relayed(responseId, model, chunks), Tools(Ops(chunks));
            && log != [] && log[|log| - 1].Completed?
            && |FunctionCalls(Reported(log).output)| == |Openings(tds)|
            && Arrived(Reported(log).output, tds, index) == Kept(tds, index)
            && (Arrived(Reported(log).output, tds, index) == ArgumentsFor(tds, index) <==> Early(tds, index) == "")
  {
    var tds := Tools(Ops(chunks));
    var st := StreamGoes(responseId, model, chunks);
    OpenerIsFirst(tds, index);
    match OpenerOf(tds, index) {
      case Some(k) => assert IsCall(st.data.calls[k], tds, MessageIndex(st), k);
      case None => NothingKept(tds, index);
    }
    EarlyOrKept(tds, index);
    assert |Early(tds, index) + Kept(tds, index)| == |Early(tds, index)| + |Kept(tds, index)|;
    assert "" + Kept(tds, index) == Kept(tds, index);
  }

  /**
   * Whatever the stream: every function call is added at the index that is its position in the completed output,
   * exactly when the calls are opened with the tool indices 0, 1, 2, and so on.
   */
  lemma {:induction false} CallIndicesAgree(responseId: string, model: string, chunks: seq<Chunk>)
    requires Concluded(chunks)
    ensures var log, opens := Relayed(responseId, model, chunks), Openings(Tools(Ops(chunks)));
            && log != [] && log[|log| - 1].Completed?
            && (AddedAt(log) == CallPositions(Reported(log).output, 0) <==>
                forall k: nat | k < |opens| :: IndexOf(opens[k]) == k)
  {
    var tds := Tools(Ops(chunks));
    var st := StreamGoes(responseId, model, chunks);
    var added, positions := Indices(st.data.calls), Consecutive(MessageIndex(st) + 1, |st.data.calls|);
    forall k: nat | k < |Openings(tds)|
      ensures added[k] == positions[k] <==> IndexOf(Openings(tds)[k]) == k
    {
      assert IsCall(st.data.calls[k], tds, MessageIndex(st), k);
    }
    if forall k: nat | k < |Openings(tds)| :: IndexOf(Openings(tds)[k]) == k {
      assert added == positions;
    } else {
      var k: nat :| k < |Openings(tds)| && IndexOf(Openings(tds)[k]) != k;
      assert added[k] != positions[k];
    }
  }
}
