/** The state of the stream transformer holds exactly the message that the deltas add up to. */
module StreamTracking {
  import opened Wrappers
  import opened ResponsesModel
  import opened StreamSteps
  import opened StreamSpec
  import opened StreamLog

  function Step(m: Meta, st: State, op: Op): State {
    match op
    case Think(text) => OnReasoning(m, st, text)
    case Role(isAssistant) => OnRole(m, st, isAssistant)
    case Say(text) => OnContent(m, st, text)
    case Show(anns, urls) => OnExtras(st, Delta("", None, "", anns, urls, []))
    case Call(td) => OnToolDelta(m, st, td)
  }

  function Steps(m: Meta, st: State, ops: seq<Op>): State {
    if ops == [] then st else Step(m, Steps(m, st, ops[..|ops| - 1]), ops[|ops| - 1])
  }

  lemma StepsSnoc(m: Meta, st: State, ops: seq<Op>, op: Op)
    ensures Steps(m, st, ops + [op]) == Step(m, Steps(m, st, ops), op)
  {
    assert (ops + [op])[..|ops|] == ops;
  }

  lemma {:induction false} StepsAppend(m: Meta, st: State, a: seq<Op>, b: seq<Op>)
    ensures Steps(m, st, a + b) == Steps(m, Steps(m, st, a), b)
  {
    if b == [] {
      assert a + b == a;
    } else {
      var last := |b| - 1;
      assert a + b == (a + b[..last]) + [b[last]];
      StepsSnoc(m, st, a + b[..last], b[last]);
      StepsAppend(m, st, a, b[..last]);
    }
  }

  lemma {:induction false} CallSteps(m: Meta, st: State, tds: seq<ToolDelta>)
    ensures Steps(m, st, CallOps(tds)) == OnToolDeltas(m, st, tds)
  {
    if tds == [] {
    } else {
      var last := |tds| - 1;
      assert CallOps(tds) == CallOps(tds[..last]) + [Call(tds[last])];
      StepsSnoc(m, st, CallOps(tds[..last]), Call(tds[last]));
      CallSteps(m, st, tds[..last]);
    }
  }

  lemma TextSteps(m: Meta, st: State, a: Op, b: Op, c: Op, d: Op)
    ensures Steps(m, st, [a, b, c, d]) == Step(m, Step(m, Step(m, Step(m, st, a), b), c), d)
  {
    assert [a, b, c, d] == [a, b, c] + [d] && [a, b, c] == [a, b] + [c] && [a, b] == [a] + [b] && [a] == [] + [a];
    StepsSnoc(m, st, [a, b, c], d);
    StepsSnoc(m, st, [a, b], c);
    StepsSnoc(m, st, [a], b);
    StepsSnoc(m, st, [], a);
  }

  /** A delta is the sequence of its elementary steps. */
  lemma DeltaSteps(m: Meta, st: State, d: Delta)
    ensures OnDelta(m, st, d) == Steps(m, st, OpsOf(d))
  {
    var a, b, c := Think(d.reasoning), Role(d.role == Some("assistant")), Say(d.content);
    var e := Show(d.annotations, d.images);
    StepsAppend(m, st, [a, b, c, e], CallOps(d.toolCalls));
    TextSteps(m, st, a, b, c, e);
    CallSteps(m, Steps(m, st, [a, b, c, e]), d.toolCalls);
  }

  // ----- The collected data -----

  lemma {:induction false} ConvertAppend(a: seq<RawAnnotation>, b: seq<RawAnnotation>)
    ensures ConvertAnnotations(a + b) == ConvertAnnotations(a) + ConvertAnnotations(b)
  {
    if b == [] {
      assert a + b == a;
    } else {
      assert (a + b)[..|a + b| - 1] == a + b[..|b| - 1];
      ConvertAppend(a, b[..|b| - 1]);
    }
  }

  lemma {:induction false} PayloadsAppend(a: seq<string>, b: seq<string>)
    ensures Payloads(a + b) == Payloads(a) + Payloads(b)
  {
    if b == [] {
      assert a + b == a;
    } else {
      assert (a + b)[..|a + b| - 1] == a + b[..|b| - 1];
      PayloadsAppend(a, b[..|b| - 1]);
    }
  }

  predicate SameCalls(calls: seq<ActiveCall>, known: seq<ToolCall>) {
    && |calls| == |known|
    && forall k | 0 <= k < |calls| ::
         calls[k].callId == known[k].id && calls[k].name == known[k].name && calls[k].arguments == known[k].arguments
  }

  ghost predicate Collected(data: Data, ops: seq<Op>) {
    && data.reasoningText == Thinking(ops) && data.messageText == Said(ops)
    && data.annotations == ConvertAnnotations(Annotated(ops)) && data.images == Payloads(Shown(ops))
    && SameCalls(data.calls, CallsOf(Tools(ops)))
  }

  /** The phase follows from what the deltas have begun. */
  ghost predicate PhaseFollows(st: State, ops: seq<Op>) {
    && (st.phase == MessageInProgress <==> Started(ops))
    && (st.hadReasoning <==> Thinking(ops) != "")
    && st.finish == None
  }

  ghost predicate Tracks(m: Meta, st: State, ops: seq<Op>) {
    LogOk(m, st) && Collected(st.data, ops) && PhaseFollows(st, ops)
  }

  /** Under the index of a call that is not open yet no argument text has arrived. */
  lemma {:induction false} NoArgumentsBeyond(ops: seq<Op>, index: int)
    requires WellFormed(ops) && (index < 0 || |Openings(Tools(ops))| <= index)
    ensures ArgumentsFor(Tools(ops), index) == ""
  {
    if ops == [] {
    } else {
      NoArgumentsBeyond(ops[..|ops| - 1], index);
      if ops[|ops| - 1].Call? {
        ToolsSnoc(ops);
      }
    }
  }

  lemma ToolsSnoc(ops: seq<Op>)
    requires ops != [] && ops[|ops| - 1].Call?
    ensures var before, td := Tools(ops[..|ops| - 1]), ops[|ops| - 1].td;
            && Tools(ops) == before + [td]
            && Openings(Tools(ops)) == (if td.id.Absent? then Openings(before) else Openings(before) + [td])
            && forall index: int ::
                 ArgumentsFor(Tools(ops), index) ==
                 if td.index.GetOr(0) == index then ArgumentsFor(before, index) + td.arguments
                 else ArgumentsFor(before, index)
  {
    var before, td := Tools(ops[..|ops| - 1]), ops[|ops| - 1].td;
    assert (before + [td])[..|before|] == before;
  }

  // ----- One elementary step -----

  lemma OneMoreOp(ops: seq<Op>, op: Op)
    ensures Thinking(ops + [op]) == Thinking(ops) + if op.Think? then op.text else ""
    ensures Said(ops + [op]) == Said(ops) + if op.Say? then op.text else ""
    ensures Annotated(ops + [op]) == Annotated(ops) + if op.Show? then op.anns else []
    ensures Shown(ops + [op]) == Shown(ops) + if op.Show? then op.urls else []
    ensures Tools(ops + [op]) == Tools(ops) + if op.Call? then [op.td] else []
    ensures Started(ops + [op]) == (Started(ops) || Starts(Thinking(ops), op))
    ensures WellFormed(ops + [op]) == (WellFormed(ops) && Fits(ops, op))
  {
    assert (ops + [op])[..|ops|] == ops;
  }

  lemma ThinkTracks(m: Meta, st: State, ops: seq<Op>, text: string)
    requires Tracks(m, st, ops) && Fits(ops, Think(text))
    ensures Tracks(m, OnReasoning(m, st, text), ops + [Think(text)])
  {
    OneMoreOp(ops, Think(text));
    ThinkOk(m, st, text);
  }

  lemma RoleTracks(m: Meta, st: State, ops: seq<Op>, isAssistant: bool)
    requires Tracks(m, st, ops)
    ensures Tracks(m, OnRole(m, st, isAssistant), ops + [Role(isAssistant)])
  {
    OneMoreOp(ops, Role(isAssistant));
    RoleOk(m, st, isAssistant);
  }

  lemma SayTracks(m: Meta, st: State, ops: seq<Op>, text: string)
    requires Tracks(m, st, ops)
    ensures Tracks(m, OnContent(m, st, text), ops + [Say(text)])
  {
    OneMoreOp(ops, Say(text));
    SayOk(m, st, text);
  }

  /** Annotations and images are collected without any event. */
  lemma ShowOk(m: Meta, st: State, op: Op)
    requires LogOk(m, st) && op.Show?
    ensures LogOk(m, Step(m, st, op))
  {
    var st' := Step(m, st, op);
    forall k | 0 <= k < |st.data.calls|
      ensures CallLog(st', st'.data.calls[k])
    {
      assert CallLog(st, st.data.calls[k]);
    }
  }

  lemma ShowTracks(m: Meta, st: State, ops: seq<Op>, op: Op)
    requires Tracks(m, st, ops) && op.Show?
    ensures Tracks(m, Step(m, st, op), ops + [op])
  {
    OneMoreOp(ops, op);
    ShowOk(m, st, op);
    ConvertAppend(Annotated(ops), op.anns);
    PayloadsAppend(Shown(ops), op.urls);
  }

  /** What a tool-call delta that fits makes of the calls collected before. */
  predicate CallsGrow(before: seq<ToolCall>, td: ToolDelta, after: seq<ToolCall>) {
    var n, index := |before|, td.index.GetOr(0);
    && |after| == n + (if td.id.Absent? then 0 else 1)
    && (forall k | 0 <= k < n ::
          after[k] == before[k].(arguments := before[k].arguments + if index == k then td.arguments else ""))
    && (!td.id.Absent? ==> after[n] == ToolCall(IdText(td.id), td.name.GetOr(""), td.arguments))
  }

  lemma CallsOfGrow(ops: seq<Op>, td: ToolDelta)
    requires WellFormed(ops) && ToolFits(|Openings(Tools(ops))|, td)
    ensures CallsGrow(CallsOf(Tools(ops)), td, CallsOf(Tools(ops + [Call(td)])))
  {
    var ops' := ops + [Call(td)];
    assert ops'[..|ops'| - 1] == ops;
    ToolsSnoc(ops');
    NoArgumentsBeyond(ops, |Openings(Tools(ops))|);
    var before, after := CallsOf(Tools(ops)), CallsOf(Tools(ops'));
    assert "" + td.arguments == td.arguments;
    forall k | 0 <= k < |before|
      ensures after[k] ==
              before[k].(arguments := before[k].arguments + if td.index.GetOr(0) == k then td.arguments else "")
    {
      assert before[k].arguments + "" == before[k].arguments;
    }
  }

  predicate ActiveGrow(before: seq<ActiveCall>, td: ToolDelta, after: seq<ActiveCall>) {
    var n, index := |before|, td.index.GetOr(0);
    && |after| == n + (if td.id.Absent? then 0 else 1)
    && (forall k | 0 <= k < n ::
          after[k] == before[k].(arguments := before[k].arguments + if index == k then td.arguments else ""))
    && (!td.id.Absent? ==>
          after[n].callId == IdText(td.id) && after[n].name == td.name.GetOr("") && after[n].arguments == td.arguments)
  }

  /** Opening adds an empty call; extending appends to one. */
  lemma OpenAndExtend(before: seq<ActiveCall>, td: ToolDelta, added: ActiveCall, known: seq<ActiveCall>,
                      after: seq<ActiveCall>)
    requires added.callId == IdText(td.id) && added.name == td.name.GetOr("") && added.arguments == ""
    requires known == if td.id.Absent? then before else before + [added]
    requires ToolFits(|before|, td)
    requires td.arguments == "" ==> after == known
    requires td.arguments != "" ==>
               var k := td.index.GetOr(0);
               after == known[k := known[k].(arguments := known[k].arguments + td.arguments)]
    ensures ActiveGrow(before, td, after)
  {
    assert "" + td.arguments == td.arguments;
    forall k | 0 <= k < |before|
      ensures after[k] ==
              before[k].(arguments := before[k].arguments + if td.index.GetOr(0) == k then td.arguments else "")
    {
      assert before[k].arguments + "" == before[k].arguments;
    }
  }

  lemma ActiveCallsGrow(m: Meta, st: State, td: ToolDelta)
    requires LogOk(m, st) && ToolFits(|st.data.calls|, td)
    ensures ActiveGrow(st.data.calls, td, OnToolDelta(m, st, td).data.calls)
  {
    AfterIdOk(m, st, td);
    ToolIsOpenExtend(m, st, td);
    var id := IdText(td.id);
    var added := ActiveCall(CallIndex(st, td), FunctionCallId(id), id, td.name.GetOr(""), "");
    OpenAndExtend(st.data.calls, td, added, AfterId(m, st, td).data.calls, OnToolDelta(m, st, td).data.calls);
  }

  lemma SameCallsGrow(calls: seq<ActiveCall>, known: seq<ToolCall>, td: ToolDelta, calls': seq<ActiveCall>,
                      known': seq<ToolCall>)
    requires SameCalls(calls, known) && ActiveGrow(calls, td, calls') && CallsGrow(known, td, known')
    ensures SameCalls(calls', known')
  {
  }

  /** The collected calls after a tool-call delta that fits. */
  lemma CallsCollected(m: Meta, st: State, ops: seq<Op>, td: ToolDelta)
    requires SameCalls(st.data.calls, CallsOf(Tools(ops))) && LogOk(m, st)
    requires WellFormed(ops) && ToolFits(|st.data.calls|, td)
    ensures SameCalls(OnToolDelta(m, st, td).data.calls, CallsOf(Tools(ops + [Call(td)])))
  {
    CallsOfGrow(ops, td);
    ActiveCallsGrow(m, st, td);
    SameCallsGrow(st.data.calls, CallsOf(Tools(ops)), td, OnToolDelta(m, st, td).data.calls,
                  CallsOf(Tools(ops + [Call(td)])));
  }

  lemma CallTracks(m: Meta, st: State, ops: seq<Op>, td: ToolDelta)
    requires Tracks(m, st, ops) && WellFormed(ops) && Fits(ops, Call(td))
    ensures Tracks(m, OnToolDelta(m, st, td), ops + [Call(td)])
  {
    OneMoreOp(ops, Call(td));
    ToolOk(m, st, td);
    CallsCollected(m, st, ops, td);
  }

  lemma StepTracks(m: Meta, st: State, ops: seq<Op>, op: Op)
    requires Tracks(m, st, ops) && WellFormed(ops) && Fits(ops, op)
    ensures Tracks(m, Step(m, st, op), ops + [op])
  {
    match op
    case Think(text) => ThinkTracks(m, st, ops, text);
    case Role(isAssistant) => RoleTracks(m, st, ops, isAssistant);
    case Say(text) => SayTracks(m, st, ops, text);
    case Show(_, _) => ShowTracks(m, st, ops, op);
    case Call(td) => CallTracks(m, st, ops, td);
  }

  lemma FreshTracks(m: Meta)
    ensures Tracks(m, FRESH, [])
  {
  }

  lemma {:induction false} WellFormedPrefix(a: seq<Op>, b: seq<Op>)
    requires WellFormed(a + b)
    ensures WellFormed(a)
    decreases |b|
  {
    if b == [] {
      assert a + b == a;
    } else {
      assert (a + b)[..|a + b| - 1] == a + b[..|b| - 1];
      WellFormedPrefix(a, b[..|b| - 1]);
    }
  }

  /** Tracking goes on through any further steps that fit. */
  lemma {:induction false} StepsTrack(m: Meta, st: State, ops: seq<Op>, more: seq<Op>)
    requires Tracks(m, st, ops) && WellFormed(ops + more)
    ensures Tracks(m, Steps(m, st, more), ops + more)
    decreases |more|
  {
    if more == [] {
      assert ops + more == ops;
    } else {
      var init, op := more[..|more| - 1], more[|more| - 1];
      assert ops + init + [op] == ops + more;
      OneMoreOp(ops + init, op);
      StepsTrack(m, st, ops, init);
      StepTracks(m, Steps(m, st, init), ops + init, op);
    }
  }

  /** Only the identifier matters to what has been emitted so far. */
  lemma TracksOn(m: Meta, m': Meta, st: State, ops: seq<Op>)
    requires Tracks(m, st, ops) && m.chunkId == m'.chunkId
    ensures Tracks(m', st, ops)
  {
    assert st.hadReasoning ==> ReasoningLog(m', st);
    assert st.phase == MessageInProgress ==> MessageLog(m', st);
  }
}
