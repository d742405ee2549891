/** How the log of a stream begins, whatever the stream. */
module StreamBeginnings {
  import opened Wrappers
  import opened ResponsesModel
  import opened StreamSteps
  import opened StreamSpec
  import opened StreamTracking
  import opened StreamRuns
  import opened StreamTheorems

  /** A step that sends something when nothing has been sent before. */
  predicate Sends(op: Op) {
    match op
    case Think(text) => text != ""
    case Role(isAssistant) => isAssistant
    case Say(text) => text != ""
    case Show(_, _) => false
    case Call(td) => !td.id.Absent? || td.arguments != ""
  }

  /** Arguments without an identifier, which open no call. */
  predicate IsLoose(op: Op) {
    op.Call? && op.td.id.Absent? && op.td.arguments != ""
  }

  function FirstSending(ops: seq<Op>): Option<Op> {
    if ops == [] then None
    else
      var before, last := FirstSending(ops[..|ops| - 1]), ops[|ops| - 1];
      if before.Some? then before else if Sends(last) then Some(last) else None
  }

  /** With nothing, with the created response, or with arguments of no call. */
  datatype Beginning = Silence | Announcement | LooseArguments

  function BeginningWith(c: Choice): Beginning {
    match FirstSending(Transcript([c]))
    case Some(op) => if IsLoose(op) then LooseArguments else Announcement
    case None => if FinishOf(c).Some? then Announcement else Silence
  }

  /** What the first choice that sends anything begins with; one that finishes announces the response. */
  function BeginningOf(cs: seq<Choice>): Beginning {
    if cs == [] then Silence
    else
      var before := BeginningOf(cs[..|cs| - 1]);
      if before != Silence then before else BeginningWith(cs[|cs| - 1])
  }

  /** A log that begins with the created response and then reports it in progress. */
  predicate Announces(log: seq<Event>) {
    |log| >= 2 && log[0].Created? && log[1] == InProgress(log[0].response)
  }

  predicate StartsLoose(log: seq<Event>) {
    log != [] && log[0].ArgumentsDelta? && log[0].callId == ""
  }

  predicate Begins(b: Beginning, st: State) {
    match b
    case Silence => st.log == [] && st.phase == NotStarted && st.data.calls == []
    case Announcement => Announces(st.log)
    case LooseArguments => StartsLoose(st.log)
  }

  lemma BeginsStays(b: Beginning, st: State, st': State)
    requires Begins(b, st) && b != Silence && st.log <= st'.log
    ensures Begins(b, st')
  {
  }

  lemma StepExtendsLog(m: Meta, st: State, op: Op)
    ensures st.log <= Step(m, st, op).log
  {
  }

  /** The first step that sends decides. */
  lemma StepBegins(m: Meta, st: State, op: Op)
    requires Begins(Silence, st)
    ensures Begins(if !Sends(op) then Silence else if IsLoose(op) then LooseArguments else Announcement, Step(m, st, op))
  {
    assert [] + InitialEvents(m, st) == InitialEvents(m, st);
    if op.Call? && op.td.id.Absent? {
      assert CallsAfter(st, op.td) == [];
    }
  }

  lemma {:induction false} StepsBegin(m: Meta, st: State, ops: seq<Op>)
    requires Begins(Silence, st)
    ensures match FirstSending(ops)
            case None => Begins(Silence, Steps(m, st, ops))
            case Some(op) => Begins(if IsLoose(op) then LooseArguments else Announcement, Steps(m, st, ops))
  {
    if ops == [] {
    } else {
      var init, last := ops[..|ops| - 1], ops[|ops| - 1];
      StepsBegin(m, st, init);
      if FirstSending(init).Some? {
        StepExtendsLog(m, Steps(m, st, init), last);
      } else {
        StepBegins(m, Steps(m, st, init), last);
      }
    }
  }

  lemma CompleteExtendsLog(m: Meta, st: State, status: Status, usage: Option<Json>)
    ensures st.log <= Complete(m, st, status, usage).log
    ensures Begins(Silence, st) ==> Announces(Complete(m, st, status, usage).log)
  {
  }

  lemma ChoiceBegins(m: Meta, st: State, c: Choice, usage: Option<Json>)
    requires Begins(Silence, st)
    ensures Begins(BeginningWith(c), OnChoice(m, st, c, usage))
  {
    OneChoice(m, st, c);
    var a := Steps(m, st, Transcript([c]));
    StepsBegin(m, st, Transcript([c]));
    if FinishOf(c).Some? {
      CompleteExtendsLog(m, a.(finish := FinishOf(c)), StatusOf(FinishOf(c).value), usage);
    }
  }

  lemma NextBegins(m: Meta, st: State, b: Beginning, c: Choice, usage: Option<Json>)
    requires Begins(b, st)
    ensures Begins(if b != Silence then b else BeginningWith(c), OnChoice(m, st, c, usage))
  {
    if b == Silence {
      ChoiceBegins(m, st, c, usage);
    } else {
      ChoiceExtendsLog(m, st, c, usage);
      BeginsStays(b, st, OnChoice(m, st, c, usage));
    }
  }

  lemma BeginningSnoc(cs: seq<Choice>, c: Choice)
    ensures BeginningOf(cs + [c]) == if BeginningOf(cs) != Silence then BeginningOf(cs) else BeginningWith(c)
  {
    assert (cs + [c])[..|cs|] == cs;
  }

  lemma {:induction false} ChoicesBegin(m: Meta, st: State, before: seq<Choice>, cs: seq<Choice>, usage: Option<Json>)
    requires Begins(BeginningOf(before), st)
    ensures Begins(BeginningOf(before + cs), OnChoices(m, st, cs, usage))
  {
    if cs == [] {
      assert before + cs == before;
    } else {
      var init, c := cs[..|cs| - 1], cs[|cs| - 1];
      ChoicesBegin(m, st, before, init, usage);
      NextBegins(m, OnChoices(m, st, init, usage), BeginningOf(before + init), c, usage);
      BeginningSnoc(before + init, c);
      assert before + init + [c] == before + cs;
    }
  }

  lemma {:induction false} RunBegins(m: Meta, chunks: seq<Chunk>)
    ensures Begins(BeginningOf(Choices(chunks)), Run(m, FRESH, chunks).1)
  {
    if chunks == [] {
    } else {
      var init, last := chunks[..|chunks| - 1], chunks[|chunks| - 1];
      RunBegins(m, init);
      ChoicesBegin(Learn(Run(m, FRESH, init).0, last), Run(m, FRESH, init).1, Choices(init), last.choices, last.usage);
    }
  }

  /**
   * On every stream the log is empty, or begins with the created response and its progress, exactly when the first
   * choice to send anything does not begin with arguments of no call; else it begins with those, and a response that
   * is created later comes behind them.
   */
  lemma StreamBegins(responseId: string, model: string, chunks: seq<Chunk>)
    ensures var log, b := Relayed(responseId, model, chunks), BeginningOf(Choices(chunks));
            && (log == [] <==> b == Silence) && (Announces(log) <==> b == Announcement)
            && (StartsLoose(log) <==> b == LooseArguments)
  {
    var m := Initially(responseId, model);
    var (m', st) := Run(m, FRESH, chunks);
    RunBegins(m, chunks);
    if st.phase != NotStarted && st.phase != Finished {
      CompleteExtendsLog(m', if st.finish.None? then st.(finish := Some(Length)) else st, Incomplete, None);
    }
  }
}
