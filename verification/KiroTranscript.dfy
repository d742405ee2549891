/** The text of every entry of a payload, read off the runs of messages. */
module KiroTranscript {
  import opened Text
  import opened KiroModel
  import opened KiroPasses
  import opened KiroPayload
  import opened KiroOrder

  // ----- What the entries say -----

  /** Who speaks, and the text. */
  datatype Line = Line(role: Role, text: string)

  function LineOf(e: Entry): Line {
    Line(if e.UserEntry? then User else Assistant, e.content)
  }

  function Lines(entries: seq<Entry>): seq<Line> {
    seq(|entries|, k requires 0 <= k < |entries| => LineOf(entries[k]))
  }

  // ----- What is said in the messages -----

  /** A run of messages of one role, its texts joined by newlines. */
  function Turns(ms: seq<Message>): seq<Line> {
    var runs := Runs(ms);
    seq(|runs|, k requires 0 <= k < |runs| => if runs[k] == [] then Line(User, "")
                                               else Line(runs[k][0].role, Join(Texts(runs[k]), "\n")))
  }

  predicate SomeUser(turns: seq<Line>) {
    exists k :: 0 <= k < |turns| && turns[k].role == User
  }

  /** Of users and assistants, a user was the last to speak. */
  predicate UserSpoke(turns: seq<Line>) {
    turns != [] &&
    match turns[|turns| - 1].role
    case User => true
    case Assistant => false
    case Other(_) => UserSpoke(turns[..|turns| - 1])
  }

  /** The system prompt goes before the text of the first user, and of whoever speaks last when there is no user before. */
  function Led(prompt: string, turns: seq<Line>, text: string): string {
    if prompt == "" || SomeUser(turns) then text else prompt + "\n\n" + text
  }

  /** What a turn adds to a history: an assistant who does not answer a user is given a user to answer. */
  function Told(prompt: string, before: seq<Line>, turn: Line): seq<Line> {
    match turn.role
    case User =>
      var text := Led(prompt, before, turn.text);
      [Line(User, if text == "" then "(empty)" else text)]
    case Assistant =>
      (if UserSpoke(before) then [] else [Line(User, "(continued)")])
      + [Line(Assistant, if turn.text == "" then "(empty)" else turn.text)]
    case Other(_) => []
  }

  function AllTold(prompt: string, turns: seq<Line>): seq<Line> {
    if turns == [] then []
    else AllTold(prompt, turns[..|turns| - 1]) + Told(prompt, turns[..|turns| - 1], turns[|turns| - 1])
  }

  /** The last turn: a question, or an answer with a request to continue. */
  function Asking(prompt: string, thinking: string, before: seq<Line>, turn: Line): seq<Line> {
    var text := Led(prompt, before, turn.text);
    match turn.role
    case User => [Line(User, thinking + if text == "" then "Continue" else text)]
    case Assistant => [Line(User, "(continued)"), Line(Assistant, text), Line(User, "Continue")]
    case Other(_) => [Line(User, if text == "" then "Continue" else text)]
  }

  function Transcript(prompt: string, thinking: string, turns: seq<Line>): seq<Line>
    requires turns != []
  {
    var before := turns[..|turns| - 1];
    AllTold(prompt, before) + Asking(prompt, thinking, before, turns[|turns| - 1])
  }

  // ----- Proof -----

  /** Merged messages as turns. */
  function AsTurns(ms: seq<Message>): seq<Line> {
    seq(|ms|, k requires 0 <= k < |ms| => Line(ms[k].role, TextOf(ms[k].content)))
  }

  lemma {:induction false} MergedAreTurns(ms: seq<Message>)
    ensures AsTurns(Merged(ms)) == Turns(ms)
  {
    RunsJoinTexts(ms);
    forall k | 0 <= k < |Runs(ms)|
      ensures AsTurns(Merged(ms))[k] == Turns(ms)[k]
    {
      assert IsMergeOf(Merged(ms)[k], Runs(ms)[k]);
      assert Runs(ms)[k][0].role == Merged(ms)[k].role;
    }
  }

  lemma FirstUserIsSome(ms: seq<Message>)
    ensures FirstUser(ms).Some? <==> SomeUser(AsTurns(ms))
  {
    if FirstUser(ms).Some? {
      assert AsTurns(ms)[FirstUser(ms).value].role == User;
    }
  }

  lemma LinesSnoc(entries: seq<Entry>, e: Entry)
    ensures Lines(entries + [e]) == Lines(entries) + [LineOf(e)]
  {
  }

  predicate EndsInUser(entries: seq<Entry>) {
    entries != [] && entries[|entries| - 1].UserEntry?
  }

  lemma {:induction false} ExtendedLines(canon: string -> string, before: seq<Entry>, m: Message)
    ensures Lines(Extended(canon, before, m)) ==
            Lines(before)
            + (match m.role
               case User => [Line(User, OrPlaceholder(TextOf(m.content), "(empty)"))]
               case Assistant =>
                 (if EndsInUser(before) then [] else [Line(User, "(continued)")])
                 + [Line(Assistant, OrPlaceholder(TextOf(m.content), "(empty)"))]
               case Other(_) => [])
    ensures EndsInUser(Extended(canon, before, m)) <==> m.role == User || (m.role.Other? && EndsInUser(before))
  {
    assert Lines(before) + [] == Lines(before);
    match m.role
    case User => LinesSnoc(before, UserInput(m));
    case Assistant =>
      var e := AssistantResponse(canon, m);
      LinesSnoc(before, e);
      LinesSnoc(before, SYNTHETIC);
      LinesSnoc(before + [SYNTHETIC], e);
      assert [] + [LineOf(e)] == [LineOf(e)];
      Associates(Lines(before), [LineOf(SYNTHETIC)], [LineOf(e)]);
    case Other(_) =>
  }

  /** Entries that say what the messages of a history do. */
  predicate Tells(prompt: string, entries: seq<Entry>, ms: seq<Message>) {
    Lines(entries) == AllTold(prompt, AsTurns(ms)) && (EndsInUser(entries) <==> UserSpoke(AsTurns(ms)))
  }

  lemma ToldOf(prompt: string, ms: seq<Message>, m: Message)
    ensures var text := TextOf(PromptedMessage(prompt, ms, m).content);
            && (m.role == User ==> text == Led(prompt, AsTurns(ms), TextOf(m.content)))
            && (m.role != User ==> text == TextOf(m.content))
  {
    FirstUserIsSome(ms);
  }

  lemma TurnsSnoc(prompt: string, ms: seq<Message>, m: Message)
    ensures var turns, turn := AsTurns(ms), Line(m.role, TextOf(m.content));
            && AsTurns(ms + [m]) == turns + [turn]
            && AllTold(prompt, turns + [turn]) == AllTold(prompt, turns) + Told(prompt, turns, turn)
            && (UserSpoke(turns + [turn]) <==> m.role == User || (m.role.Other? && UserSpoke(turns)))
  {
    var turns, turn := AsTurns(ms), Line(m.role, TextOf(m.content));
    assert AsTurns(ms + [m]) == turns + [turn];
    assert (turns + [turn])[..|turns|] == turns;
  }

  lemma {:induction false} OneMoreTells(canon: string -> string, prompt: string, entries: seq<Entry>, ms: seq<Message>,
                                        m: Message)
    requires Tells(prompt, entries, ms)
    ensures Tells(prompt, Extended(canon, entries, PromptedMessage(prompt, ms, m)), ms + [m])
  {
    ToldOf(prompt, ms, m);
    TurnsSnoc(prompt, ms, m);
    ExtendedLines(canon, entries, PromptedMessage(prompt, ms, m));
  }

  lemma {:induction false} HistoryTells(canon: string -> string, prompt: string, ms: seq<Message>)
    ensures Tells(prompt, History(canon, Prompted(prompt, ms)), ms)
  {
    if ms == [] {
    } else {
      var init, m := ms[..|ms| - 1], ms[|ms| - 1];
      HistoryTells(canon, prompt, init);
      OneMoreTells(canon, prompt, History(canon, Prompted(prompt, init)), init, m);
      HistoryExtends(canon, prompt, init, m);
      assert init + [m] == ms;
    }
  }

  lemma {:induction false} EndTells(canon: string -> string, prompt: string, thinking: string, ms: seq<Message>)
    requires ms != []
    ensures var init, last := ms[..|ms| - 1], ms[|ms| - 1];
            Lines(Entries(PayloadOf(canon, prompt, thinking, ms))) ==
            Lines(History(canon, Prompted(prompt, init)))
            + Asking(prompt, thinking, AsTurns(init), Line(last.role, TextOf(last.content)))
  {
    var init, last := ms[..|ms| - 1], ms[|ms| - 1];
    FirstUserIsSome(init);
    assert LastText(prompt, ms) == Led(prompt, AsTurns(init), TextOf(last.content));
  }

  lemma {:induction false} MergedTells(canon: string -> string, prompt: string, thinking: string, ms: seq<Message>)
    requires ms != []
    ensures AsTurns(ms) != []
    ensures Lines(Entries(PayloadOf(canon, prompt, thinking, ms))) == Transcript(prompt, thinking, AsTurns(ms))
  {
    var init := ms[..|ms| - 1];
    HistoryTells(canon, prompt, init);
    EndTells(canon, prompt, thinking, ms);
    assert AsTurns(ms)[..|ms| - 1] == AsTurns(init);
  }

  /**
   * For all messages as they come out of the first pass: the entries say, in order, what the runs of messages say,
   * with a user put before an assistant who does not answer one, placeholders for empty texts, the system prompt
   * before the first text of a user, and the thinking prefix before the last.
   */
  lemma {:induction false} PayloadIsTranscript(canon: string -> string, prompt: string, thinking: string, ms: seq<Message>)
    requires ms != []
    ensures Merged(ms) != [] && Turns(ms) != []
    ensures Lines(Entries(PayloadOf(canon, prompt, thinking, Merged(ms)))) == Transcript(prompt, thinking, Turns(ms))
  {
    MergingAlternates(ms);
    MergedAreTurns(ms);
    MergedTells(canon, prompt, thinking, Merged(ms));
  }

  // ----- The system prompt and its additions -----

  lemma {:induction false} AdditionsFollow(prompt: string, additions: seq<string>)
    requires prompt != ""
    ensures FullPrompt(prompt, additions) == prompt + Concat(additions)
  {
    if additions == [] {
    } else {
      var init, last := additions[..|additions| - 1], additions[|additions| - 1];
      AdditionsFollow(prompt, init);
      assert init + [last] == additions;
      ConcatSnoc(init, last);
    }
  }

  /** Without a system prompt, the first addition that is not blank stands alone, trimmed, and the rest follow it. */
  lemma {:induction false} AdditionsAlone(additions: seq<string>, k: nat)
    requires k < |additions| && Trim(additions[k]) != ""
    requires forall j | 0 <= j < k :: Trim(additions[j]) == ""
    ensures FullPrompt("", additions) == Trim(additions[k]) + Concat(additions[k + 1..])
  {
    var init, last := additions[..|additions| - 1], additions[|additions| - 1];
    if k == |additions| - 1 {
      BlankAdditions(init);
      assert Trim(last) + "" == Trim(last);
    } else {
      AdditionsAlone(init, k);
      assert additions[k + 1..] == init[k + 1..] + [last];
      ConcatSnoc(init[k + 1..], last);
    }
  }

  lemma {:induction false} BlankAdditions(additions: seq<string>)
    requires forall j | 0 <= j < |additions| :: Trim(additions[j]) == ""
    ensures FullPrompt("", additions) == ""
  {
    if additions == [] {
    } else {
      BlankAdditions(additions[..|additions| - 1]);
    }
  }
}
