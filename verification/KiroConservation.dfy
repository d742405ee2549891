/** What is in a conversation arrives: all texts, and without tools every call and result as text and no tool data. */
module KiroConservation {
  import opened Text
  import opened Embedding
  import opened KiroModel
  import opened KiroPasses
  import opened KiroPayload
  import opened KiroOrder
  import opened KiroArrival

  // ----- What a message holds -----

  /** The texts of a content, block by block; empty ones are nothing. */
  function TextPieces(c: Content): seq<string> {
    match c
    case Text(text) => Lone(text)
    case Blocks(blocks) => BlocksPieces(blocks)
  }

  function BlocksPieces(blocks: seq<Block>): seq<string> {
    if blocks == [] then []
    else
      BlocksPieces(blocks[..|blocks| - 1])
      + match blocks[|blocks| - 1]
        case TextBlock(text) => Lone(text)
        case ToolResultBlock(_, text) => Lone(text)
        case _ => []
  }

  /** Name, identifier if it has one, and arguments. */
  function CallSays(c: ToolCall): seq<string> {
    [c.name] + Lone(c.id) + [c.arguments]
  }

  /** Identifier if it has one, and text or placeholder. */
  function ResultSays(r: ToolResult): seq<string> {
    Lone(r.toolUseId) + [if r.content == "" then "(empty result)" else r.content]
  }

  function CallPieces(calls: seq<ToolCall>): seq<seq<string>> {
    seq(|calls|, k requires 0 <= k < |calls| => CallSays(calls[k]))
  }

  function ResultPieces(results: seq<ToolResult>): seq<seq<string>> {
    seq(|results|, k requires 0 <= k < |results| => ResultSays(results[k]))
  }

  /** The texts of a user or assistant, and what each of its calls and results says. */
  function Pieces(m: Message): seq<string> {
    if m.role.Other? then []
    else
      TextPieces(m.content) + Flat(CallPieces(m.toolCalls.GetOr([]))) + Flat(ResultPieces(m.toolResults.GetOr([])))
  }

  function AllPieces(ms: seq<Message>): seq<string> {
    if ms == [] then [] else AllPieces(ms[..|ms| - 1]) + Pieces(ms[|ms| - 1])
  }

  function SpokenTexts(m: Message): seq<string> {
    if m.role.Other? then [] else TextPieces(m.content)
  }

  function AllTexts(ms: seq<Message>): seq<string> {
    if ms == [] then [] else AllTexts(ms[..|ms| - 1]) + SpokenTexts(ms[|ms| - 1])
  }

  lemma LoneText(text: string)
    ensures Lone(text) == Part(text) && Concat(Lone(text)) == text
  {
    if text != "" {
      assert Concat([text]) == text + Concat([]) == text;
    }
  }

  lemma NoPieces()
    ensures Flat(CallPieces([])) == [] && Flat(ResultPieces([])) == []
  {
  }

  lemma ResultPiecesSnoc(results: seq<ToolResult>, r: ToolResult)
    ensures Flat(ResultPieces(results + [r])) == Flat(ResultPieces(results)) + ResultSays(r)
  {
    assert ResultPieces(results + [r]) == ResultPieces(results) + [ResultSays(r)];
    FlatSnoc(ResultPieces(results), ResultSays(r));
  }

  // ----- As text -----

  lemma LoneIsEmbedded(text: string)
    ensures Embeds(Lone(text), text)
  {
    EmbedsSelf(text);
  }

  lemma {:induction false} BlocksEmbed(blocks: seq<Block>)
    ensures Embeds(BlocksPieces(blocks), BlocksText(blocks))
  {
    if blocks == [] {
    } else {
      var init, b := blocks[..|blocks| - 1], blocks[|blocks| - 1];
      BlocksEmbed(init);
      LoneIsEmbedded(BlockText(b));
      var last := match b case TextBlock(text) => Lone(text) case ToolResultBlock(_, text) => Lone(text) case _ => [];
      EmbedsConcat(BlocksPieces(init), BlocksText(init), last, BlockText(b));
    }
  }

  lemma TextsEmbed(c: Content)
    ensures Embeds(TextPieces(c), TextOf(c)) && (TextOf(c) == "" ==> TextPieces(c) == [])
  {
    match c
    case Text(text) => LoneIsEmbedded(text);
    case Blocks(blocks) =>
      BlocksEmbed(blocks);
      if BlocksText(blocks) == "" {
        NoTextNoPieces(blocks);
      }
  }

  lemma {:induction false} NoTextNoPieces(blocks: seq<Block>)
    requires BlocksText(blocks) == ""
    ensures BlocksPieces(blocks) == []
  {
    if blocks == [] {
    } else {
      NoTextNoPieces(blocks[..|blocks| - 1]);
    }
  }

  /** A piece between two texts carries it, and nothing when it is empty. */
  lemma LoneWithin(before: string, text: string, after: string)
    ensures Embeds(Lone(text), before + text + after)
  {
    LoneIsEmbedded(text);
    EmbedsWithin(Lone(text), before, text, after);
  }

  lemma CallEmbeds(c: ToolCall)
    ensures Embeds(CallSays(c), CallText(c))
  {
    var named, identified := "[Tool: " + c.name, if c.id == "" then "]\n" else " (" + c.id + ")]\n";
    EmbedsSelf(c.name);
    EmbedsWithin([c.name], "[Tool: ", c.name, "");
    assert named + "" == named;
    if c.id == "" {
      EmbedsWithin([], identified, "", "");
      assert identified + "" + "" == identified;
    } else {
      LoneWithin(" (", c.id, ")]\n");
    }
    EmbedsConcat([c.name], named, Lone(c.id), identified);
    EmbedsSelf(c.arguments);
    EmbedsConcat([c.name] + Lone(c.id), named + identified, [c.arguments], c.arguments);
  }

  lemma HeaderEmbeds(id: string)
    ensures Embeds(Lone(id), if id == "" then "[Tool Result]\n" else "[Tool Result (" + id + ")]\n")
  {
    if id == "" {
      EmbedsWithin([], "[Tool Result]\n", "", "");
      assert "[Tool Result]\n" + "" + "" == "[Tool Result]\n";
    } else {
      LoneWithin("[Tool Result (", id, ")]\n");
    }
  }

  lemma ResultEmbeds(r: ToolResult)
    ensures Embeds(ResultSays(r), ResultText(r))
  {
    var content := OrPlaceholder(r.content, EMPTY_RESULT);
    HeaderEmbeds(r.toolUseId);
    EmbedsSelf(content);
    EmbedsConcat(Lone(r.toolUseId), if r.toolUseId == "" then "[Tool Result]\n" else "[Tool Result (" + r.toolUseId + ")]\n",
                 [content], content);
  }

  lemma CallsEmbed(calls: seq<ToolCall>)
    ensures Embeds(Flat(CallPieces(calls)), CallsText(calls))
  {
    var texts := seq(|calls|, k requires 0 <= k < |calls| => CallText(calls[k]));
    forall k | 0 <= k < |calls|
      ensures Embeds(CallPieces(calls)[k], texts[k])
    {
      CallEmbeds(calls[k]);
    }
    JoinEmbeds(CallPieces(calls), texts, "\n\n");
  }

  lemma ResultsEmbed(results: seq<ToolResult>)
    ensures Embeds(Flat(ResultPieces(results)), ResultsText(results))
  {
    var texts := seq(|results|, k requires 0 <= k < |results| => ResultText(results[k]));
    forall k | 0 <= k < |results|
      ensures Embeds(ResultPieces(results)[k], texts[k])
    {
      ResultEmbeds(results[k]);
    }
    JoinEmbeds(ResultPieces(results), texts, "\n\n");
  }

  /** A part that is left out when it is empty still carries its pieces. */
  lemma PartEmbeds(groups: seq<seq<string>>, texts: seq<string>, pieces: seq<string>, text: string)
    returns (groups': seq<seq<string>>)
    requires AllEmbed(groups, texts) && Embeds(pieces, text) && (text == "" ==> pieces == [])
    ensures AllEmbed(groups', texts + Part(text)) && Flat(groups') == Flat(groups) + pieces
  {
    if text == "" {
      assert texts + [] == texts && Flat(groups) + [] == Flat(groups);
      groups' := groups;
    } else {
      FlatSnoc(groups, pieces);
      groups' := groups + [pieces];
    }
  }

  lemma {:induction false} TextsNonempty(calls: seq<ToolCall>, results: seq<ToolResult>)
    ensures CallsText(calls) == "" ==> calls == []
    ensures ResultsText(results) == "" ==> results == []
  {
  }

  lemma PartsEmbed(a: string, texts: seq<string>, x: string, xs: seq<string>, y: string, ys: seq<string>)
    requires Embeds(texts, a) && (a == "" ==> texts == [])
    requires Embeds(xs, x) && (x == "" ==> xs == []) && Embeds(ys, y) && (y == "" ==> ys == [])
    ensures Embeds(texts + xs + ys, Join(Part(a) + Part(x) + Part(y), "\n\n"))
  {
    var groups := PartEmbeds([], [], texts, a);
    assert [] + Part(a) == Part(a) && [] + texts == texts;
    groups := PartEmbeds(groups, Part(a), xs, x);
    groups := PartEmbeds(groups, Part(a) + Part(x), ys, y);
    JoinEmbeds(groups, Part(a) + Part(x) + Part(y), "\n\n");
  }

  lemma StrippedTextEmbeds(m: Message)
    requires (HasCalls(m) || HasResults(m)) && !m.role.Other?
    ensures Embeds(Pieces(m), StrippedText(m))
  {
    var calls, results := m.toolCalls.GetOr([]), m.toolResults.GetOr([]);
    TextsEmbed(m.content);
    CallsEmbed(calls);
    ResultsEmbed(results);
    TextsNonempty(calls, results);
    PartsEmbed(TextOf(m.content), TextPieces(m.content), CallsText(calls), Flat(CallPieces(calls)),
               ResultsText(results), Flat(ResultPieces(results)));
  }

  /** Stripping turns every call and result of a message into text of the message, behind the texts it has. */
  lemma StrippingEmbeds(m: Message)
    ensures Embeds(Pieces(m), TextOf(Stripped(m).content))
  {
    if m.role.Other? {
    } else if HasCalls(m) || HasResults(m) {
      StrippedTextEmbeds(m);
    } else {
      TextsEmbed(m.content);
      BarePieces(m);
    }
  }

  lemma BarePieces(m: Message)
    requires !HasCalls(m) && !HasResults(m) && !m.role.Other?
    ensures Pieces(m) == TextPieces(m.content)
  {
    NoPieces();
    assert TextPieces(m.content) + [] + [] == TextPieces(m.content);
  }

  // ----- In the payload -----

  function PiecesOf(ms: seq<Message>): seq<seq<string>> {
    seq(|ms|, k requires 0 <= k < |ms| => Pieces(ms[k]))
  }

  function TextsOf(ms: seq<Message>): seq<seq<string>> {
    seq(|ms|, k requires 0 <= k < |ms| => SpokenTexts(ms[k]))
  }

  lemma {:induction false} AllOfThem(ms: seq<Message>)
    ensures Flat(PiecesOf(ms)) == AllPieces(ms)
  {
    if ms == [] {
    } else {
      var init := ms[..|ms| - 1];
      AllOfThem(init);
      assert PiecesOf(ms) == PiecesOf(init) + [Pieces(ms[|ms| - 1])];
      FlatSnoc(PiecesOf(init), Pieces(ms[|ms| - 1]));
    }
  }

  lemma {:induction false} AllOfTheTexts(ms: seq<Message>)
    ensures Flat(TextsOf(ms)) == AllTexts(ms)
  {
    if ms == [] {
    } else {
      var init := ms[..|ms| - 1];
      AllOfTheTexts(init);
      assert TextsOf(ms) == TextsOf(init) + [SpokenTexts(ms[|ms| - 1])];
      FlatSnoc(TextsOf(init), SpokenTexts(ms[|ms| - 1]));
    }
  }

  /**
   * Without tools, the texts, the name, identifier and arguments of every call and the identifier and text of every
   * result (or its placeholder) of all users and assistants occur in the entries of the payload, in the order of the
   * conversation: `placed` says which pieces are in which entry.
   */
  lemma {:induction false} NothingIsLost(canon: string -> string, prompt: string, thinking: string, ms: seq<Message>)
    returns (placed: seq<seq<string>>)
    requires ms != []
    ensures Merged(StrippedAll(ms)) != [] && Flat(placed) == AllPieces(ms)
    ensures AllEmbed(placed, Contents(Entries(PayloadOf(canon, prompt, thinking, Merged(StrippedAll(ms))))))
  {
    forall k | 0 <= k < |ms|
      ensures Embeds(PiecesOf(ms)[k], Texts(StrippedAll(ms))[k])
    {
      StrippingEmbeds(ms[k]);
    }
    AllOfThem(ms);
    placed := PiecesArrive(canon, prompt, thinking, StrippedAll(ms), PiecesOf(ms));
  }

  /** With tools, the texts of all users and assistants occur in the entries of the payload, in order. */
  lemma {:induction false} TextsArrive(canon: string -> string, prompt: string, thinking: string, ms: seq<Message>)
    returns (placed: seq<seq<string>>)
    requires ms != []
    ensures Merged(Ensured(ms)) != [] && Flat(placed) == AllTexts(ms)
    ensures AllEmbed(placed, Contents(Entries(PayloadOf(canon, prompt, thinking, Merged(Ensured(ms))))))
  {
    forall k | 0 <= k < |ms|
      ensures Embeds(TextsOf(ms)[k], Texts(Ensured(ms))[k]) && Ensured(ms)[k].role == ms[k].role
    {
      EnsuredAt(ms, k);
      TextsEmbed(ms[k].content);
    }
    AllOfTheTexts(ms);
    placed := PiecesArrive(canon, prompt, thinking, Ensured(ms), TextsOf(ms));
  }

  // ----- No tool data -----

  predicate Quiet(m: Message) {
    && !HasCalls(m) && !HasResults(m)
    && (m.role == User ==> !HasResultBlock(m.content))
    && (m.role == Assistant ==> !HasUseBlock(m.content))
  }

  predicate AllQuiet(ms: seq<Message>) {
    forall k | 0 <= k < |ms| :: Quiet(ms[k])
  }

  predicate HasToolData(e: Entry) {
    match e
    case UserEntry(_, toolResults) => toolResults != []
    case AssistantEntry(_, toolUses) => toolUses != map[]
  }

  predicate NoToolData(entries: seq<Entry>) {
    forall k | 0 <= k < |entries| :: !HasToolData(entries[k])
  }

  /** A last message that is not of a user, alone, with results in its content that nothing has listed. */
  predicate Stray(ms: seq<Message>)
    requires ms != []
  {
    var last := ms[|ms| - 1];
    && last.role != User && HasResultBlock(last.content) && !HasCalls(last) && !HasResults(last)
    && last.toolResults.None? && Alone(ms, |ms| - 1)
  }

  lemma QuietResults(m: Message)
    requires Quiet(m)
    ensures ResultsFor(m) != [] <==> m.toolResults.None? && HasResultBlock(m.content)
  {
    if m.content.Blocks? {
      BlockResultsExist(m.content.blocks);
    }
  }

  lemma QuietUses(canon: string -> string, m: Message)
    requires Quiet(m) && m.role == Assistant
    ensures UsesOf(canon, m) == []
  {
    if m.content.Blocks? {
      NoBlockUses(m.content.blocks);
    }
  }

  lemma {:induction false} MergingStaysQuiet(ms: seq<Message>)
    requires AllQuiet(ms)
    ensures AllQuiet(Merged(ms))
  {
    if ms == [] {
    } else {
      var init := ms[..|ms| - 1];
      assert forall k | 0 <= k < |init| :: init[k] == ms[k];
      MergingStaysQuiet(init);
    }
  }

  lemma {:induction false} QuietHistory(canon: string -> string, ms: seq<Message>)
    requires AllQuiet(ms)
    ensures NoToolData(History(canon, ms))
  {
    if ms == [] {
    } else {
      var init, m := ms[..|ms| - 1], ms[|ms| - 1];
      assert forall k | 0 <= k < |init| :: init[k] == ms[k];
      QuietHistory(canon, init);
      QuietResults(m);
      if m.role == Assistant {
        QuietUses(canon, m);
      }
    }
  }

  lemma QuietPrompted(prompt: string, ms: seq<Message>)
    requires AllQuiet(ms)
    ensures AllQuiet(Prompted(prompt, ms))
  {
  }

  lemma LastMerged(ms: seq<Message>)
    requires ms != []
    ensures var merged, last := Merged(ms), ms[|ms| - 1];
            && merged != [] && merged[|merged| - 1].role == last.role
            && (|ms| > 1 && ms[|ms| - 2].role == last.role ==> merged[|merged| - 1].content.Text?)
            && (|ms| == 1 || ms[|ms| - 2].role != last.role ==> merged[|merged| - 1] == last)
  {
    MergingAlternates(ms[..|ms| - 1]);
    MergingAlternates(ms);
  }

  /**
   * Without tools no entry of the payload has tool results or tool uses, except when the conversation ends with a
   * stray result in a message that is not of a user.
   */
  lemma {:induction false} NoToolDataWithoutTools(canon: string -> string, prompt: string, thinking: string,
                                                  ms: seq<Message>)
    requires ms != [] && forall k | 0 <= k < |ms| :: Listed(ms[k])
    ensures Merged(StrippedAll(ms)) != []
    ensures NoToolData(Entries(PayloadOf(canon, prompt, thinking, Merged(StrippedAll(ms))))) <==> !Stray(ms)
  {
    var stripped := StrippedAll(ms);
    MergingAlternates(stripped);
    MergingStaysQuiet(stripped);
    QuietPayload(canon, prompt, thinking, Merged(stripped));
    LastResults(ms);
  }

  /** The results that are found in the last message after stripping and merging are stray ones. */
  lemma LastResults(ms: seq<Message>)
    requires ms != [] && Listed(ms[|ms| - 1]) && AllQuiet(Merged(StrippedAll(ms)))
    ensures var merged := Merged(StrippedAll(ms));
            merged != [] && (ResultsFor(merged[|merged| - 1]) == [] <==> !Stray(ms))
  {
    var merged := Merged(StrippedAll(ms));
    LastMerged(StrippedAll(ms));
    QuietResults(merged[|merged| - 1]);
  }

  lemma QuietPayload(canon: string -> string, prompt: string, thinking: string, ms: seq<Message>)
    requires ms != [] && AllQuiet(ms)
    ensures NoToolData(Entries(PayloadOf(canon, prompt, thinking, ms))) <==> ResultsFor(ms[|ms| - 1]) == []
  {
    var init := ms[..|ms| - 1];
    assert forall k | 0 <= k < |init| :: init[k] == ms[k];
    QuietPrompted(prompt, init);
    QuietHistory(canon, Prompted(prompt, init));
    var p := PayloadOf(canon, prompt, thinking, ms);
    assert Entries(p)[|p.history|] == p.current;
  }
}
