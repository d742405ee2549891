/** Anthropic messages as unified messages. */
module AnthropicMessages {
  import opened Wrappers
  import opened Text
  import opened Embedding
  import opened KiroModel
  import opened KiroPasses
  import opened KiroPayload
  import opened KiroOrder
  import opened KiroArrival
  import opened KiroConservation

  /** An Anthropic content: a string, blocks, or the JSON text of something else. */
  datatype AnthropicContent = Plain(text: string) | BlockList(blocks: seq<AnthropicBlock>) | OtherJson(json: string)

  /** A content block; the input of a tool use is its JSON text. Other blocks, and malformed ones, are passed over. */
  datatype AnthropicBlock =
    | TextPart(text: string)
    | ImagePart(url: string)
    | ToolResultPart(toolUseId: string, content: AnthropicContent)
    | ToolUsePart(id: string, name: string, input: string)
    | Unusable

  datatype AnthropicMessage = AnthropicMessage(role: Role, content: AnthropicContent)

  /** `convert_anthropic_content`: the content of a tool result is converted in the same way and read as text. */
  function ConvertContent(c: AnthropicContent): Content
    decreases c, 1
  {
    match c
    case Plain(text) => Text(text)
    case BlockList(blocks) => Blocks(ConvertUpTo(c, |blocks|))
    case OtherJson(json) => Text(json)
  }

  /** The first blocks of a content. */
  function ConvertUpTo(c: AnthropicContent, n: nat): seq<Block>
    requires c.BlockList? && n <= |c.blocks|
    decreases c, 0, n
  {
    if n == 0 then [] else ConvertUpTo(c, n - 1) + ConvertBlock(c.blocks[n - 1])
  }

  function ConvertBlock(b: AnthropicBlock): seq<Block>
    decreases b
  {
    match b
    case TextPart(text) => [TextBlock(text)]
    case ImagePart(url) => [ImageBlock(url)]
    case ToolResultPart(id, content) =>
      [ToolResultBlock(id, OrPlaceholder(TextOf(ConvertContent(content)), EMPTY_RESULT))]
    case ToolUsePart(id, name, input) => [ToolUseBlock(id, name, input)]
    case Unusable => []
  }

  function ResultsIn(c: Content): seq<ToolResult> {
    if c.Blocks? then BlockToolResults(c.blocks) else []
  }

  function BlockToolResults(blocks: seq<Block>): seq<ToolResult> {
    if blocks == [] then []
    else
      var b := blocks[|blocks| - 1];
      BlockToolResults(blocks[..|blocks| - 1]) + if b.ToolResultBlock? then [ToolResult(b.toolUseId, b.content)] else []
  }

  function CallsIn(c: Content): seq<ToolCall> {
    if c.Blocks? then BlockCalls(c.blocks) else []
  }

  function BlockCalls(blocks: seq<Block>): seq<ToolCall> {
    if blocks == [] then []
    else
      var b := blocks[|blocks| - 1];
      BlockCalls(blocks[..|blocks| - 1]) + if b.ToolUseBlock? then [ToolCall(b.id, b.name, b.input)] else []
  }

  function Nonempty<T>(s: seq<T>): Option<seq<T>> {
    if s == [] then None else Some(s)
  }

  function Converted(m: AnthropicMessage): Message {
    var content := ConvertContent(m.content);
    Message(m.role, content,
            if m.role == Assistant then Nonempty(CallsIn(content)) else None,
            if m.role == User then Nonempty(ResultsIn(content)) else None)
  }

  function Unified(ms: seq<AnthropicMessage>): seq<Message> {
    seq(|ms|, k requires 0 <= k < |ms| => Converted(ms[k]))
  }

  method ExtractResults(c: Content) returns (results: seq<ToolResult>)
    ensures results == ResultsIn(c)
  {
    results := [];
    if c.Blocks? {
      for i := 0 to |c.blocks|
        invariant results == BlockToolResults(c.blocks[..i])
      {
        assert c.blocks[..i + 1][..i] == c.blocks[..i];
        if c.blocks[i].ToolResultBlock? {
          results := results + [ToolResult(c.blocks[i].toolUseId, c.blocks[i].content)];
        }
      }
      assert c.blocks[..|c.blocks|] == c.blocks;
    }
  }

  method ExtractCalls(c: Content) returns (calls: seq<ToolCall>)
    ensures calls == CallsIn(c)
  {
    calls := [];
    if c.Blocks? {
      for i := 0 to |c.blocks|
        invariant calls == BlockCalls(c.blocks[..i])
      {
        assert c.blocks[..i + 1][..i] == c.blocks[..i];
        if c.blocks[i].ToolUseBlock? {
          calls := calls + [ToolCall(c.blocks[i].id, c.blocks[i].name, c.blocks[i].input)];
        }
      }
      assert c.blocks[..|c.blocks|] == c.blocks;
    }
  }

  method ConvertAnthropicMessages(ms: seq<AnthropicMessage>) returns (unified: seq<Message>)
    ensures unified == Unified(ms)
  {
    unified := [];
    for i := 0 to |ms|
      invariant unified == Unified(ms[..i])
    {
      var content := ConvertContent(ms[i].content);
      var toolCalls: Option<seq<ToolCall>>, toolResults: Option<seq<ToolResult>> := None, None;
      match ms[i].role {
        case Assistant =>
          var calls := ExtractCalls(content);
          if calls != [] {
            toolCalls := Some(calls);
          }
        case User =>
          var results := ExtractResults(content);
          if results != [] {
            toolResults := Some(results);
          }
        case Other(_) =>
      }
      unified := unified + [Message(ms[i].role, content, toolCalls, toolResults)];
      assert Unified(ms[..i + 1]) == Unified(ms[..i]) + [Converted(ms[i])];
    }
    assert ms[..|ms|] == ms;
  }

  // ----- What the conversion keeps -----

  lemma {:induction false} ResultsExist(blocks: seq<Block>)
    ensures BlockToolResults(blocks) == [] <==> !HasResultBlock(Blocks(blocks))
  {
    if blocks == [] {
    } else {
      var init := blocks[..|blocks| - 1];
      ResultsExist(init);
      assert forall k | 0 <= k < |init| :: init[k] == blocks[k];
    }
  }

  lemma {:induction false} CallsExist(blocks: seq<Block>)
    ensures BlockCalls(blocks) == [] <==> !HasUseBlock(Blocks(blocks))
  {
    if blocks == [] {
    } else {
      var init := blocks[..|blocks| - 1];
      CallsExist(init);
      assert forall k | 0 <= k < |init| :: init[k] == blocks[k];
    }
  }

  lemma ConvertedIsListed(m: AnthropicMessage)
    ensures Listed(Converted(m))
  {
    var c := ConvertContent(m.content);
    if c.Blocks? {
      ResultsExist(c.blocks);
      CallsExist(c.blocks);
    }
  }

  /** A tool result never arrives empty, however deeply its text is nested. */
  lemma {:induction false} ResultsAreNotEmpty(c: AnthropicContent, n: nat)
    requires c.BlockList? && n <= |c.blocks|
    ensures forall k | 0 <= k < |ConvertUpTo(c, n)| :: ConvertUpTo(c, n)[k].ToolResultBlock? ==>
              ConvertUpTo(c, n)[k].content != ""
  {
    if n == 0 {
    } else {
      ResultsAreNotEmpty(c, n - 1);
    }
  }

  // ----- What a conversation says, read off its JSON -----

  /** The texts of a content in order: text blocks, and what tool results say; empty ones are nothing. */
  function TextsIn(c: AnthropicContent): seq<string>
    decreases c, 1
  {
    match c
    case Plain(text) => Lone(text)
    case BlockList(blocks) => TextsUpTo(c, |blocks|)
    case OtherJson(json) => Lone(json)
  }

  function TextsUpTo(c: AnthropicContent, n: nat): seq<string>
    requires c.BlockList? && n <= |c.blocks|
    decreases c, 0, n
  {
    if n == 0 then [] else TextsUpTo(c, n - 1) + TextsOfBlock(c.blocks[n - 1])
  }

  function TextsOfBlock(b: AnthropicBlock): seq<string>
    decreases b
  {
    match b
    case TextPart(text) => Lone(text)
    case ToolResultPart(_, content) => [ResultIn(content)]
    case _ => []
  }

  /** What a tool result says: all its texts together. */
  function ResultIn(c: AnthropicContent): string
    decreases c, 2
  {
    if Concat(TextsIn(c)) == "" then "(empty result)" else Concat(TextsIn(c))
  }

  /** A tool use as a call. */
  function UsesOfBlock(b: AnthropicBlock): seq<ToolCall> {
    match b
    case ToolUsePart(id, name, input) => [ToolCall(id, name, input)]
    case _ => []
  }

  function ResultsOfBlock(b: AnthropicBlock): seq<ToolResult> {
    match b
    case ToolResultPart(id, content) => [ToolResult(id, ResultIn(content))]
    case _ => []
  }

  function BlocksOf(c: AnthropicContent): seq<AnthropicBlock> {
    if c.BlockList? then c.blocks else []
  }

  function UsesSaid(blocks: seq<AnthropicBlock>): seq<ToolCall> {
    if blocks == [] then [] else UsesSaid(blocks[..|blocks| - 1]) + UsesOfBlock(blocks[|blocks| - 1])
  }

  function ResultsSaid(blocks: seq<AnthropicBlock>): seq<ToolResult> {
    if blocks == [] then [] else ResultsSaid(blocks[..|blocks| - 1]) + ResultsOfBlock(blocks[|blocks| - 1])
  }

  function TextsSaid(ms: seq<AnthropicMessage>): seq<string> {
    if ms == [] then []
    else
      var m := ms[|ms| - 1];
      TextsSaid(ms[..|ms| - 1]) + match m.role case Other(_) => [] case _ => TextsIn(m.content)
  }

  /** What one message says: its texts, and behind them the tool uses of an assistant, the results of a user. */
  function Said(m: AnthropicMessage): seq<string> {
    match m.role
    case User => TextsIn(m.content) + Flat(ResultPieces(ResultsSaid(BlocksOf(m.content))))
    case Assistant => TextsIn(m.content) + Flat(CallPieces(UsesSaid(BlocksOf(m.content))))
    case Other(_) => []
  }

  function AllSaid(ms: seq<AnthropicMessage>): seq<string> {
    if ms == [] then [] else AllSaid(ms[..|ms| - 1]) + Said(ms[|ms| - 1])
  }

  /** The conversion keeps the texts. */
  lemma {:induction false} TextsAreKept(c: AnthropicContent)
    ensures TextPieces(ConvertContent(c)) == TextsIn(c) && TextOf(ConvertContent(c)) == Concat(TextsIn(c))
    decreases c, 1
  {
    match c
    case Plain(text) => LoneText(text);
    case OtherJson(json) => LoneText(json);
    case BlockList(blocks) => TextsAreKeptUpTo(c, |blocks|);
  }

  /** Blocks with given texts. */
  predicate Says(blocks: seq<Block>, texts: seq<string>) {
    BlocksPieces(blocks) == texts && BlocksText(blocks) == Concat(texts)
  }

  lemma BlockSays(b: Block)
    ensures BlocksText([b]) == BlockText(b)
    ensures BlocksPieces([b]) == match b case TextBlock(t) => Lone(t) case ToolResultBlock(_, t) => Lone(t) case _ => []
  {
    assert [b][..0] == [];
    assert "" + BlockText(b) == BlockText(b);
  }

  lemma {:induction false} SaysMore(blocks: seq<Block>, texts: seq<string>, more: seq<Block>, others: seq<string>,
                                    allBlocks: seq<Block>, allTexts: seq<string>)
    requires |more| <= 1 && Says(blocks, texts) && Says(more, others)
    requires allBlocks == blocks + more && allTexts == texts + others
    ensures Says(allBlocks, allTexts)
  {
    ConcatAppend(texts, others);
    if more == [] {
      assert allBlocks == blocks && allTexts == texts;
    } else {
      BlockSays(more[0]);
      assert more == [more[0]] && allBlocks[..|blocks|] == blocks;
    }
  }

  lemma {:induction false} TextsAreKeptUpTo(c: AnthropicContent, n: nat)
    requires c.BlockList? && n <= |c.blocks|
    ensures Says(ConvertUpTo(c, n), TextsUpTo(c, n))
    decreases c, 0, n
  {
    if n == 0 {
    } else {
      TextsAreKeptUpTo(c, n - 1);
      BlockIsKept(c.blocks[n - 1]);
      SaysMore(ConvertUpTo(c, n - 1), TextsUpTo(c, n - 1), ConvertBlock(c.blocks[n - 1]), TextsOfBlock(c.blocks[n - 1]),
               ConvertUpTo(c, n), TextsUpTo(c, n));
    }
  }

  lemma {:induction false} BlockIsKept(b: AnthropicBlock)
    ensures Says(ConvertBlock(b), TextsOfBlock(b))
    decreases b
  {
    match b
    case TextPart(text) => OneSays(TextBlock(text), text);
    case ToolResultPart(id, content) =>
      TextsAreKept(content);
      OneSays(ToolResultBlock(id, ResultIn(content)), ResultIn(content));
    case ToolUsePart(id, name, input) => OneSays(ToolUseBlock(id, name, input), "");
    case ImagePart(url) => OneSays(ImageBlock(url), "");
    case Unusable =>
  }

  lemma OneSays(b: Block, text: string)
    requires text == match b case TextBlock(t) => t case ToolResultBlock(_, t) => t case _ => ""
    ensures Says([b], Lone(text))
  {
    LoneText(text);
    assert [b][..0] == [];
  }

  lemma BlockToolsAppend(blocks: seq<Block>, more: seq<Block>)
    requires |more| <= 1
    ensures BlockCalls(blocks + more) == BlockCalls(blocks) + BlockCalls(more)
    ensures BlockToolResults(blocks + more) == BlockToolResults(blocks) + BlockToolResults(more)
  {
    if more == [] {
      assert blocks + more == blocks;
    } else {
      assert (blocks + more)[..|blocks|] == blocks && more[..0] == [];
    }
  }

  lemma BlockToolsAreKept(b: AnthropicBlock)
    ensures BlockCalls(ConvertBlock(b)) == UsesOfBlock(b) && BlockToolResults(ConvertBlock(b)) == ResultsOfBlock(b)
    ensures |ConvertBlock(b)| <= 1
  {
    if b.ToolResultPart? {
      TextsAreKept(b.content);
    }
    assert forall block: Block {:trigger [block]} :: [block][..0] == [];
  }

  /** The conversion keeps tool uses and results, with their identifiers. */
  lemma {:induction false} ToolsAreKept(c: AnthropicContent, n: nat)
    requires c.BlockList? && n <= |c.blocks|
    ensures BlockCalls(ConvertUpTo(c, n)) == UsesSaid(c.blocks[..n])
    ensures BlockToolResults(ConvertUpTo(c, n)) == ResultsSaid(c.blocks[..n])
  {
    if n == 0 {
    } else {
      ToolsAreKept(c, n - 1);
      BlockToolsAreKept(c.blocks[n - 1]);
      BlockToolsAppend(ConvertUpTo(c, n - 1), ConvertBlock(c.blocks[n - 1]));
      assert c.blocks[..n][..n - 1] == c.blocks[..n - 1];
    }
  }

  lemma ConvertedTools(m: AnthropicMessage)
    ensures CallsIn(ConvertContent(m.content)) == UsesSaid(BlocksOf(m.content))
    ensures ResultsIn(ConvertContent(m.content)) == ResultsSaid(BlocksOf(m.content))
  {
    if m.content.BlockList? {
      ToolsAreKept(m.content, |m.content.blocks|);
      assert m.content.blocks[..|m.content.blocks|] == m.content.blocks;
    }
  }

  lemma {:induction false} PiecesAreKept(m: AnthropicMessage)
    ensures SpokenTexts(Converted(m)) == (match m.role case Other(_) => [] case _ => TextsIn(m.content))
    ensures Pieces(Converted(m)) == Said(m)
  {
    TextsAreKept(m.content);
    ConvertedTools(m);
    NoPieces();
    assert forall s: seq<string>, t: seq<string> {:trigger s + [] + t} :: s + [] + t == s + t;
    assert forall s: seq<string> {:trigger s + []} :: s + [] == s;
  }

  lemma {:induction false} AllIsKept(ms: seq<AnthropicMessage>)
    ensures AllPieces(Unified(ms)) == AllSaid(ms) && AllTexts(Unified(ms)) == TextsSaid(ms)
  {
    if ms == [] {
    } else {
      var init := ms[..|ms| - 1];
      AllIsKept(init);
      assert Unified(ms)[..|ms| - 1] == Unified(init);
      PiecesAreKept(ms[|ms| - 1]);
    }
  }

  // ----- What arrives -----

  /** Results in the content of a message, and tool uses. */
  predicate HoldsResult(m: AnthropicMessage) {
    HasResultBlock(ConvertContent(m.content))
  }

  predicate HoldsUse(m: AnthropicMessage) {
    HasUseBlock(ConvertContent(m.content))
  }

  lemma CallsAreUses(m: AnthropicMessage)
    ensures HasCalls(Converted(m)) <==> m.role == Assistant && HoldsUse(m)
    ensures HasResults(Converted(m)) <==> m.role == User && HoldsResult(m)
  {
    var c := ConvertContent(m.content);
    if c.Blocks? {
      CallsExist(c.blocks);
      ResultsExist(c.blocks);
    }
  }

  lemma UnifiedIsNatural(ms: seq<AnthropicMessage>)
    ensures Natural(Unified(ms))
  {
    forall k | 0 <= k < |ms|
      ensures Listed(Unified(ms)[k])
    {
      ConvertedIsListed(ms[k]);
    }
  }

  /** The last message is not of a user, has no neighbour of its role, and holds tool results but no uses of its own. */
  predicate StrayResult(ms: seq<AnthropicMessage>)
    requires ms != []
  {
    var last := ms[|ms| - 1];
    && last.role != User && HoldsResult(last) && !(last.role == Assistant && HoldsUse(last))
    && (|ms| > 1 ==> ms[|ms| - 2].role != last.role)
  }

  lemma StrayIsStray(ms: seq<AnthropicMessage>)
    requires ms != []
    ensures Stray(Unified(ms)) <==> StrayResult(ms)
  {
    CallsAreUses(ms[|ms| - 1]);
  }

  /**
   * Without tools: every text, call and result in the text of an entry, in order, and no tool data in any entry, except
   * for a stray result in a last message that is not of a user.
   */
  lemma AnthropicToolsBecomeText(canon: string -> string, prompt: string, thinking: string, ms: seq<AnthropicMessage>)
    returns (placed: seq<seq<string>>)
    requires ms != []
    ensures Merged(StrippedAll(Unified(ms))) != [] && Flat(placed) == AllSaid(ms)
    ensures var entries := Entries(PayloadOf(canon, prompt, thinking, Merged(StrippedAll(Unified(ms)))));
            AllEmbed(placed, Contents(entries)) && (NoToolData(entries) <==> !StrayResult(ms))
  {
    UnifiedIsNatural(ms);
    StrayIsStray(ms);
    NoToolDataWithoutTools(canon, prompt, thinking, Unified(ms));
    placed := NothingIsLost(canon, prompt, thinking, Unified(ms));
    AllIsKept(ms);
  }

  /** With tools: every text of a user or assistant in the text of an entry, in order. */
  lemma AnthropicTextsArrive(canon: string -> string, prompt: string, thinking: string, ms: seq<AnthropicMessage>)
    returns (placed: seq<seq<string>>)
    requires ms != []
    ensures Merged(Ensured(Unified(ms))) != [] && Flat(placed) == TextsSaid(ms)
    ensures AllEmbed(placed, Contents(Entries(PayloadOf(canon, prompt, thinking, Merged(Ensured(Unified(ms)))))))
  {
    AllIsKept(ms);
    placed := TextsArrive(canon, prompt, thinking, Unified(ms));
  }

  // ----- Orphaned results -----

  /** The assistant has spoken last, in a run of messages of which one holds tool uses; other roles do not count. */
  predicate Answered(ms: seq<AnthropicMessage>) {
    if ms == [] then false
    else
      var init, last := ms[..|ms| - 1], ms[|ms| - 1];
      match last.role
      case User => false
      case Assistant => HoldsUse(last) || (init != [] && init[|init| - 1].role == Assistant && Answered(init))
      case Other(_) => Answered(init)
  }

  predicate Single(ms: seq<AnthropicMessage>, k: nat)
    requires k < |ms|
  {
    (k > 0 ==> ms[k - 1].role != ms[k].role) && (k + 1 < |ms| ==> ms[k + 1].role != ms[k].role)
  }

  /**
   * The results of a message return although no tool uses come before them: it is of a user, or it is the last; no
   * merge has made text of its blocks; and it does not take the system prompt, which the first user does unless it is
   * the last. The results of an assistant who speaks last come after an answer without tool uses in any case.
   */
  predicate Returns(prompt: string, ms: seq<AnthropicMessage>, k: nat)
    requires k < |ms|
  {
    && HoldsResult(ms[k]) && Single(ms, k)
    && (k < |ms| - 1 ==>
          ms[k].role == User && (prompt != "" ==> exists j :: 0 <= j < k && ms[j].role == User))
    && (ms[k].role == Assistant || !Answered(ms[..k]))
  }

  lemma {:induction false} AnsweredIsUses(ms: seq<AnthropicMessage>)
    ensures UsesBefore(Unified(ms)) <==> Answered(ms)
  {
    if ms == [] {
    } else {
      AnsweredIsUses(ms[..|ms| - 1]);
      assert Unified(ms)[..|ms| - 1] == Unified(ms[..|ms| - 1]);
      CallsAreUses(ms[|ms| - 1]);
    }
  }

  lemma ReturnsIsComesBack(prompt: string, ms: seq<AnthropicMessage>, k: nat)
    requires k < |ms|
    ensures ComesBack(prompt, Unified(ms), k) <==> Returns(prompt, ms, k)
  {
    var before := ms[..k];
    assert Unified(ms)[..k] == Unified(before);
    AnsweredIsUses(before);
    assert FirstUser(Unified(before)).Some? <==> exists j :: 0 <= j < k && ms[j].role == User by {
      assert forall j | 0 <= j < k :: Unified(before)[j].role == ms[j].role;
    }
  }

  /**
   * With tools: every entry with tool results directly follows an assistant entry with tool uses, exactly unless
   * results return. The pass drops orphaned results from the list of a message, but the payload finds them again in
   * its content.
   */
  lemma AnthropicResultsFollowUses(canon: string -> string, prompt: string, thinking: string, ms: seq<AnthropicMessage>)
    requires ms != []
    ensures Merged(Ensured(Unified(ms))) != []
    ensures Paired(Entries(PayloadOf(canon, prompt, thinking, Merged(Ensured(Unified(ms)))))) <==>
            forall k: nat | k < |ms| :: !Returns(prompt, ms, k)
  {
    UnifiedIsNatural(ms);
    ResultsFollowUses(canon, prompt, thinking, Unified(ms));
    forall k: nat | k < |ms|
      ensures ComesBack(prompt, Unified(ms), k) <==> Returns(prompt, ms, k)
    {
      ReturnsIsComesBack(prompt, ms, k);
    }
  }

  /** The shortest example: a user message with results, alone. */
  lemma {:induction false} OrphanComesBack(canon: string -> string, prompt: string, thinking: string, m: AnthropicMessage)
    requires m.role == User && HoldsResult(m)
    ensures Ensured(Unified([m]))[0].toolResults == None && Merged(Ensured(Unified([m]))) != []
    ensures !Paired(Entries(PayloadOf(canon, prompt, thinking, Merged(Ensured(Unified([m]))))))
  {
    AnthropicResultsFollowUses(canon, prompt, thinking, [m]);
    LoneReturns(prompt, m);
    OrphanIsDropped(m);
  }

  lemma {:induction false} OrphanIsDropped(m: AnthropicMessage)
    ensures Ensured(Unified([m]))[0].toolResults == None
  {
    assert Unified([m])[..0] == [] && Ensured([]) == [];
  }

  lemma LoneReturns(prompt: string, m: AnthropicMessage)
    requires m.role == User && HoldsResult(m)
    ensures Returns(prompt, [m], 0)
  {
    assert [m][..0] == [];
  }
}
