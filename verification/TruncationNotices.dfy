/** The cache of truncations, and the notices for OpenAI and Anthropic messages. */
module TruncationNotices {
  import opened Wrappers
  import opened NoticeInjection
  import opened NoticeCache
  import opened Truncation

  const TOOL_NOTICE :=
    "[API Limitation] Your previous tool call was truncated by the API before it could complete. "
    + "The tool was NOT executed because the arguments were cut off mid-stream. "
    + "Do NOT repeat the exact same operation - it will be truncated again at the same point. "
    + "Instead, break the work into smaller steps (e.g., write smaller sections of a file at a time)."

  const USER_NOTICE :=
    "[System Notice] Your previous response was truncated by the API before it could complete. "
    + "The content was cut off mid-stream. Consider breaking your response into smaller parts."

  datatype ToolEntry = ToolEntry(toolName: string, info: TruncationInfo)

  /** Only the first 500 characters of a content are looked at. */
  function ContentHash(digest: string -> string, content: string): string {
    digest(if |content| <= 500 then content else content[..500])
  }

  /** Entries are removed when they are read. An entry for a content is nothing but its hash. */
  class TruncationState {
    const digest: string -> string
    var toolCache: map<string, ToolEntry>
    var contentCache: set<string>

    constructor (digest: string -> string)
      ensures this.digest == digest && Now() == Cache({}, {})
    {
      this.digest := digest;
      toolCache := map[];
      contentCache := {};
    }

    ghost function Now(): Cache
      reads this
    {
      Cache(toolCache.Keys, contentCache)
    }

    method SaveToolTruncation(toolCallId: string, toolName: string, info: TruncationInfo)
      modifies this
      ensures Now() == Cache(old(Now()).tools + {toolCallId}, old(Now()).contents)
      ensures toolCache == old(toolCache)[toolCallId := ToolEntry(toolName, info)]
    {
      toolCache := toolCache[toolCallId := ToolEntry(toolName, info)];
    }

    method GetToolTruncation(toolCallId: string) returns (entry: Option<ToolEntry>)
      modifies this
      ensures entry == if toolCallId in old(toolCache) then Some(old(toolCache)[toolCallId]) else None
      ensures toolCache == old(toolCache) - {toolCallId} && contentCache == old(contentCache)
      ensures Now() == Cache(old(Now()).tools - {toolCallId}, old(Now()).contents)
    {
      entry := if toolCallId in toolCache then Some(toolCache[toolCallId]) else None;
      toolCache := toolCache - {toolCallId};
    }

    method SaveContentTruncation(content: string)
      modifies this
      ensures Now() == Cache(old(Now()).tools, old(Now()).contents + {ContentHash(digest, content)})
    {
      contentCache := contentCache + {ContentHash(digest, content)};
    }

    method GetContentTruncation(content: string) returns (found: bool)
      modifies this
      ensures found == (ContentHash(digest, content) in old(contentCache))
      ensures Now() == Cache(old(Now()).tools, old(Now()).contents - {ContentHash(digest, content)})
      ensures toolCache == old(toolCache) && contentCache == old(contentCache) - {ContentHash(digest, content)}
    {
      var hash := ContentHash(digest, content);
      found := hash in contentCache;
      contentCache := contentCache - {hash};
    }

    method InjectOpenAITruncationRecovery(messages: seq<OpenAIMessage>) returns (result: seq<OpenAIMessage>)
      modifies this
      ensures Injection(Now(), result) == Injected(OpenAIVisitor(digest), OPENAI_NOTICE, old(Now()), messages)
    {
      var edited: seq<OpenAIMessage>, positions: seq<nat> := [], [];
      for i := 0 to |messages|
        invariant Scan(Now(), edited, positions) == Scanned(OpenAIVisitor(digest), old(Now()), messages[..i])
      {
        assert messages[..i + 1][..i] == messages[..i];
        var m, matched := VisitOpenAI(messages[i]);
        edited := edited + [m];
        if matched {
          positions := positions + [i + 1];
        }
      }
      assert messages[..|messages|] == messages;
      result := InsertInReverse(edited, positions, OPENAI_NOTICE);
      TwoPassesAreOne(OpenAIVisitor(digest), OPENAI_NOTICE, old(Now()), messages);
    }

    method VisitOpenAI(before: OpenAIMessage) returns (m: OpenAIMessage, matched: bool)
      modifies this
      ensures Visit(Now(), m, matched) == VisitedOpenAI(digest, old(Now()), before)
    {
      m, matched := before, false;
      NothingTaken(old(Now()).tools, {});
      NothingTaken(old(Now()).contents, {});
      if m.role == Tool && m.toolCallId.Some? {
        var entry := GetToolTruncation(m.toolCallId.value);
        One(m.toolCallId.value, old(Now()).tools);
        if entry.Some? {
          m := m.(content := Some(TOOL_NOTICE + "\n\n" + m.content.GetOr("")), isError := true);
        }
      }
      if m.role == Assistant && m.content.GetOr("") != "" {
        matched := GetContentTruncation(m.content.value);
        One(ContentHash(digest, m.content.value), old(Now()).contents);
      }
    }

    method InjectAnthropicTruncationRecovery(messages: seq<AnthropicMessage>) returns (result: seq<AnthropicMessage>)
      modifies this
      ensures Injection(Now(), result) == Injected(AnthropicVisitor(digest), ANTHROPIC_NOTICE, old(Now()), messages)
    {
      var edited: seq<AnthropicMessage>, positions: seq<nat> := [], [];
      for i := 0 to |messages|
        invariant Scan(Now(), edited, positions) == Scanned(AnthropicVisitor(digest), old(Now()), messages[..i])
      {
        assert messages[..i + 1][..i] == messages[..i];
        var m, matched := VisitAnthropic(messages[i]);
        edited := edited + [m];
        if matched {
          positions := positions + [i + 1];
        }
      }
      assert messages[..|messages|] == messages;
      result := InsertInReverse(edited, positions, ANTHROPIC_NOTICE);
      TwoPassesAreOne(AnthropicVisitor(digest), ANTHROPIC_NOTICE, old(Now()), messages);
    }

    method VisitAnthropic(before: AnthropicMessage) returns (m: AnthropicMessage, matched: bool)
      modifies this
      ensures Visit(Now(), m, matched) == VisitedAnthropic(digest, old(Now()), before)
    {
      m, matched := before, false;
      NothingTaken(old(Now()).tools, {});
      NothingTaken(old(Now()).contents, {});
      if m.role == User && m.content.Blocks? {
        var blocks := VisitBlocks(m.content.blocks);
        m := m.(content := Blocks(blocks));
      }
      if m.role == Assistant {
        var text := ContentText(m.content);
        if text != "" {
          matched := GetContentTruncation(text);
          One(ContentHash(digest, text), old(Now()).contents);
        }
      }
    }

    static lemma One(key: string, keys: set<string>)
      ensures {key} * keys == {} <==> key !in keys
    {
      assert key in keys ==> key in {key} * keys;
    }

    method VisitBlocks(before: seq<Block>) returns (blocks: seq<Block>)
      modifies this
      ensures blocks == NotedBlocks(old(Now()).tools, before)
      ensures Now() == Cache(old(Now()).tools - BlockKeys(before), old(Now()).contents)
    {
      blocks := [];
      assert old(Now()).tools - {} == old(Now()).tools;
      for i := 0 to |before|
        invariant blocks == NotedBlocks(old(Now()).tools, before[..i])
        invariant Now() == Cache(old(Now()).tools - BlockKeys(before[..i]), old(Now()).contents)
      {
        assert before[..i + 1][..i] == before[..i];
        ghost var known := Now().tools;
        var b := before[i];
        if b.ToolResult? && b.toolUseId.Some? {
          var entry := GetToolTruncation(b.toolUseId.value);
          assert known - {b.toolUseId.value} == old(Now()).tools - BlockKeys(before[..i + 1]);
          if entry.Some? {
            b := ToolResult(b.toolUseId, Some(TOOL_NOTICE + "\n\n" + b.content.GetOr("")), true);
          }
        } else {
          assert BlockKeys(before[..i]) + {} == BlockKeys(before[..i]);
        }
        blocks := blocks + [b];
      }
      assert before[..|before|] == before;
    }
  }

  // ----- OpenAI messages -----

  datatype Role = User | Assistant | Tool | Other(name: string)

  /** A message; a content that is no string is not looked at. */
  datatype OpenAIMessage = OpenAIMessage(role: Role, toolCallId: Option<string>, content: Option<string>, isError: bool)

  const OPENAI_NOTICE := OpenAIMessage(User, None, Some(USER_NOTICE), false)

  function OpenAITools(m: OpenAIMessage): set<string> {
    if m.role == Tool && m.toolCallId.Some? then {m.toolCallId.value} else {}
  }

  function OpenAIContents(digest: string -> string, m: OpenAIMessage): set<string> {
    if m.role == Assistant && m.content.GetOr("") != "" then {ContentHash(digest, m.content.value)} else {}
  }

  function VisitedOpenAI(digest: string -> string, c: Cache, m: OpenAIMessage): Visit<OpenAIMessage> {
    var tools, contents := OpenAITools(m), OpenAIContents(digest, m);
    Visit(Cache(c.tools - tools, c.contents - contents),
          if tools * c.tools == {} then m
          else m.(content := Some(TOOL_NOTICE + "\n\n" + m.content.GetOr("")), isError := true),
          contents * c.contents != {})
  }

  function OpenAIVisitor(digest: string -> string): (Cache, OpenAIMessage) -> Visit<OpenAIMessage> {
    (c, m) => VisitedOpenAI(digest, c, m)
  }

  function OpenAIContentKeys(digest: string -> string): OpenAIMessage -> set<string> {
    m => OpenAIContents(digest, m)
  }

  lemma OpenAIIsLawful(digest: string -> string)
    ensures Lawful(OpenAIVisitor(digest), OpenAITools, OpenAIContentKeys(digest))
    ensures IsNotice(OPENAI_NOTICE, OpenAITools, OpenAIContentKeys(digest))
  {
  }

  // ----- Anthropic messages -----

  /** A content block; a tool result whose content is no string counts as empty. */
  datatype Block =
    | TextPart(text: Option<string>)
    | ToolResult(toolUseId: Option<string>, content: Option<string>, isError: bool)
    | OtherBlock

  datatype Content = Str(text: string) | Blocks(blocks: seq<Block>) | NoText

  datatype AnthropicMessage = AnthropicMessage(role: Role, content: Content)

  const ANTHROPIC_NOTICE := AnthropicMessage(User, Str(USER_NOTICE))

  function BlockKey(b: Block): set<string> {
    if b.ToolResult? && b.toolUseId.Some? then {b.toolUseId.value} else {}
  }

  function BlockKeys(blocks: seq<Block>): set<string> {
    if blocks == [] then {} else BlockKeys(blocks[..|blocks| - 1]) + BlockKey(blocks[|blocks| - 1])
  }

  /** The first block for each known identifier is noted. */
  function NotedBlocks(tools: set<string>, blocks: seq<Block>): seq<Block> {
    if blocks == [] then []
    else
      var init, b := blocks[..|blocks| - 1], blocks[|blocks| - 1];
      NotedBlocks(tools, init)
      + [if BlockKey(b) * (tools - BlockKeys(init)) == {} then b
         else ToolResult(b.toolUseId, Some(TOOL_NOTICE + "\n\n" + b.content.GetOr("")), true)]
  }

  function BlocksText(blocks: seq<Block>): string {
    if blocks == [] then ""
    else
      var b := blocks[|blocks| - 1];
      BlocksText(blocks[..|blocks| - 1]) + if b.TextPart? then b.text.GetOr("") else ""
  }

  function ContentText(c: Content): string {
    match c
    case Str(text) => text
    case Blocks(blocks) => BlocksText(blocks)
    case NoText => ""
  }

  function AnthropicTools(m: AnthropicMessage): set<string> {
    if m.role == User && m.content.Blocks? then BlockKeys(m.content.blocks) else {}
  }

  function AnthropicContents(digest: string -> string, m: AnthropicMessage): set<string> {
    if m.role == Assistant && ContentText(m.content) != "" then {ContentHash(digest, ContentText(m.content))} else {}
  }

  function VisitedAnthropic(digest: string -> string, c: Cache, m: AnthropicMessage): Visit<AnthropicMessage> {
    var contents := AnthropicContents(digest, m);
    Visit(Cache(c.tools - AnthropicTools(m), c.contents - contents),
          if m.role == User && m.content.Blocks? then m.(content := Blocks(NotedBlocks(c.tools, m.content.blocks))) else m,
          contents * c.contents != {})
  }

  function AnthropicVisitor(digest: string -> string): (Cache, AnthropicMessage) -> Visit<AnthropicMessage> {
    (c, m) => VisitedAnthropic(digest, c, m)
  }

  function AnthropicContentKeys(digest: string -> string): AnthropicMessage -> set<string> {
    m => AnthropicContents(digest, m)
  }

  lemma {:induction false} NotingKeepsKeys(tools: set<string>, blocks: seq<Block>)
    ensures BlockKeys(NotedBlocks(tools, blocks)) == BlockKeys(blocks) && |NotedBlocks(tools, blocks)| == |blocks|
  {
    if blocks == [] {
    } else {
      NotingKeepsKeys(tools, blocks[..|blocks| - 1]);
    }
  }

  lemma {:induction false} NothingToNote(tools: set<string>, blocks: seq<Block>)
    requires BlockKeys(blocks) * tools == {}
    ensures NotedBlocks(tools, blocks) == blocks
  {
    if blocks == [] {
    } else {
      var init, b := blocks[..|blocks| - 1], blocks[|blocks| - 1];
      assert forall k | k in BlockKeys(init) || k in BlockKey(b) :: k !in BlockKeys(blocks) * tools ==> k !in tools;
      NothingToNote(tools, init);
      assert BlockKey(b) * (tools - BlockKeys(init)) == {};
    }
  }

  lemma AnthropicIsLawful(digest: string -> string)
    ensures Lawful(AnthropicVisitor(digest), AnthropicTools, AnthropicContentKeys(digest))
    ensures IsNotice(ANTHROPIC_NOTICE, AnthropicTools, AnthropicContentKeys(digest))
  {
    forall c: Cache, m: AnthropicMessage
      ensures m.role == User && m.content.Blocks? ==> BlockKeys(NotedBlocks(c.tools, m.content.blocks)) == BlockKeys(m.content.blocks)
      ensures m.role == User && m.content.Blocks? && BlockKeys(m.content.blocks) * c.tools == {} ==>
                NotedBlocks(c.tools, m.content.blocks) == m.content.blocks
    {
      if m.role == User && m.content.Blocks? {
        NotingKeepsKeys(c.tools, m.content.blocks);
        if BlockKeys(m.content.blocks) * c.tools == {} {
          NothingToNote(c.tools, m.content.blocks);
        }
      }
    }
  }

  // ----- The guarantees, for both formats -----

  /** Running the injection on its own result changes nothing. */
  lemma OpenAIAgain(digest: string -> string, c: Cache, ms: seq<OpenAIMessage>)
    ensures var after := Injected(OpenAIVisitor(digest), OPENAI_NOTICE, c, ms);
            Injected(OpenAIVisitor(digest), OPENAI_NOTICE, after.cache, after.messages) == after
  {
    OpenAIIsLawful(digest);
    AgainIsIdentity(OpenAIVisitor(digest), OPENAI_NOTICE, OpenAITools, OpenAIContentKeys(digest), c, ms);
  }

  lemma AnthropicAgain(digest: string -> string, c: Cache, ms: seq<AnthropicMessage>)
    ensures var after := Injected(AnthropicVisitor(digest), ANTHROPIC_NOTICE, c, ms);
            Injected(AnthropicVisitor(digest), ANTHROPIC_NOTICE, after.cache, after.messages) == after
  {
    AnthropicIsLawful(digest);
    AgainIsIdentity(AnthropicVisitor(digest), ANTHROPIC_NOTICE, AnthropicTools, AnthropicContentKeys(digest), c, ms);
  }

  /** Of the cache exactly the entries for these messages are used up, and each content entry gives one notice. */
  lemma OpenAIConsumes(digest: string -> string, c: Cache, ms: seq<OpenAIMessage>)
    ensures var after := Injected(OpenAIVisitor(digest), OPENAI_NOTICE, c, ms);
            && after.cache == Cache(c.tools - Union(OpenAITools, ms), c.contents - Union(OpenAIContentKeys(digest), ms))
            && |after.messages| + |after.cache.contents| == |ms| + |c.contents|
  {
    OpenAIIsLawful(digest);
    KeysAreConsumed(OpenAIVisitor(digest), OPENAI_NOTICE, OpenAITools, OpenAIContentKeys(digest), c, ms);
    OneNoticePerEntry(OpenAIVisitor(digest), OPENAI_NOTICE, OpenAITools, OpenAIContentKeys(digest), c, ms);
  }

  lemma AnthropicConsumes(digest: string -> string, c: Cache, ms: seq<AnthropicMessage>)
    ensures var after := Injected(AnthropicVisitor(digest), ANTHROPIC_NOTICE, c, ms);
            && after.cache == Cache(c.tools - Union(AnthropicTools, ms),
                                    c.contents - Union(AnthropicContentKeys(digest), ms))
            && |after.messages| + |after.cache.contents| == |ms| + |c.contents|
  {
    AnthropicIsLawful(digest);
    KeysAreConsumed(AnthropicVisitor(digest), ANTHROPIC_NOTICE, AnthropicTools, AnthropicContentKeys(digest), c, ms);
    OneNoticePerEntry(AnthropicVisitor(digest), ANTHROPIC_NOTICE, AnthropicTools, AnthropicContentKeys(digest), c, ms);
  }
}
