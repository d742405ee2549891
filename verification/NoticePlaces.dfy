/** What the injection of notices makes of messages, told by the messages alone. */
module NoticePlaces {
  import opened Wrappers
  import opened NoticeInjection
  import opened NoticeCache
  import opened TruncationNotices

  // ----- Which contents are taken for one another -----

  /** The first 500 characters of a text, or all of it when it is shorter. */
  predicate IsStart(start: string, text: string) {
    start <= text && if |text| < 500 then |start| == |text| else |start| == 500
  }

  predicate SameStart(a: string, b: string) {
    && (if |a| < 500 then |b| == |a| else |b| >= 500)
    && forall i | 0 <= i < 500 && i < |a| && i < |b| :: a[i] == b[i]
  }

  /** Their first 500 characters have the same digest. */
  ghost predicate Alike(digest: string -> string, a: string, b: string) {
    exists p, q :: IsStart(p, a) && IsStart(q, b) && digest(p) == digest(q)
  }

  ghost predicate Remembers(digest: string -> string, c: Cache, text: string) {
    exists p :: IsStart(p, text) && digest(p) in c.contents
  }

  lemma OneStart(text: string, p: string)
    requires IsStart(p, text)
    ensures p == if |text| <= 500 then text else text[..500]
  {
    assert p == text[..|p|];
  }

  lemma StartOf(text: string)
    ensures IsStart(if |text| <= 500 then text else text[..500], text)
  {
  }

  lemma AlikeIsSameHash(digest: string -> string, a: string, b: string)
    ensures Alike(digest, a, b) <==> ContentHash(digest, a) == ContentHash(digest, b)
  {
    StartOf(a);
    StartOf(b);
    forall p | IsStart(p, a) ensures digest(p) == ContentHash(digest, a) {
      OneStart(a, p);
    }
    forall q | IsStart(q, b) ensures digest(q) == ContentHash(digest, b) {
      OneStart(b, q);
    }
  }

  lemma RemembersHash(digest: string -> string, c: Cache, text: string)
    ensures Remembers(digest, c, text) <==> ContentHash(digest, text) in c.contents
  {
    StartOf(text);
    forall p | IsStart(p, text) ensures digest(p) == ContentHash(digest, text) {
      OneStart(text, p);
    }
  }

  lemma SameStartIsEqual(a: string, b: string, p: string, q: string)
    requires IsStart(p, a) && IsStart(q, b)
    ensures SameStart(a, b) <==> p == q
  {
    if p == q {
      forall i | 0 <= i < 500 && i < |a| && i < |b| ensures a[i] == b[i] {
        assert a[i] == p[i] && b[i] == q[i];
      }
    }
  }

  /** Contents that begin with the same 500 characters are taken for one another, and no others if no digests collide. */
  lemma AlikeIsSameStart(digest: string -> string, a: string, b: string)
    ensures SameStart(a, b) ==> Alike(digest, a, b)
    ensures Alike(digest, a, b) && (forall p, q :: digest(p) == digest(q) ==> p == q) ==> SameStart(a, b)
  {
    var s, t := if |a| <= 500 then a else a[..500], if |b| <= 500 then b else b[..500];
    StartOf(a);
    StartOf(b);
    SameStartIsEqual(a, b, s, t);
    AlikeIsSameHash(digest, a, b);
  }

  /** Saving a content makes the cache remember it and whatever is taken for it; reading forgets just that. */
  lemma SavedIsRemembered(digest: string -> string, c: Cache, content: string, text: string)
    ensures Remembers(digest, c.(contents := c.contents + {ContentHash(digest, content)}), text) <==>
            Remembers(digest, c, text) || Alike(digest, content, text)
    ensures Remembers(digest, c.(contents := c.contents - {ContentHash(digest, content)}), text) <==>
            Remembers(digest, c, text) && !Alike(digest, content, text)
  {
    RemembersHash(digest, c, text);
    RemembersHash(digest, c.(contents := c.contents + {ContentHash(digest, content)}), text);
    RemembersHash(digest, c.(contents := c.contents - {ContentHash(digest, content)}), text);
    AlikeIsSameHash(digest, content, text);
  }

  /** Remembered, and taken for no text that has used up the memory before. */
  ghost predicate Recalled(digest: string -> string, c: Cache, earlier: set<string>, text: string) {
    text != "" && Remembers(digest, c, text) && forall t | t in earlier && t != "" :: !Alike(digest, t, text)
  }

  lemma {:induction false} InUnion<M>(keys: M -> set<string>, ms: seq<M>, x: string)
    ensures x in Union(keys, ms) <==> exists k :: 0 <= k < |ms| && x in keys(ms[k])
  {
    if ms == [] {
    } else {
      var init := ms[..|ms| - 1];
      InUnion(keys, init, x);
      assert forall k | 0 <= k < |init| :: init[k] == ms[k];
    }
  }

  lemma OneMoreVisit<M>(visit: (Cache, M) -> Visit<M>, notice: M, c: Cache, ms: seq<M>, m: M)
    ensures var before := Injected(visit, notice, c, ms);
            var v := visit(before.cache, m);
            Injected(visit, notice, c, ms + [m]).messages ==
            before.messages + if v.matched then [v.message, notice] else [v.message]
  {
    assert (ms + [m])[..|ms|] == ms;
  }

  // ----- OpenAI messages -----

  function OpenAIIds(ms: seq<OpenAIMessage>): set<string> {
    set k | 0 <= k < |ms| && ms[k].role == Tool && ms[k].toolCallId.Some? :: ms[k].toolCallId.value
  }

  function OpenAITexts(ms: seq<OpenAIMessage>): set<string> {
    set k | 0 <= k < |ms| && ms[k].role == Assistant && ms[k].content.Some? :: ms[k].content.value
  }

  /** A result as an error: the notice, an empty line, and what was there. */
  function NotedText(content: Option<string>): Option<string> {
    match content
    case Some(text) => Some(TOOL_NOTICE + "\n\n" + text)
    case None => Some(TOOL_NOTICE + "\n\n")
  }

  /**
   * The first result for each identifier of the cache is noted, and the first assistant message for each content of the
   * cache is followed by a notice; all else stays.
   */
  ghost function OpenAINoted(digest: string -> string, c: Cache, ms: seq<OpenAIMessage>): seq<OpenAIMessage> {
    if ms == [] then []
    else
      var init, m := ms[..|ms| - 1], ms[|ms| - 1];
      OpenAINoted(digest, c, init)
      + match m
        case OpenAIMessage(Tool, Some(id), content, _) =>
          if id in c.tools && id !in OpenAIIds(init) then [OpenAIMessage(Tool, Some(id), NotedText(content), true)] else [m]
        case OpenAIMessage(Assistant, _, Some(text), _) =>
          if Recalled(digest, c, OpenAITexts(init), text)
          then [m, OpenAIMessage(User, None, Some(USER_NOTICE), false)]
          else [m]
        case _ => [m]
  }

  lemma OpenAIUsedTools(ms: seq<OpenAIMessage>)
    ensures Union(OpenAITools, ms) == OpenAIIds(ms)
  {
    forall id ensures id in Union(OpenAITools, ms) <==> id in OpenAIIds(ms) {
      InUnion(OpenAITools, ms, id);
    }
  }

  lemma OpenAIUsedText(digest: string -> string, ms: seq<OpenAIMessage>, text: string)
    ensures ContentHash(digest, text) in Union(OpenAIContentKeys(digest), ms) <==>
            exists t :: t in OpenAITexts(ms) && t != "" && Alike(digest, t, text)
  {
    var keys := OpenAIContentKeys(digest);
    InUnion(keys, ms, ContentHash(digest, text));
    forall t ensures Alike(digest, t, text) <==> ContentHash(digest, t) == ContentHash(digest, text) {
      AlikeIsSameHash(digest, t, text);
    }
    if ContentHash(digest, text) in Union(keys, ms) {
      var k :| 0 <= k < |ms| && ContentHash(digest, text) in keys(ms[k]);
      assert ms[k].content.value in OpenAITexts(ms);
    }
    if exists t :: t in OpenAITexts(ms) && t != "" && Alike(digest, t, text) {
      var t :| t in OpenAITexts(ms) && t != "" && Alike(digest, t, text);
      var k :| 0 <= k < |ms| && ms[k].role == Assistant && ms[k].content == Some(t);
      assert ContentHash(digest, text) in keys(ms[k]);
    }
  }

  lemma OpenAIStep(digest: string -> string, c: Cache, init: seq<OpenAIMessage>, m: OpenAIMessage)
    ensures var v := VisitedOpenAI(digest, Remaining(OpenAITools, OpenAIContentKeys(digest), c, init), m);
            OpenAINoted(digest, c, init + [m]) ==
            OpenAINoted(digest, c, init) + if v.matched then [v.message, OPENAI_NOTICE] else [v.message]
  {
    assert (init + [m])[..|init|] == init;
    var text := m.content.GetOr("");
    OpenAIUsedTools(init);
    OpenAIUsedText(digest, init, text);
    RemembersHash(digest, c, text);
    NotedTextOf(m.content);
    var left := Remaining(OpenAITools, OpenAIContentKeys(digest), c, init);
    Meets(OpenAITools(m), left.tools);
    Meets(OpenAIContents(digest, m), left.contents);
  }

  lemma NotedTextOf(content: Option<string>)
    ensures NotedText(content) == Some(TOOL_NOTICE + "\n\n" + content.GetOr(""))
  {
    assert TOOL_NOTICE + "\n\n" + "" == TOOL_NOTICE + "\n\n";
  }

  lemma Meets(a: set<string>, b: set<string>)
    ensures a * b == {} <==> forall x | x in a :: x !in b
  {
    if a * b == {} {
      assert forall x | x in a && x in b :: x in a * b;
    }
  }

  lemma OpenAINext(digest: string -> string, c: Cache, init: seq<OpenAIMessage>, m: OpenAIMessage)
    requires Injected(OpenAIVisitor(digest), OPENAI_NOTICE, c, init).messages == OpenAINoted(digest, c, init)
    ensures Injected(OpenAIVisitor(digest), OPENAI_NOTICE, c, init + [m]).messages == OpenAINoted(digest, c, init + [m])
  {
    OpenAIConsumes(digest, c, init);
    OpenAIStep(digest, c, init, m);
    OneMoreVisit(OpenAIVisitor(digest), OPENAI_NOTICE, c, init, m);
  }

  /** The injection is that: it depends on the messages and the cache, not on how the cache is consumed on the way. */
  lemma {:induction false} OpenAINotices(digest: string -> string, c: Cache, ms: seq<OpenAIMessage>)
    ensures Injected(OpenAIVisitor(digest), OPENAI_NOTICE, c, ms).messages == OpenAINoted(digest, c, ms)
  {
    if ms == [] {
    } else {
      var init, m := ms[..|ms| - 1], ms[|ms| - 1];
      OpenAINotices(digest, c, init);
      OpenAINext(digest, c, init, m);
      assert init + [m] == ms;
    }
  }

  // ----- Anthropic messages -----

  predicate IsResultFor(b: Block, id: string) {
    b.ToolResult? && b.toolUseId == Some(id)
  }

  /** The identifiers of the results among the blocks of users. */
  predicate HasResult(blocks: seq<Block>, id: string) {
    exists j :: 0 <= j < |blocks| && IsResultFor(blocks[j], id)
  }

  predicate HasAnthropicResult(ms: seq<AnthropicMessage>, id: string) {
    exists k :: 0 <= k < |ms| && ms[k].role == User && ms[k].content.Blocks? && HasResult(ms[k].content.blocks, id)
  }

  /** A text, or the texts of the text blocks one after the other. */
  function SaidBy(m: AnthropicMessage): string {
    match m.content
    case Str(text) => text
    case Blocks(blocks) => TextsOf(blocks)
    case NoText => ""
  }

  function TextsOf(blocks: seq<Block>): string {
    if blocks == [] then ""
    else
      match blocks[0]
      case TextPart(Some(text)) => text + TextsOf(blocks[1..])
      case _ => TextsOf(blocks[1..])
  }

  function AnthropicTexts(ms: seq<AnthropicMessage>): set<string> {
    set k | 0 <= k < |ms| && ms[k].role == Assistant :: SaidBy(ms[k])
  }

  /** The blocks of a user: the first result for each identifier of the cache that no earlier user had is noted. */
  ghost function BlocksNoted(c: Cache, earlier: seq<AnthropicMessage>, blocks: seq<Block>): seq<Block> {
    if blocks == [] then []
    else
      var init, b := blocks[..|blocks| - 1], blocks[|blocks| - 1];
      BlocksNoted(c, earlier, init)
      + match b
        case ToolResult(Some(id), content, _) =>
          if id in c.tools && !HasAnthropicResult(earlier, id) && !HasResult(init, id)
          then [ToolResult(Some(id), NotedText(content), true)]
          else [b]
        case _ => [b]
  }

  ghost function AnthropicNoted(digest: string -> string, c: Cache, ms: seq<AnthropicMessage>): seq<AnthropicMessage> {
    if ms == [] then []
    else
      var init, m := ms[..|ms| - 1], ms[|ms| - 1];
      AnthropicNoted(digest, c, init)
      + match m.role
        case User =>
          if m.content.Blocks? then [AnthropicMessage(User, Blocks(BlocksNoted(c, init, m.content.blocks)))] else [m]
        case Assistant =>
          if Recalled(digest, c, AnthropicTexts(init), SaidBy(m))
          then [m, AnthropicMessage(User, Str(USER_NOTICE))]
          else [m]
        case _ => [m]
  }

  lemma {:induction false} TextsOfSnoc(blocks: seq<Block>, b: Block)
    ensures TextsOf(blocks + [b]) == TextsOf(blocks) + if b.TextPart? then b.text.GetOr("") else ""
  {
    if blocks == [] {
      assert [b][1..] == [];
    } else {
      assert (blocks + [b])[1..] == blocks[1..] + [b];
      TextsOfSnoc(blocks[1..], b);
    }
  }

  lemma {:induction false} BlocksTextIsTexts(blocks: seq<Block>)
    ensures BlocksText(blocks) == TextsOf(blocks)
  {
    if blocks == [] {
    } else {
      var init, b := blocks[..|blocks| - 1], blocks[|blocks| - 1];
      BlocksTextIsTexts(init);
      TextsOfSnoc(init, b);
      assert init + [b] == blocks;
    }
  }

  lemma ContentTextIsSaid(m: AnthropicMessage)
    ensures ContentText(m.content) == SaidBy(m)
  {
    if m.content.Blocks? {
      BlocksTextIsTexts(m.content.blocks);
    }
  }

  lemma {:induction false} InBlockKeys(blocks: seq<Block>, id: string)
    ensures id in BlockKeys(blocks) <==> HasResult(blocks, id)
  {
    if blocks == [] {
    } else {
      var init := blocks[..|blocks| - 1];
      InBlockKeys(init, id);
      assert forall j | 0 <= j < |init| :: init[j] == blocks[j];
      assert HasResult(blocks, id) <==> HasResult(init, id) || IsResultFor(blocks[|blocks| - 1], id);
    }
  }

  lemma AnthropicUsedTool(ms: seq<AnthropicMessage>, id: string)
    ensures id in Union(AnthropicTools, ms) <==> HasAnthropicResult(ms, id)
  {
    InUnion(AnthropicTools, ms, id);
    forall k | 0 <= k < |ms| && ms[k].content.Blocks?
      ensures id in BlockKeys(ms[k].content.blocks) <==> HasResult(ms[k].content.blocks, id)
    {
      InBlockKeys(ms[k].content.blocks, id);
    }
  }

  lemma AnthropicUsedText(digest: string -> string, ms: seq<AnthropicMessage>, text: string)
    ensures ContentHash(digest, text) in Union(AnthropicContentKeys(digest), ms) <==>
            exists t :: t in AnthropicTexts(ms) && t != "" && Alike(digest, t, text)
  {
    var keys := AnthropicContentKeys(digest);
    InUnion(keys, ms, ContentHash(digest, text));
    forall t ensures Alike(digest, t, text) <==> ContentHash(digest, t) == ContentHash(digest, text) {
      AlikeIsSameHash(digest, t, text);
    }
    forall k | 0 <= k < |ms| ensures ContentText(ms[k].content) == SaidBy(ms[k]) {
      ContentTextIsSaid(ms[k]);
    }
    if ContentHash(digest, text) in Union(keys, ms) {
      var k :| 0 <= k < |ms| && ContentHash(digest, text) in keys(ms[k]);
      assert SaidBy(ms[k]) in AnthropicTexts(ms);
    }
    if exists t :: t in AnthropicTexts(ms) && t != "" && Alike(digest, t, text) {
      var t :| t in AnthropicTexts(ms) && t != "" && Alike(digest, t, text);
      var k :| 0 <= k < |ms| && ms[k].role == Assistant && SaidBy(ms[k]) == t;
      assert ContentHash(digest, text) in keys(ms[k]);
    }
  }

  lemma {:induction false} BlocksAreNoted(c: Cache, earlier: seq<AnthropicMessage>, blocks: seq<Block>)
    ensures NotedBlocks(c.tools - Union(AnthropicTools, earlier), blocks) == BlocksNoted(c, earlier, blocks)
  {
    if blocks == [] {
    } else {
      var init, b := blocks[..|blocks| - 1], blocks[|blocks| - 1];
      var left := c.tools - Union(AnthropicTools, earlier);
      BlocksAreNoted(c, earlier, init);
      Meets(BlockKey(b), left - BlockKeys(init));
      if b.ToolResult? && b.toolUseId.Some? {
        NotedTextOf(b.content);
        AnthropicUsedTool(earlier, b.toolUseId.value);
        InBlockKeys(init, b.toolUseId.value);
      }
    }
  }

  lemma AnthropicStep(digest: string -> string, c: Cache, init: seq<AnthropicMessage>, m: AnthropicMessage)
    ensures var v := VisitedAnthropic(digest, Remaining(AnthropicTools, AnthropicContentKeys(digest), c, init), m);
            AnthropicNoted(digest, c, init + [m]) ==
            AnthropicNoted(digest, c, init) + if v.matched then [v.message, ANTHROPIC_NOTICE] else [v.message]
  {
    assert (init + [m])[..|init|] == init;
    ContentTextIsSaid(m);
    AnthropicUsedText(digest, init, SaidBy(m));
    RemembersHash(digest, c, SaidBy(m));
    Meets(AnthropicContents(digest, m), Remaining(AnthropicTools, AnthropicContentKeys(digest), c, init).contents);
    if m.role == User && m.content.Blocks? {
      BlocksAreNoted(c, init, m.content.blocks);
    }
  }

  lemma AnthropicNext(digest: string -> string, c: Cache, init: seq<AnthropicMessage>, m: AnthropicMessage)
    requires Injected(AnthropicVisitor(digest), ANTHROPIC_NOTICE, c, init).messages == AnthropicNoted(digest, c, init)
    ensures Injected(AnthropicVisitor(digest), ANTHROPIC_NOTICE, c, init + [m]).messages ==
            AnthropicNoted(digest, c, init + [m])
  {
    AnthropicConsumes(digest, c, init);
    AnthropicStep(digest, c, init, m);
    OneMoreVisit(AnthropicVisitor(digest), ANTHROPIC_NOTICE, c, init, m);
  }

  lemma {:induction false} AnthropicNotices(digest: string -> string, c: Cache, ms: seq<AnthropicMessage>)
    ensures Injected(AnthropicVisitor(digest), ANTHROPIC_NOTICE, c, ms).messages == AnthropicNoted(digest, c, ms)
  {
    if ms == [] {
    } else {
      var init, m := ms[..|ms| - 1], ms[|ms| - 1];
      AnthropicNotices(digest, c, init);
      AnthropicNext(digest, c, init, m);
      assert init + [m] == ms;
    }
  }
}
