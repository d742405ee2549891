/** The incremental parser that separates a leading thinking block from the regular text of a stream. */
module ThinkingParser {
  import opened Wrappers
  import opened Text
  import opened ThinkingSpec

  datatype ParserState = PreContent | InThinking | Streaming

  datatype ParseResult = ParseResult(
    thinking: Option<string>,
    regular: Option<string>,
    isFirst: bool,
    isLast: bool,
    stateChanged: bool)

  const NOTHING := ParseResult(None, None, false, false, false)

  /** The handling modes that `process_for_output` tells apart. */
  datatype Handling = Remove | Pass | AsIs

  function HandlingOf(mode: string): Handling {
    if mode == "remove" then Remove else if mode == "pass" then Pass else AsIs
  }

  /** `process_for_output`: one piece of thinking text in the given handling mode. */
  function Render(h: Handling, open: Option<string>, close: Option<string>, thinking: string, isFirst: bool,
                  isLast: bool): Option<string> {
    if thinking == "" then None
    else
      match h
      case Remove => None
      case Pass =>
        Some((if isFirst then open.GetOr("") else "") + thinking + (if isLast then close.GetOr("") else ""))
      case AsIs => Some(thinking)
  }

  class Parser {
    var handlingMode: string
    const openTags: seq<string>
    var initialBufferSize: nat
    const maxTagLength: nat
    var state: ParserState
    var initialBuffer: string
    var thinkingBuffer: string
    var openTag: Option<string>
    var closeTag: Option<string>
    var isFirstThinkingChunk: bool
    var thinkingBlockFound: bool

    /** Length of the longest opening tag. */
    ghost const longest: nat
    /** What has been fed, and what has been passed on. */
    ghost var fed: seq<string>
    ghost var sentThinking: string
    ghost var sentRegular: string

    constructor ()
      ensures Valid() && fed == [] && handlingMode == "as_reasoning_content" && initialBufferSize == 20
      ensures openTags == ["<thinking>", "<think>", "<reasoning>", "<thought>"] && longest == 11 && maxTagLength == 22
    {
      handlingMode := "as_reasoning_content";
      openTags := ["<thinking>", "<think>", "<reasoning>", "<thought>"];
      initialBufferSize := 20;
      longest := 11;
      maxTagLength := 22;
      state := PreContent;
      initialBuffer := "";
      thinkingBuffer := "";
      openTag := None;
      closeTag := None;
      isFirstThinkingChunk := true;
      thinkingBlockFound := false;
      fed := [];
      sentThinking := "";
      sentRegular := "";
      new;
      DefaultTags(openTags);
      FreshIsConsistent(openTags, longest);
    }

    static lemma DefaultTags(tags: seq<string>)
      requires tags == ["<thinking>", "<think>", "<reasoning>", "<thought>"]
      ensures TagSet(tags, 11)
    {
      forall a, b | a in tags && b in tags && IsPrefix(a, b)
        ensures a == b
      {
        assert a == b[..|a|];
        assert a[3] == b[3] && a[6] == b[6];
      }
    }

    ghost function Now(): View
      reads this
    {
      View(state, initialBuffer, thinkingBuffer, openTag, closeTag, isFirstThinkingChunk, fed, sentThinking,
           sentRegular)
    }

    ghost predicate Valid()
      reads this
    {
      TagSet(openTags, longest) && maxTagLength == 2 * longest && Consistent(openTags, longest, Now())
    }

    /** Whether `text` could be the start of any opening tag. */
    method CouldBeTagPrefix(text: string) returns (b: bool)
      ensures b <==> text == "" || exists tag | tag in openTags :: text <= tag
    {
      if text == "" {
        return true;
      }
      for i := 0 to |openTags|
        invariant forall j | 0 <= j < i :: !(text <= openTags[j])
      {
        if text <= openTags[i] {
          assert openTags[i] in openTags;
          return true;
        }
      }
      return false;
    }

    method HandlePreContent(content: string) returns (r: ParseResult)
      requires TagSet(openTags, longest) && state == PreContent
      modifies this
      ensures unchanged(`handlingMode, `initialBufferSize)
      ensures Detected(openTags, longest, old(Now()), old(initialBuffer) + content, r, Now())
    {
      r := NOTHING;
      initialBuffer := initialBuffer + content;
      var stripped := TrimStart(initialBuffer);
      assert openTags[0] in openTags && IsProperPrefix("", openTags[0]);
      for i := 0 to |openTags|
        invariant forall j | 0 <= j < i :: !IsPrefix(openTags[j], stripped)
      {
        var tag := openTags[i];
        if tag <= stripped {
          TagOfIsUnique(openTags, longest, stripped, tag);
          state := InThinking;
          openTag := Some(tag);
          closeTag := Some(CloseTag(tag));
          thinkingBlockFound := true;
          r := r.(stateChanged := true);
          thinkingBuffer := stripped[|tag|..];
          initialBuffer := "";
          return;
        }
      }
      for i := 0 to |openTags|
        invariant forall j | 0 <= j < i :: !IsProperPrefix(stripped, openTags[j])
      {
        if stripped <= openTags[i] && |stripped| < |openTags[i]| {
          assert openTags[i] in openTags && IsProperPrefix(stripped, openTags[i]);
          return;
        }
      }
      assert stripped != "";
      var couldBe := CouldBeTagPrefix(stripped);
      if ByteLen(initialBuffer) > initialBufferSize || !couldBe {
        state := Streaming;
        r := r.(stateChanged := true, regular := Some(initialBuffer));
        initialBuffer := "";
      }
    }

    /** The last character boundary at or before byte `splitPoint`, as a character index. */
    static method SafeSplit(s: string, splitPoint: nat) returns (k: nat)
      requires s != "" && splitPoint < ByteLen(s)
      ensures k < |s| && ByteLen(s[..k]) <= splitPoint < ByteLen(s[..k + 1])
    {
      k := 0;
      var bytes := Utf8Width(s[0]);
      assert s[..1] == [s[0]] && s[..|s|] == s;
      assert ByteLen(s[..1]) == bytes;
      while k + 1 < |s| && bytes <= splitPoint
        invariant k < |s| && bytes == ByteLen(s[..k + 1])
        invariant ByteLen(s[..k]) <= splitPoint
      {
        k := k + 1;
        assert s[..k + 1] == s[..k] + [s[k]];
        ByteLenConcat(s[..k], [s[k]]);
        bytes := bytes + Utf8Width(s[k]);
      }
    }

    method ProcessThinkingBuffer() returns (r: ParseResult)
      requires state == InThinking && closeTag.Some?
      requires 0 < maxTagLength
      modifies this
      ensures unchanged(`handlingMode, `initialBufferSize)
      ensures Searched(maxTagLength, old(Now()), old(thinkingBuffer), |old(closeTag).value|,
                       Find(old(thinkingBuffer), old(closeTag).value), r, Now())
    {
      r := NOTHING;
      var close := closeTag.value;
      var found := Find(thinkingBuffer, close);
      if found.Some? {
        var idx := found.value;
        var thinkingContent := thinkingBuffer[..idx];
        var afterTag := thinkingBuffer[idx + |close|..];
        if thinkingContent != "" {
          r := r.(thinking := Some(thinkingContent), isFirst := isFirstThinkingChunk);
          isFirstThinkingChunk := false;
        }
        r := r.(isLast := true);
        state := Streaming;
        r := r.(stateChanged := true);
        thinkingBuffer := "";
        var strippedAfter := TrimStart(afterTag);
        if strippedAfter != "" {
          r := r.(regular := Some(strippedAfter));
        }
        return;
      }
      if ByteLen(thinkingBuffer) > maxTagLength {
        var splitPoint := ByteLen(thinkingBuffer) - maxTagLength;
        var k := SafeSplit(thinkingBuffer, splitPoint);
        SplitSizes(thinkingBuffer, k);
        if k > 0 {
          var sendPart := thinkingBuffer[..k];
          thinkingBuffer := thinkingBuffer[k..];
          r := r.(thinking := Some(sendPart), isFirst := isFirstThinkingChunk);
          isFirstThinkingChunk := false;
        }
      }
    }

    static lemma SplitSizes(s: string, k: nat)
      requires k < |s|
      ensures ByteLen(s) == ByteLen(s[..k]) + ByteLen(s[k..])
      ensures ByteLen(s[..k + 1]) <= ByteLen(s[..k]) + 4
    {
      assert s == s[..k] + s[k..];
      ByteLenConcat(s[..k], s[k..]);
      assert s[..k + 1] == s[..k] + [s[k]];
      ByteLenConcat(s[..k], [s[k]]);
    }

    method HandleInThinking(content: string) returns (r: ParseResult)
      requires state == InThinking && closeTag.Some?
      requires 0 < maxTagLength
      modifies this
      ensures unchanged(`handlingMode, `initialBufferSize)
      ensures Searched(maxTagLength, old(Now()), old(thinkingBuffer) + content, |old(closeTag).value|,
                       Find(old(thinkingBuffer) + content, old(closeTag).value), r, Now())
    {
      thinkingBuffer := thinkingBuffer + content;
      r := ProcessThinkingBuffer();
    }

    /** Appends a chunk and what was passed on for it to the history. */
    ghost method Record(content: string, r: ParseResult)
      modifies `fed, `sentThinking, `sentRegular
      ensures Now() == Recorded(old(Now()), content, r)
    {
      fed := fed + [content];
      sentThinking := sentThinking + r.thinking.GetOr("");
      sentRegular := sentRegular + r.regular.GetOr("");
    }

    /** `feed`: the next chunk of the stream. */
    method Feed(content: string) returns (r: ParseResult)
      requires Valid()
      modifies this
      ensures Valid() && handlingMode == old(handlingMode)
      ensures Advanced(openTags, longest, old(Now()), content, r, Now())
    {
      ghost var v0 := Now();
      r := NOTHING;
      if content != "" {
        match state
        case PreContent =>
          r := HandlePreContent(content);
          if state == InThinking && r.stateChanged {
            ghost var v, d := Now(), r;
            var t := ProcessThinkingBuffer();
            if t.thinking.Some? {
              r := r.(thinking := t.thinking, isFirst := t.isFirst);
            }
            if t.isLast {
              r := r.(isLast := true);
            }
            if t.regular.Some? {
              r := r.(regular := t.regular);
            }
            BlockOpens(openTags, longest, v0, content, v, t, Now());
          } else {
            NoBlockYet(openTags, longest, v0, content, r, Now());
          }
        case InThinking =>
          r := HandleInThinking(content);
          BlockContinues(openTags, longest, v0, content, r, Now());
        case Streaming =>
          r := r.(regular := Some(content));
          PassesOn(openTags, longest, v0, content);
      } else {
        NothingFed(openTags, longest, v0);
      }
      Record(content, r);
    }

    /** `finalize`: flushes what is still held back when the stream ends. */
    method Finalize() returns (r: ParseResult)
      requires Valid()
      modifies this
      ensures unchanged(`handlingMode, `state, `openTag, `closeTag, `fed) && initialBuffer == "" && thinkingBuffer == ""
      ensures sentThinking == old(sentThinking) + r.thinking.GetOr("") == ThinkingIn(old(Parsed(openTags, longest, Now())))
      ensures sentRegular == old(sentRegular) + r.regular.GetOr("")
      ensures old(Parsed(openTags, longest, Now()).Plain?) ==> sentRegular == Concat(fed)
      ensures !old(Parsed(openTags, longest, Now()).Plain?) ==> sentRegular == old(sentRegular)
      ensures r.thinking.Some? ==> r.thinking.value != "" && state == InThinking
      ensures r.isFirst == (r.thinking.Some? && old(sentThinking) == "")
      ensures r.isLast == r.thinking.Some? == (state == InThinking && sentThinking != "")
    {
      Flushes(openTags, longest, Now());
      r := NOTHING;
      if thinkingBuffer != "" {
        if state == InThinking {
          r := r.(thinking := Some(thinkingBuffer), isFirst := isFirstThinkingChunk, isLast := true);
        } else {
          r := r.(regular := Some(thinkingBuffer));
        }
        thinkingBuffer := "";
      }
      if initialBuffer != "" {
        var existing := r.regular.GetOr("");
        r := r.(regular := Some(existing + initialBuffer));
        initialBuffer := "";
      }
      sentThinking := sentThinking + r.thinking.GetOr("");
      sentRegular := sentRegular + r.regular.GetOr("");
    }

    /** `process_for_output`. */
    function ProcessForOutput(thinking: string, isFirst: bool, isLast: bool): Option<string>
      reads this
    {
      Render(HandlingOf(handlingMode), openTag, closeTag, thinking, isFirst, isLast)
    }
  }

  /** The fields of a parser that feeding changes, with what has been fed and passed on. */
  datatype View = View(
    state: ParserState,
    initialBuffer: string,
    thinkingBuffer: string,
    openTag: Option<string>,
    closeTag: Option<string>,
    isFirst: bool,
    fed: seq<string>,
    sentThinking: string,
    sentRegular: string)

  ghost function Parsed(tags: seq<string>, longest: nat, v: View): Parse
    requires TagSet(tags, longest)
  {
    ParseOf(tags, longest, Concat(v.fed))
  }

  /** The state tells how the text fed so far parses, and nothing of it is lost. */
  ghost predicate Consistent(tags: seq<string>, longest: nat, v: View)
    requires TagSet(tags, longest)
  {
    Describes(tags, longest, Concat(v.fed), Parsed(tags, longest, v), v)
  }

  ghost predicate Describes(tags: seq<string>, longest: nat, text: string, p: Parse, v: View) {
    && StateMatches(tags, text, p, v) && BuffersMatch(longest, text, p, v)
    && (!p.Closed? ==> v.sentRegular == if v.state == Streaming then text else "")
  }

  ghost predicate StateMatches(tags: seq<string>, text: string, p: Parse, v: View) {
    && (v.state == PreContent <==> Undecided(tags, text))
    && (v.state == InThinking <==> p.Open?)
    && (p.Plain? ==> v.openTag == None && v.closeTag == None)
    && (!p.Plain? ==>
          p.tag in tags && p.tag != "" && IsAscii(p.tag) && v.openTag == Some(p.tag) && v.closeTag == Some(CloseTag(p.tag)))
  }

  ghost predicate BuffersMatch(longest: nat, text: string, p: Parse, v: View) {
    && v.initialBuffer == (if v.state == PreContent then text else "")
    && (v.state != InThinking ==> v.thinkingBuffer == "")
    && v.sentThinking + v.thinkingBuffer == ThinkingIn(p)
    && v.isFirst == (v.sentThinking == "")
    && ByteLen(v.thinkingBuffer) <= 2 * longest + 3
    && (v.state == InThinking && v.sentThinking != "" ==> 2 * longest <= ByteLen(v.thinkingBuffer))
  }

  function NonEmpty(s: string): Option<string> {
    if s == "" then None else Some(s)
  }

  /** What looking for an opening tag in `text` leaves behind. */
  ghost predicate Detected(tags: seq<string>, longest: nat, v0: View, text: string, r: ParseResult, v: View)
    requires TagSet(tags, longest)
  {
    var s := TrimStart(text);
    if StartsWithTag(tags, s) then
      var tag := TagOf(tags, s);
      && r == NOTHING.(stateChanged := true)
      && v == v0.(state := InThinking, initialBuffer := "", thinkingBuffer := s[|tag|..], openTag := Some(tag),
                  closeTag := Some(CloseTag(tag)))
    else if MayBecomeTag(tags, s) then
      r == NOTHING && v == v0.(initialBuffer := text)
    else
      && r == NOTHING.(regular := Some(text), stateChanged := true)
      && v == v0.(state := Streaming, initialBuffer := "")
  }

  /** What one look for the closing tag in `buffer` passes on and keeps. */
  ghost predicate Searched(maxTagLength: nat, v0: View, buffer: string, closeLength: nat, found: Option<nat>,
                           r: ParseResult, v: View) {
    && r.isFirst == (r.thinking.Some? && v0.isFirst)
    && match found
       case Some(i) =>
         && i + closeLength <= |buffer|
         && r.thinking == NonEmpty(buffer[..i])
         && r.regular == NonEmpty(TrimStart(buffer[i + closeLength..]))
         && r.isLast && r.stateChanged
         && v == v0.(state := Streaming, thinkingBuffer := "", isFirst := v0.isFirst && r.thinking.None?)
       case None =>
         && v == v0.(thinkingBuffer := v.thinkingBuffer, isFirst := v0.isFirst && r.thinking.None?)
         && buffer == r.thinking.GetOr("") + v.thinkingBuffer
         && r.regular == None && !r.isLast && !r.stateChanged
         && ByteLen(v.thinkingBuffer) <= maxTagLength + 3
         && (r.thinking.Some? ==> r.thinking.value != "" && maxTagLength <= ByteLen(v.thinkingBuffer))
  }

  function Recorded(v: View, content: string, r: ParseResult): View {
    v.(fed := v.fed + [content],
       sentThinking := v.sentThinking + r.thinking.GetOr(""),
       sentRegular := v.sentRegular + r.regular.GetOr(""))
  }

  /** What feeding one chunk does: the passed-on texts grow, and the marks are set where they belong. */
  ghost predicate Advanced(tags: seq<string>, longest: nat, v0: View, content: string, r: ParseResult, v: View)
    requires TagSet(tags, longest)
  {
    Progress(Parsed(tags, longest, v0), Parsed(tags, longest, v), v0, content, r, v)
  }

  ghost predicate Progress(p: Parse, q: Parse, v0: View, content: string, r: ParseResult, v: View) {
    && v.fed == v0.fed + [content]
    && v.sentThinking == v0.sentThinking + r.thinking.GetOr("")
    && v.sentRegular == v0.sentRegular + r.regular.GetOr("")
    && (r.thinking.Some? ==> r.thinking.value != "" && !p.Closed?)
    && r.isFirst == (r.thinking.Some? && v0.sentThinking == "")
    && r.isLast == (!p.Closed? && q.Closed?)
    && (r.isLast && v.sentThinking != "" ==> r.thinking.Some?)
    && (q.Closed? ==> r.regular.GetOr("") == if p.Closed? then content else TrimStart(q.rest))
    && r.stateChanged == (v.state != v0.state)
  }

  lemma FreshIsConsistent(tags: seq<string>, longest: nat)
    requires TagSet(tags, longest)
    ensures Consistent(tags, longest, View(PreContent, "", "", None, None, true, [], "", ""))
  {
    assert tags[0] in tags && IsProperPrefix("", tags[0]);
    UndecidedIsPlain(tags, longest, "");
  }

  lemma NothingFed(tags: seq<string>, longest: nat, v0: View)
    requires TagSet(tags, longest) && Consistent(tags, longest, v0)
    ensures Consistent(tags, longest, Recorded(v0, "", NOTHING))
    ensures Advanced(tags, longest, v0, "", NOTHING, Recorded(v0, "", NOTHING))
  {
    ConcatSnoc(v0.fed, "");
    assert Concat(v0.fed) + "" == Concat(v0.fed);
  }

  lemma PassesOn(tags: seq<string>, longest: nat, v0: View, content: string)
    requires TagSet(tags, longest) && Consistent(tags, longest, v0) && v0.state == Streaming
    ensures var r := NOTHING.(regular := Some(content));
            && Consistent(tags, longest, Recorded(v0, content, r))
            && Advanced(tags, longest, v0, content, r, Recorded(v0, content, r))
  {
    var text := Concat(v0.fed);
    ConcatSnoc(v0.fed, content);
    ParseExtends(tags, longest, text, content);
    StaysDecided(tags, longest, text, content);
  }

  lemma NoBlockYet(tags: seq<string>, longest: nat, v0: View, content: string, r: ParseResult, v: View)
    requires TagSet(tags, longest) && Consistent(tags, longest, v0) && v0.state == PreContent
    requires Detected(tags, longest, v0, v0.initialBuffer + content, r, v) && v.state != InThinking
    ensures Consistent(tags, longest, Recorded(v, content, r))
    ensures Advanced(tags, longest, v0, content, r, Recorded(v, content, r))
  {
    ConcatSnoc(v0.fed, content);
    UndecidedIsPlain(tags, longest, Concat(v0.fed));
  }

  lemma SentAndKept(sent: string, t: Option<string>, kept: string, back: string)
    requires back == t.GetOr("") + kept
    ensures sent + t.GetOr("") + kept == sent + back
  {
    ConcatAssociative(sent, t.GetOr(""), kept);
  }

  lemma SentAll(sent: string, t: string)
    ensures sent + NonEmpty(t).GetOr("") + "" == sent + t
  {
  }

  /** Without a closing tag in sight, what is passed on and what is kept make up the block so far. */
  lemma SearchHolds(tags: seq<string>, longest: nat, text: string, tag: string, back: string, q: Parse,
                    v0: View, content: string, r: ParseResult, v: View)
    requires StateMatches(tags, text, q, v)
    requires v0.state == InThinking && v0.initialBuffer == "" && v0.isFirst == (v0.sentThinking == "")
    requires v0.sentThinking != "" ==> 2 * longest <= ByteLen(back)
    requires Searched(2 * longest, v0, back, |tag| + 1, None, r, v)
    requires q == Open(tag, v0.sentThinking + back)
    ensures BuffersMatch(longest, text, q, Recorded(v, content, r))
  {
    SentAndKept(v0.sentThinking, r.thinking, v.thinkingBuffer, back);
    if r.thinking == None {
      assert "" + v.thinkingBuffer == v.thinkingBuffer;
    }
  }

  /** With one, the block is complete. */
  lemma SearchCloses(tags: seq<string>, longest: nat, text: string, tag: string, back: string, i: nat, q: Parse,
                     v0: View, content: string, r: ParseResult, v: View)
    requires StateMatches(tags, text, q, v)
    requires v0.state == InThinking && v0.initialBuffer == "" && v0.isFirst == (v0.sentThinking == "")
    requires Searched(2 * longest, v0, back, |tag| + 1, Some(i), r, v)
    requires BufferedParse(tag, v0.sentThinking, back, Some(i), q)
    ensures BuffersMatch(longest, text, q, Recorded(v, content, r))
    ensures v0.sentThinking + r.thinking.GetOr("") != "" ==> r.thinking.Some?
  {
    SentAll(v0.sentThinking, back[..i]);
  }

  /** One look at the buffer keeps the parser in step with the text, whatever was passed on before. */
  lemma SearchKeeps(tags: seq<string>, longest: nat, text: string, tag: string, back: string, found: Option<nat>,
                    q: Parse, v0: View, content: string, r: ParseResult, v: View)
    requires tag in tags && tag != "" && IsAscii(tag) && !Undecided(tags, text)
    requires v0.openTag == Some(tag) && v0.closeTag == Some(CloseTag(tag)) && v0.state == InThinking
    requires v0.initialBuffer == "" && v0.isFirst == (v0.sentThinking == "")
    requires v0.sentThinking != "" ==> 2 * longest <= ByteLen(back)
    requires Searched(2 * longest, v0, back, |tag| + 1, found, r, v)
    requires BufferedParse(tag, v0.sentThinking, back, found, q)
    ensures StateMatches(tags, text, q, v) && BuffersMatch(longest, text, q, Recorded(v, content, r))
    ensures r.isLast == q.Closed? == r.stateChanged
    ensures v0.sentThinking + r.thinking.GetOr("") != "" && r.isLast ==> r.thinking.Some?
  {
    if found.None? {
      SearchHolds(tags, longest, text, tag, back, q, v0, content, r, v);
    } else {
      SearchCloses(tags, longest, text, tag, back, found.value, q, v0, content, r, v);
    }
  }

  /** The same with the regular text, for a block that was or was not open before. */
  lemma SearchDescribes(tags: seq<string>, longest: nat, text: string, tag: string, back: string, found: Option<nat>,
                        q: Parse, v0: View, content: string, r: ParseResult, v: View)
    requires tag in tags && tag != "" && IsAscii(tag) && !Undecided(tags, text)
    requires v0.openTag == Some(tag) && v0.closeTag == Some(CloseTag(tag)) && v0.state == InThinking
    requires v0.initialBuffer == "" && v0.isFirst == (v0.sentThinking == "") && v0.sentRegular == ""
    requires v0.sentThinking != "" ==> 2 * longest <= ByteLen(back)
    requires Searched(2 * longest, v0, back, |tag| + 1, found, r, v)
    requires BufferedParse(tag, v0.sentThinking, back, found, q)
    ensures Describes(tags, longest, text, q, Recorded(v, content, r))
    ensures r.isLast == q.Closed? == r.stateChanged
    ensures v0.sentThinking + r.thinking.GetOr("") != "" && r.isLast ==> r.thinking.Some?
    ensures r.thinking.Some? ==> r.thinking.value != ""
    ensures r.isFirst == (r.thinking.Some? && v0.sentThinking == "")
    ensures r.regular.GetOr("") == if q.Closed? then TrimStart(q.rest) else ""
    ensures v.fed == v0.fed && v.sentThinking == v0.sentThinking && v.sentRegular == ""
  {
    SearchKeeps(tags, longest, text, tag, back, found, q, v0, content, r, v);
  }

  lemma BlockContinues(tags: seq<string>, longest: nat, v0: View, content: string, r: ParseResult, v: View)
    requires TagSet(tags, longest) && Consistent(tags, longest, v0) && v0.state == InThinking
    requires var back := v0.thinkingBuffer + content;
             Searched(2 * longest, v0, back, |v0.closeTag.value|, Find(back, v0.closeTag.value), r, v)
    ensures Consistent(tags, longest, Recorded(v, content, r))
    ensures Advanced(tags, longest, v0, content, r, Recorded(v, content, r))
  {
    var text := Concat(v0.fed);
    var tag, back := v0.openTag.value, v0.thinkingBuffer + content;
    ConcatSnoc(v0.fed, content);
    BufferedSearch(tags, longest, text, tag, v0.sentThinking, v0.thinkingBuffer, content);
    StaysDecided(tags, longest, text, content);
    ByteLenConcat(v0.thinkingBuffer, content);
    SearchDescribes(tags, longest, text + content, tag, back, Find(back, CloseTag(tag)),
                    ParseOf(tags, longest, text + content), v0, content, r, v);
  }

  /** A detected opening tag is the one the text parses with. */
  lemma DetectedOpens(tags: seq<string>, longest: nat, v0: View, text: string, r: ParseResult, v: View)
    requires TagSet(tags, longest) && v0.state == PreContent
    requires Detected(tags, longest, v0, text, r, v) && v.state == InThinking
    ensures !Undecided(tags, text)
    ensures v.openTag.Some? && v.openTag.value in tags && v.closeTag == Some(CloseTag(v.openTag.value))
    ensures ParseOf(tags, longest, text) == ParseBody(v.openTag.value, v.thinkingBuffer)
    ensures v == v0.(state := InThinking, initialBuffer := "", thinkingBuffer := v.thinkingBuffer, openTag := v.openTag,
                     closeTag := v.closeTag)
  {
    if Undecided(tags, text) {
      UndecidedIsPlain(tags, longest, text);
    }
  }

  lemma FreshBlock(tag: string, back: string)
    requires tag != "" && IsAscii(tag)
    ensures BufferedParse(tag, "", back, Find(back, CloseTag(tag)), ParseBody(tag, back))
  {
    assert forall s: string :: "" + s == s;
  }

  lemma BlockOpens(tags: seq<string>, longest: nat, v0: View, content: string, v1: View, t: ParseResult, v: View)
    requires TagSet(tags, longest) && Consistent(tags, longest, v0) && v0.state == PreContent
    requires Detected(tags, longest, v0, v0.initialBuffer + content, NOTHING.(stateChanged := true), v1)
    requires v1.state == InThinking && v1.closeTag.Some?
    requires var back := v1.thinkingBuffer;
             Searched(2 * longest, v1, back, |v1.closeTag.value|, Find(back, v1.closeTag.value), t, v)
    ensures Consistent(tags, longest, Recorded(v, content, t))
    ensures Advanced(tags, longest, v0, content, t.(stateChanged := true), Recorded(v, content, t))
  {
    var text := Concat(v0.fed);
    ConcatSnoc(v0.fed, content);
    UndecidedIsPlain(tags, longest, text);
    DetectedOpens(tags, longest, v0, text + content, NOTHING.(stateChanged := true), v1);
    var tag, back := v1.openTag.value, v1.thinkingBuffer;
    FreshBlock(tag, back);
    SearchDescribes(tags, longest, text + content, tag, back, Find(back, CloseTag(tag)),
                    ParseOf(tags, longest, text + content), v1, content, t, v);
  }

  lemma Flushes(tags: seq<string>, longest: nat, v: View)
    requires TagSet(tags, longest) && Consistent(tags, longest, v)
    ensures v.sentThinking + v.thinkingBuffer == ThinkingIn(Parsed(tags, longest, v))
    ensures Parsed(tags, longest, v).Plain? ==> v.sentRegular + v.initialBuffer == Concat(v.fed)
    ensures !Parsed(tags, longest, v).Plain? ==> v.initialBuffer == ""
    ensures v.state == PreContent ==> v.sentThinking == ""
    ensures v.state == InThinking && v.thinkingBuffer == "" ==> v.sentThinking == ""
    ensures v.state != InThinking ==> v.thinkingBuffer == ""
    ensures v.isFirst == (v.sentThinking == "")
    ensures v.state == InThinking ==> v.initialBuffer == "" && v.sentRegular == ""
  {
    if v.state == PreContent {
      UndecidedIsPlain(tags, longest, Concat(v.fed));
    }
  }

  /**
   * Cautious sending: inside a block at most three bytes more than `max_tag_length` are held back, and whatever
   * follows, no closing tag contains or begins in what has been sent.
   */
  lemma HeldBack(tags: seq<string>, longest: nat, v: View, more: string)
    requires TagSet(tags, longest) && Consistent(tags, longest, v) && v.state == InThinking
    ensures ByteLen(v.thinkingBuffer) <= 2 * longest + 3
    ensures forall k: nat | k < |v.sentThinking| ::
              !OccursAt(v.sentThinking + (v.thinkingBuffer + more), v.closeTag.value, k)
  {
    HoldBack(v.sentThinking, v.thinkingBuffer, more, v.closeTag.value);
  }
}
