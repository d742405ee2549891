/** Whole streams through the thinking parser: what comes out does not depend on how the text is cut. */
module ThinkingStream {
  import opened Wrappers
  import opened Text
  import opened ThinkingSpec
  import opened ThinkingParser

  const TAGS := ["<thinking>", "<think>", "<reasoning>", "<thought>"]

  function ThinkingPieces(results: seq<ParseResult>): string {
    if results == [] then ""
    else ThinkingPieces(results[..|results| - 1]) + results[|results| - 1].thinking.GetOr("")
  }

  function RegularPieces(results: seq<ParseResult>): string {
    if results == [] then ""
    else RegularPieces(results[..|results| - 1]) + results[|results| - 1].regular.GetOr("")
  }

  /** Only the first piece of thinking is marked first, and nothing of the block follows a piece marked last. */
  ghost predicate MarksAreRight(results: seq<ParseResult>) {
    && (forall i {:trigger results[i].isFirst} | 0 <= i < |results| ::
          results[i].isFirst <==> results[i].thinking.Some? && NoThinking(results[..i]))
    && (forall i, j {:trigger results[i].isLast, results[j].thinking} {:trigger results[i].isLast, results[j].isLast} |
          0 <= i < j < |results| && results[i].isLast :: results[j].thinking.None? && !results[j].isLast)
  }

  ghost predicate NoThinking(results: seq<ParseResult>) {
    forall r | r in results :: r.thinking.None?
  }

  /** What a client of the given handling mode is shown of a block: tags are put back only in pass mode. */
  ghost function Shown(h: Handling, p: Parse, thinking: string, closed: bool): string {
    if thinking == "" then ""
    else
      match h
      case Remove => ""
      case Pass => if p.Plain? then thinking else Tagged(p.tag, thinking, closed)
      case AsIs => thinking
  }

  ghost function Tagged(tag: string, thinking: string, closed: bool): string {
    tag + thinking + (if closed && tag != "" && IsAscii(tag) then CloseTag(tag) else "")
  }

  /**
   * A whole stream: every chunk is fed, the parser is finalized, and each piece of thinking is rendered as it
   * comes. The thinking text is what lies between the tags, the regular text is everything else up to white space
   * behind the closing tag, and pass mode gives the block back with its tags.
   */
  method RunStream(chunks: seq<string>, mode: string, initialBufferSize: nat)
    returns (results: seq<ParseResult>, shown: string)
    ensures TagSet(TAGS, 11) && StreamIsParsed(TAGS, 11, HandlingOf(mode), chunks, results, shown)
  {
    var parser := new Parser();
    parser.handlingMode := mode;
    parser.initialBufferSize := initialBufferSize;
    results, shown := Drive(parser, chunks);
  }

  ghost predicate StreamIsParsed(tags: seq<string>, longest: nat, h: Handling, chunks: seq<string>,
                                 results: seq<ParseResult>, shown: string)
    requires TagSet(tags, longest)
  {
    var p := ParseOf(tags, longest, Concat(chunks));
    && |results| == |chunks| + 1
    && ThinkingPieces(results) == ThinkingIn(p)
    && IsRegularText(tags, longest, chunks, RegularPieces(results))
    && shown == Shown(h, p, ThinkingIn(p), true)
    && MarksAreRight(results)
  }

  method Drive(parser: Parser, chunks: seq<string>) returns (results: seq<ParseResult>, shown: string)
    requires parser.Valid() && parser.fed == []
    modifies parser
    ensures StreamIsParsed(parser.openTags, parser.longest, HandlingOf(old(parser.handlingMode)), chunks, results,
                           shown)
  {
    results, shown := [], "";
    NothingSoFar(parser.openTags, parser.longest, HandlingOf(parser.handlingMode), parser.Now());
    results, shown := TakeAll(parser, chunks);
    var r, piece := Finish(parser, results, shown);
    results, shown := results + [r], shown + piece;
  }

  method TakeAll(parser: Parser, chunks: seq<string>) returns (results: seq<ParseResult>, shown: string)
    requires parser.Valid() && parser.fed == []
    requires RunSoFar(parser.openTags, parser.longest, HandlingOf(parser.handlingMode), parser.Now(), [], "")
    modifies parser
    ensures parser.Valid() && parser.handlingMode == old(parser.handlingMode)
    ensures parser.fed == chunks && |results| == |chunks|
    ensures RunSoFar(parser.openTags, parser.longest, HandlingOf(parser.handlingMode), parser.Now(), results, shown)
  {
    if chunks == [] {
      return [], "";
    }
    var last := |chunks| - 1;
    assert chunks == chunks[..last] + [chunks[last]];
    results, shown := TakeAll(parser, chunks[..last]);
    var r, piece := Take(parser, chunks[last], results, shown);
    results, shown := results + [r], shown + piece;
  }

  /** One chunk: fed, and its thinking rendered. */
  method Take(parser: Parser, content: string, ghost results: seq<ParseResult>, ghost shown: string)
    returns (r: ParseResult, piece: string)
    requires parser.Valid()
    requires RunSoFar(parser.openTags, parser.longest, HandlingOf(parser.handlingMode), parser.Now(), results, shown)
    modifies parser
    ensures parser.Valid() && parser.handlingMode == old(parser.handlingMode)
    ensures parser.fed == old(parser.fed) + [content]
    ensures RunSoFar(parser.openTags, parser.longest, HandlingOf(parser.handlingMode), parser.Now(), results + [r],
                     shown + piece)
  {
    ghost var v0 := parser.Now();
    r := parser.Feed(content);
    piece := parser.ProcessForOutput(r.thinking.GetOr(""), r.isFirst, r.isLast).GetOr("");
    FeedStep(parser.openTags, parser.longest, HandlingOf(parser.handlingMode), v0, content, r, parser.Now(), results,
             shown, piece);
  }

  /** The end of the stream: what was held back, rendered. */
  method Finish(parser: Parser, ghost results: seq<ParseResult>, ghost shown: string)
    returns (r: ParseResult, piece: string)
    requires parser.Valid()
    requires RunSoFar(parser.openTags, parser.longest, HandlingOf(parser.handlingMode), parser.Now(), results, shown)
    modifies parser
    ensures var p := ParseOf(parser.openTags, parser.longest, Concat(old(parser.fed)));
            && ThinkingPieces(results + [r]) == ThinkingIn(p)
            && IsRegularText(parser.openTags, parser.longest, old(parser.fed), RegularPieces(results + [r]))
            && shown + piece == Shown(HandlingOf(old(parser.handlingMode)), p, ThinkingIn(p), true)
            && MarksAreRight(results + [r])
  {
    ghost var v0 := parser.Now();
    r := parser.Finalize();
    piece := parser.ProcessForOutput(r.thinking.GetOr(""), r.isFirst, r.isLast).GetOr("");
    FinalStep(parser.openTags, parser.longest, HandlingOf(parser.handlingMode), v0, r, results, shown, piece);
  }

  lemma NothingSoFar(tags: seq<string>, longest: nat, h: Handling, v: View)
    requires TagSet(tags, longest) && Consistent(tags, longest, v) && v.fed == []
    ensures RunSoFar(tags, longest, h, v, [], "")
  {
    assert tags[0] in tags && IsProperPrefix("", tags[0]);
    UndecidedIsPlain(tags, longest, "");
  }

  /** What holds between two chunks. */
  ghost predicate RunSoFar(tags: seq<string>, longest: nat, h: Handling, v: View, results: seq<ParseResult>,
                           shown: string)
    requires TagSet(tags, longest)
  {
    && OutputSoFar(h, Parsed(tags, longest, v), v, results, shown)
    && (Parsed(tags, longest, v).Closed? ==> IsRegularText(tags, longest, v.fed, v.sentRegular))
  }

  /** The results add up to what has been passed on and shown. */
  ghost predicate OutputSoFar(h: Handling, p: Parse, v: View, results: seq<ParseResult>, shown: string) {
    && ThinkingPieces(results) == v.sentThinking && RegularPieces(results) == v.sentRegular
    && MarksSoFar(v.sentThinking != "", p.Closed?, results)
    && shown == Shown(h, p, v.sentThinking, p.Closed?)
  }

  /** Every chunk after the closing one is passed on as it is. */
  lemma RegularStays(tags: seq<string>, longest: nat, chunks: seq<string>, content: string, j: nat)
    requires TagSet(tags, longest) && ClosedBy(tags, longest, chunks, j)
    ensures ClosedBy(tags, longest, chunks + [content], j)
    ensures TextBehind(tags, longest, chunks + [content], j) == TextBehind(tags, longest, chunks, j) + content
  {
    var all := chunks + [content];
    assert all[..j] == chunks[..j] && all[..j - 1] == chunks[..j - 1];
    assert all[j..] == chunks[j..] + [content];
    ConcatSnoc(chunks[j..], content);
  }

  /** The chunk that closes a block leaves its trimmed rest. */
  lemma RegularCloses(tags: seq<string>, longest: nat, chunks: seq<string>)
    requires TagSet(tags, longest) && chunks != []
    requires ParseOf(tags, longest, Concat(chunks)).Closed?
    requires !ParseOf(tags, longest, Concat(chunks[..|chunks| - 1])).Closed?
    ensures ClosedBy(tags, longest, chunks, |chunks|)
    ensures TextBehind(tags, longest, chunks, |chunks|) == TrimStart(ParseOf(tags, longest, Concat(chunks)).rest)
  {
    assert chunks[..|chunks|] == chunks;
    NothingBehind(chunks, TrimStart(ParseOf(tags, longest, Concat(chunks)).rest));
  }

  lemma NothingBehind(chunks: seq<string>, text: string)
    ensures text + Concat(chunks[|chunks|..]) == text
  {
  }

  lemma RegularGrows(tags: seq<string>, longest: nat, v0: View, content: string, r: ParseResult, v: View)
    requires TagSet(tags, longest) && v.fed == v0.fed + [content]
    requires v.sentRegular == v0.sentRegular + r.regular.GetOr("")
    requires var p, q := Parsed(tags, longest, v0), Parsed(tags, longest, v);
             && (p.Closed? ==> q.Closed? && IsRegularText(tags, longest, v0.fed, v0.sentRegular))
             && (q.Closed? ==> r.regular.GetOr("") == if p.Closed? then content else TrimStart(q.rest))
             && (q.Closed? && !p.Closed? ==> v0.sentRegular == "")
    ensures Parsed(tags, longest, v).Closed? ==> IsRegularText(tags, longest, v.fed, v.sentRegular)
  {
    var p, q := Parsed(tags, longest, v0), Parsed(tags, longest, v);
    if p.Closed? {
      var j :| ClosedBy(tags, longest, v0.fed, j) && v0.sentRegular == TextBehind(tags, longest, v0.fed, j);
      RegularStays(tags, longest, v0.fed, content, j);
    } else if q.Closed? {
      assert v.fed[..|v.fed| - 1] == v0.fed;
      RegularCloses(tags, longest, v.fed);
      assert "" + TrimStart(q.rest) == TrimStart(q.rest);
    }
  }

  ghost predicate MarksSoFar(begun: bool, closed: bool, results: seq<ParseResult>) {
    && MarksAreRight(results)
    && (forall i {:trigger results[i].isLast} | 0 <= i < |results| && results[i].isLast :: closed)
    && (begun <==> !NoThinking(results))
  }

  lemma OneMore(results: seq<ParseResult>, r: ParseResult, begun: bool, closed: bool)
    requires MarksSoFar(begun, closed, results)
    requires r.isFirst == (r.thinking.Some? && !begun)
    requires closed ==> r.thinking.None? && !r.isLast
    ensures MarksSoFar(begun || r.thinking.Some?, closed || r.isLast, results + [r])
  {
    var all := results + [r];
    assert all[|results|] == r && all[..|results|] == results;
    forall i | 0 <= i < |results|
      ensures all[i] == results[i] && all[..i] == results[..i]
    {
    }
  }

  lemma OnePiece(results: seq<ParseResult>, r: ParseResult)
    ensures ThinkingPieces(results + [r]) == ThinkingPieces(results) + r.thinking.GetOr("")
    ensures RegularPieces(results + [r]) == RegularPieces(results) + r.regular.GetOr("")
  {
    assert (results + [r])[..|results|] == results;
  }

  /** Rendering a further piece of the block shows that piece and the tags it is marked with. */
  lemma ShownGrows(h: Handling, p: Parse, q: Parse, open: Option<string>, close: Option<string>, sent: string,
                   t: Option<string>, isFirst: bool, isLast: bool)
    requires !q.Plain? ==> q.tag != "" && IsAscii(q.tag) && open == Some(q.tag) && close == Some(CloseTag(q.tag))
    requires !p.Plain? ==> !q.Plain? && p.tag == q.tag
    requires t.Some? ==> t.value != "" && !q.Plain?
    requires sent != "" ==> !p.Plain?
    requires isFirst == (t.Some? && sent == "")
    requires isLast && sent + t.GetOr("") != "" ==> t.Some?
    ensures Shown(h, p, sent, false) + Render(h, open, close, t.GetOr(""), isFirst, isLast).GetOr("") ==
            Shown(h, q, sent + t.GetOr(""), isLast)
  {
    assert sent + "" == sent;
    if t.Some? && h.Pass? {
      var tag := q.tag;
      var suffix := if isLast then CloseTag(tag) else "";
      assert tag + sent + "" + ("" + t.value + suffix) == tag + (sent + t.value) + suffix;
      assert "" + t.value == t.value;
    }
  }

  lemma FeedStep(tags: seq<string>, longest: nat, h: Handling, v0: View, content: string, r: ParseResult, v: View,
                 results: seq<ParseResult>, shown: string, piece: string)
    requires TagSet(tags, longest) && Consistent(tags, longest, v0)
    requires RunSoFar(tags, longest, h, v0, results, shown)
    requires Consistent(tags, longest, v) && Advanced(tags, longest, v0, content, r, v)
    requires piece == Render(h, v.openTag, v.closeTag, r.thinking.GetOr(""), r.isFirst, r.isLast).GetOr("")
    ensures RunSoFar(tags, longest, h, v, results + [r], shown + piece)
  {
    var p, q := Parsed(tags, longest, v0), Parsed(tags, longest, v);
    ParsesGrow(tags, longest, v0.fed, content);
    RegularGrows(tags, longest, v0, content, r, v);
    OutputGrows(h, p, q, v0, content, r, v, results, shown, piece);
  }

  lemma OutputGrows(h: Handling, p: Parse, q: Parse, v0: View, content: string, r: ParseResult, v: View,
                    results: seq<ParseResult>, shown: string, piece: string)
    requires OutputSoFar(h, p, v0, results, shown)
    requires Progress(p, q, v0, content, r, v) && SameBlock(p, q)
    requires !q.Plain? ==> q.tag != "" && IsAscii(q.tag) && v.openTag == Some(q.tag) && v.closeTag == Some(CloseTag(q.tag))
    requires (v0.sentThinking != "" ==> !p.Plain?) && (r.thinking.Some? ==> !q.Plain?)
    requires piece == Render(h, v.openTag, v.closeTag, r.thinking.GetOr(""), r.isFirst, r.isLast).GetOr("")
    ensures OutputSoFar(h, q, v, results + [r], shown + piece)
  {
    OneMore(results, r, v0.sentThinking != "", p.Closed?);
    OnePiece(results, r);
    if p.Closed? {
      assert shown + "" == shown && v0.sentThinking + "" == v0.sentThinking;
    } else {
      ShownGrows(h, p, q, v.openTag, v.closeTag, v0.sentThinking, r.thinking, r.isFirst, r.isLast);
    }
  }

  /** A block, once opened, keeps its tag, and only undecided or open text can become a closed block. */
  lemma ParsesGrow(tags: seq<string>, longest: nat, chunks: seq<string>, content: string)
    requires TagSet(tags, longest)
    ensures SameBlock(ParseOf(tags, longest, Concat(chunks)), ParseOf(tags, longest, Concat(chunks + [content])))
    ensures var p, q := ParseOf(tags, longest, Concat(chunks)), ParseOf(tags, longest, Concat(chunks + [content]));
            p.Plain? && q.Closed? ==> Undecided(tags, Concat(chunks))
  {
    ConcatSnoc(chunks, content);
    if Undecided(tags, Concat(chunks)) {
      UndecidedIsPlain(tags, longest, Concat(chunks));
    } else {
      ParseExtends(tags, longest, Concat(chunks), content);
    }
  }

  predicate SameBlock(p: Parse, q: Parse) {
    (!p.Plain? ==> !q.Plain? && p.tag == q.tag) && (p.Closed? ==> q.Closed?)
  }

  lemma FinalStep(tags: seq<string>, longest: nat, h: Handling, v: View, r: ParseResult,
                  results: seq<ParseResult>, shown: string, piece: string)
    requires TagSet(tags, longest) && Consistent(tags, longest, v)
    requires RunSoFar(tags, longest, h, v, results, shown)
    requires v.sentThinking + r.thinking.GetOr("") == ThinkingIn(Parsed(tags, longest, v))
    requires r.thinking.Some? ==> r.thinking.value != "" && v.state == InThinking
    requires r.isFirst == (r.thinking.Some? && v.sentThinking == "")
    requires r.isLast == r.thinking.Some? == (v.state == InThinking && ThinkingIn(Parsed(tags, longest, v)) != "")
    requires piece == Render(h, v.openTag, v.closeTag, r.thinking.GetOr(""), r.isFirst, r.isLast).GetOr("")
    ensures ThinkingPieces(results + [r]) == ThinkingIn(Parsed(tags, longest, v))
    ensures RegularPieces(results + [r]) == v.sentRegular + r.regular.GetOr("")
    ensures MarksAreRight(results + [r])
    ensures shown + piece == Shown(h, Parsed(tags, longest, v), ThinkingIn(Parsed(tags, longest, v)), true)
  {
    var p := Parsed(tags, longest, v);
    OneMore(results, r, v.sentThinking != "", p.Closed?);
    OnePiece(results, r);
    FinalShown(h, p, v, r);
    assert shown + "" == shown;
  }

  /** What the end of the stream adds to the shown text. */
  lemma FinalShown(h: Handling, p: Parse, v: View, r: ParseResult)
    requires !p.Plain? ==> p.tag != "" && IsAscii(p.tag) && v.openTag == Some(p.tag) && v.closeTag == Some(CloseTag(p.tag))
    requires v.sentThinking + r.thinking.GetOr("") == ThinkingIn(p)
    requires r.thinking.Some? ==> r.thinking.value != "" && p.Open?
    requires r.isFirst == (r.thinking.Some? && v.sentThinking == "")
    requires r.isLast == r.thinking.Some? == (p.Open? && ThinkingIn(p) != "")
    ensures Shown(h, p, v.sentThinking, p.Closed?) +
            Render(h, v.openTag, v.closeTag, r.thinking.GetOr(""), r.isFirst, r.isLast).GetOr("") ==
            Shown(h, p, ThinkingIn(p), true)
  {
    if p.Open? {
      ShownGrows(h, p, p, v.openTag, v.closeTag, v.sentThinking, r.thinking, r.isFirst, r.isLast);
    }
  }

  /** The text behind a closing tag, as far as it arrived with the tag, and what came in later chunks. */
  lemma RestSplits(tags: seq<string>, longest: nat, chunks: seq<string>, j: nat)
    requires TagSet(tags, longest) && ClosedBy(tags, longest, chunks, j)
    ensures ParseOf(tags, longest, Concat(chunks)).Closed?
    ensures ParseOf(tags, longest, Concat(chunks)).rest ==
            ParseOf(tags, longest, Concat(chunks[..j])).rest + Concat(chunks[j..])
  {
    var text := Concat(chunks[..j]);
    SplitAt(chunks, j);
    if Undecided(tags, text) {
      UndecidedIsPlain(tags, longest, text);
    }
    ParseExtends(tags, longest, text, Concat(chunks[j..]));
  }

  lemma SplitAt(chunks: seq<string>, j: nat)
    requires j <= |chunks|
    ensures Concat(chunks) == Concat(chunks[..j]) + Concat(chunks[j..])
  {
    assert chunks == chunks[..j] + chunks[j..];
    ConcatAppend(chunks[..j], chunks[j..]);
  }

  /** `regular` is `rest` without some of the white space it starts with. */
  ghost predicate DropsBlank(rest: string, regular: string) {
    |regular| <= |rest| && regular == rest[|rest| - |regular|..] && IsBlank(rest[..|rest| - |regular|])
  }

  /** However the text is cut, regular text behind a block is the rest but for white space at its start. */
  lemma RegularIsRest(tags: seq<string>, longest: nat, chunks: seq<string>, regular: string)
    requires TagSet(tags, longest) && IsRegularText(tags, longest, chunks, regular)
    requires ParseOf(tags, longest, Concat(chunks)).Closed?
    ensures DropsBlank(ParseOf(tags, longest, Concat(chunks)).rest, regular)
  {
    var j :| ClosedBy(tags, longest, chunks, j) && regular == TextBehind(tags, longest, chunks, j);
    TextBehindIsRest(tags, longest, chunks, j);
  }

  lemma TextBehindIsRest(tags: seq<string>, longest: nat, chunks: seq<string>, j: nat)
    requires TagSet(tags, longest) && ClosedBy(tags, longest, chunks, j)
    ensures ParseOf(tags, longest, Concat(chunks)).Closed?
    ensures DropsBlank(ParseOf(tags, longest, Concat(chunks)).rest, TextBehind(tags, longest, chunks, j))
  {
    var inChunk, later := ParseOf(tags, longest, Concat(chunks[..j])).rest, Concat(chunks[j..]);
    TrimDropsBlank(inChunk, later);
    RestSplits(tags, longest, chunks, j);
  }

  lemma TrimDropsBlank(inChunk: string, later: string)
    ensures DropsBlank(inChunk + later, TrimStart(inChunk) + later)
  {
    LeadIsMaximal(inChunk);
    assert (inChunk + later)[..Lead(inChunk)] == inChunk[..Lead(inChunk)];
  }

  /**
   * The regular text is the trimmed rest, as if everything had come in one chunk, exactly when the closing chunk
   * still holds something other than white space or the later text does not start with white space.
   */
  lemma RegularIsTrimmedRest(tags: seq<string>, longest: nat, chunks: seq<string>, j: nat)
    requires TagSet(tags, longest) && ClosedBy(tags, longest, chunks, j)
    ensures ParseOf(tags, longest, Concat(chunks)).Closed?
    ensures TextBehind(tags, longest, chunks, j) == TrimStart(ParseOf(tags, longest, Concat(chunks)).rest) <==>
            TrimStart(ParseOf(tags, longest, Concat(chunks[..j])).rest) != "" || Lead(Concat(chunks[j..])) == 0
  {
    RestSplits(tags, longest, chunks, j);
    var inChunk, later := ParseOf(tags, longest, Concat(chunks[..j])).rest, Concat(chunks[j..]);
    TrimStartConcat(inChunk, later);
    assert "" + later == later;
  }

  /** Two cuts of one text whose regular texts differ: a blank behind the closing tag in its own chunk stays. */
  lemma BlankChunkStays(tags: seq<string>, longest: nat, tag: string)
    requires TagSet(tags, longest) && tag in tags
    ensures var block := tag + CloseTag(tag);
            && Concat([block, " b"]) == Concat([block + " b"])
            && IsRegularText(tags, longest, [block, " b"], " b")
            && IsRegularText(tags, longest, [block + " b"], "b")
  {
    var block := tag + CloseTag(tag);
    OneOrTwo(block, " b");
    assert tag + (CloseTag(tag) + "") == block && tag + (CloseTag(tag) + " b") == block + " b";
    EmptyBlock(tags, longest, tag, "");
    BlankStays(tags, longest, tag, block);
    EmptyBlock(tags, longest, tag, " b");
    BlankGoes(tags, longest, tag, block);
  }

  lemma BlankStays(tags: seq<string>, longest: nat, tag: string, block: string)
    requires TagSet(tags, longest) && ParseOf(tags, longest, block) == Closed(tag, "", "")
    ensures IsRegularText(tags, longest, [block, " b"], " b")
  {
    FirstChunkCloses(tags, longest, tag, [block, " b"], "");
    assert [block, " b"][1..] == [" b"];
    OneOrTwo(block, " b");
    assert TrimStart("") + " b" == " b";
  }

  lemma BlankGoes(tags: seq<string>, longest: nat, tag: string, block: string)
    requires TagSet(tags, longest) && ParseOf(tags, longest, block + " b") == Closed(tag, "", " b")
    ensures IsRegularText(tags, longest, [block + " b"], "b")
  {
    FirstChunkCloses(tags, longest, tag, [block + " b"], " b");
    assert [block + " b"][1..] == [];
    OneOrTwo("", "");
    assert TrimStart(" b") + "" == "b" by {
      assert " b"[1..] == "b" && Lead("b") == 0;
    }
  }

  lemma FirstChunkCloses(tags: seq<string>, longest: nat, tag: string, chunks: seq<string>, behind: string)
    requires TagSet(tags, longest) && chunks != []
    requires ParseOf(tags, longest, chunks[0]) == Closed(tag, "", behind)
    ensures ParseOf(tags, longest, Concat(chunks)).Closed?
    ensures IsRegularText(tags, longest, chunks, TrimStart(behind) + Concat(chunks[1..]))
  {
    OneOrTwo(chunks[0], "");
    NothingYet(tags, longest);
    assert chunks[..1] == [chunks[0]] && chunks[..0] == [];
    assert ClosedBy(tags, longest, chunks, 1);
    RestSplits(tags, longest, chunks, 1);
  }

  lemma OneOrTwo(a: string, b: string)
    ensures Concat([a]) == a && Concat([b]) == b && Concat([a, b]) == Concat([a + b]) == a + b && Concat([]) == ""
  {
    assert Concat([a]) == a + Concat([]);
    assert Concat([b]) == b + Concat([]);
    assert [a, b][1..] == [b];
    assert Concat([a + b]) == (a + b) + Concat([]);
  }

  lemma NothingYet(tags: seq<string>, longest: nat)
    requires TagSet(tags, longest)
    ensures ParseOf(tags, longest, "").Plain?
  {
    assert tags[0] in tags && IsProperPrefix("", tags[0]);
    UndecidedIsPlain(tags, longest, "");
  }

  lemma EmptyBlock(tags: seq<string>, longest: nat, tag: string, behind: string)
    requires TagSet(tags, longest) && tag in tags
    ensures ParseOf(tags, longest, tag + (CloseTag(tag) + behind)) == Closed(tag, "", behind)
  {
    var close := CloseTag(tag);
    var body := close + behind;
    var text := tag + body;
    assert Lead(text) == 0;
    TagOfIsUnique(tags, longest, text, tag);
    assert text[|tag|..] == body;
    assert body[0..0 + |close|] == close;
    FindIs(body, close, 0);
    assert body[..0] == "" && body[|close|..] == behind;
  }
}
