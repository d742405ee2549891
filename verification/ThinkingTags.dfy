/** Thinking blocks as texts, with their tags written out: what a client gets of a stream that begins with one. */
module ThinkingTags {
  import opened Wrappers
  import opened Text
  import opened ThinkingSpec
  import opened ThinkingParser
  import opened ThinkingStream

  const PAIRS := [("<thinking>", "</thinking>"), ("<think>", "</think>"), ("<reasoning>", "</reasoning>"),
                  ("<thought>", "</thought>")]

  /** White space, a block from an opening tag up to the first closing tag of its kind, and a rest. */
  predicate IsBlock(text: string, blank: string, pair: (string, string), body: string, rest: string) {
    && IsBlank(blank) && text == blank + pair.0 + body + pair.1 + rest
    && forall j: nat | j < |body| :: !OccursAt(body + pair.1 + rest, pair.1, j)
  }

  /** White space and a block that is not closed. */
  predicate IsOpenBlock(text: string, blank: string, pair: (string, string), body: string) {
    && IsBlank(blank) && text == blank + pair.0 + body
    && forall j: nat | j <= |body| :: !OccursAt(body, pair.1, j)
  }

  /** Behind white space at the start there is no opening tag. */
  ghost predicate HasNoBlock(text: string) {
    forall i, n {:trigger PAIRS[i], text[n..]} | 0 <= i < 4 && 0 <= n <= |text| && IsBlank(text[..n]) ::
      !(PAIRS[i].0 <= text[n..])
  }

  /** What is shown of the thinking text in a handling mode. */
  function InMode(mode: string, pair: (string, string), body: string): string {
    if body == "" || mode == "remove" then ""
    else if mode == "pass" then pair.0 + body + pair.1
    else body
  }

  /**
   * For every text, every cut of it and every mode: the thinking pieces are what stands in the block, the regular
   * pieces what stands behind it, but for white space right behind the closing tag, and pass mode shows the block.
   */
  ghost predicate Separated(text: string, mode: string, thinking: string, regular: string, shown: string) {
    && (forall i, blank, body, rest | 0 <= i < 4 && IsBlock(text, blank, PAIRS[i], body, rest) ::
          thinking == body && DropsBlank(rest, regular) && shown == InMode(mode, PAIRS[i], body))
    && (forall i, blank, body | 0 <= i < 4 && IsOpenBlock(text, blank, PAIRS[i], body) ::
          thinking == body && regular == "" && shown == InMode(mode, PAIRS[i], body))
    && (HasNoBlock(text) ==> thinking == "" && regular == text && shown == "")
  }

  /** A stream through the parser, chunk by chunk. */
  method SeparateStream(chunks: seq<string>, mode: string, initialBufferSize: nat)
    returns (results: seq<ParseResult>, shown: string)
    ensures Separated(Concat(chunks), mode, ThinkingPieces(results), RegularPieces(results), shown)
  {
    results, shown := RunStream(chunks, mode, initialBufferSize);
    ParsedIsSeparated(chunks, mode, results, shown);
  }

  lemma ClosingTag(i: nat)
    requires i < 4
    ensures TAGS[i] == PAIRS[i].0 && PAIRS[i].0 != "" && IsAscii(PAIRS[i].0) && CloseTag(PAIRS[i].0) == PAIRS[i].1
    ensures PAIRS[i].0[0] == '<'
  {
  }

  lemma {:induction false} LeadOfBlank(blank: string, s: string)
    requires IsBlank(blank) && s != "" && !IsWhitespace(s[0])
    ensures TrimStart(blank + s) == s
  {
    if blank == "" {
      assert blank + s == s;
    } else {
      assert (blank + s)[1..] == blank[1..] + s;
      LeadOfBlank(blank[1..], s);
      assert TrimStart(blank + s) == TrimStart(blank[1..] + s);
    }
  }

  /** A text with white space, an opening tag and more is parsed at that tag. */
  lemma TagIsRead(blank: string, i: nat, more: string)
    requires TagSet(TAGS, 11) && i < 4 && IsBlank(blank)
    ensures PAIRS[i].0 != "" && IsAscii(PAIRS[i].0)
    ensures ParseOf(TAGS, 11, blank + (PAIRS[i].0 + more)) == ParseBody(PAIRS[i].0, more)
  {
    var tag := PAIRS[i].0;
    ClosingTag(i);
    LeadOfBlank(blank, tag + more);
    assert tag in TAGS;
    TagOfIsUnique(TAGS, 11, tag + more, tag);
    assert (tag + more)[|tag|..] == more;
  }

  lemma FirstClosing(body: string, close: string, rest: string)
    requires forall j: nat | j < |body| :: !OccursAt(body + close + rest, close, j)
    ensures var more := body + close + rest;
            Find(more, close) == Some(|body|) && more[..|body|] == body && more[|body| + |close|..] == rest
  {
    var more := body + close + rest;
    assert more[|body|..|body| + |close|] == close;
    FindIs(more, close, |body|);
  }

  lemma Associates(blank: string, open: string, body: string, close: string, rest: string)
    ensures blank + open + body + close + rest == blank + (open + (body + close + rest))
    ensures blank + open + body == blank + (open + body)
  {
  }

  lemma BlockIsClosed(text: string, blank: string, i: nat, body: string, rest: string)
    requires TagSet(TAGS, 11) && i < 4 && IsBlock(text, blank, PAIRS[i], body, rest)
    ensures ParseOf(TAGS, 11, text) == Closed(PAIRS[i].0, body, rest)
  {
    ClosingTag(i);
    TagIsRead(blank, i, body + PAIRS[i].1 + rest);
    Associates(blank, PAIRS[i].0, body, PAIRS[i].1, rest);
    FirstClosing(body, PAIRS[i].1, rest);
  }

  lemma NeverClosing(body: string, close: string)
    requires forall j: nat | j <= |body| :: !OccursAt(body, close, j)
    ensures Find(body, close).None?
  {
  }

  lemma BlockIsOpen(text: string, blank: string, i: nat, body: string)
    requires TagSet(TAGS, 11) && i < 4 && IsOpenBlock(text, blank, PAIRS[i], body)
    ensures ParseOf(TAGS, 11, text) == Open(PAIRS[i].0, body)
  {
    ClosingTag(i);
    TagIsRead(blank, i, body);
    Associates(blank, PAIRS[i].0, body, "", "");
    NeverClosing(body, PAIRS[i].1);
  }

  lemma NoBlockIsPlain(text: string)
    requires TagSet(TAGS, 11) && HasNoBlock(text)
    ensures ParseOf(TAGS, 11, text).Plain?
  {
    var n := Lead(text);
    LeadIsMaximal(text);
    assert text[n..] == TrimStart(text);
    forall tag | tag in TAGS
      ensures !IsPrefix(tag, TrimStart(text))
    {
      var i: nat :| i < 4 && TAGS[i] == tag;
      ClosingTag(i);
      assert !(PAIRS[i].0 <= text[n..]);
    }
  }

  lemma ShownInMode(mode: string, p: Parse, i: nat, body: string)
    requires i < 4 && ThinkingIn(p) == body && !p.Plain? && p.tag == PAIRS[i].0
    ensures Shown(HandlingOf(mode), p, body, true) == InMode(mode, PAIRS[i], body)
  {
    ClosingTag(i);
  }

  lemma ParsedIsSeparated(chunks: seq<string>, mode: string, results: seq<ParseResult>, shown: string)
    requires TagSet(TAGS, 11) && StreamIsParsed(TAGS, 11, HandlingOf(mode), chunks, results, shown)
    ensures Separated(Concat(chunks), mode, ThinkingPieces(results), RegularPieces(results), shown)
  {
    var text, regular := Concat(chunks), RegularPieces(results);
    var p := ParseOf(TAGS, 11, text);
    forall i: int, blank, body, rest | 0 <= i < 4 && IsBlock(text, blank, PAIRS[i], body, rest)
      ensures ThinkingIn(p) == body && DropsBlank(rest, regular) && shown == InMode(mode, PAIRS[i], body)
    {
      BlockIsClosed(text, blank, i, body, rest);
      RegularIsRest(TAGS, 11, chunks, regular);
      ShownInMode(mode, p, i, body);
    }
    forall i: int, blank, body | 0 <= i < 4 && IsOpenBlock(text, blank, PAIRS[i], body)
      ensures ThinkingIn(p) == body && regular == "" && shown == InMode(mode, PAIRS[i], body)
    {
      BlockIsOpen(text, blank, i, body);
      ShownInMode(mode, p, i, body);
    }
    if HasNoBlock(text) {
      NoBlockIsPlain(text);
    }
  }
}
