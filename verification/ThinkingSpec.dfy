/** What a text with a leading thinking block means, independently of how it is cut into chunks. */
module ThinkingSpec {
  import opened Wrappers
  import opened Text

  /** Opening tags of which none begins another; `longest` bounds their lengths. */
  ghost predicate TagSet(tags: seq<string>, longest: nat) {
    && tags != []
    && (forall tag | tag in tags :: IsTag(tag, longest))
    && (forall a, b {:trigger IsPrefix(a, b)} | a in tags && b in tags && IsPrefix(a, b) :: a == b)
  }

  predicate IsTag(tag: string, longest: nat) {
    0 < |tag| <= longest && IsAscii(tag) && tag[0] == '<'
  }

  predicate IsPrefix(a: string, b: string) {
    a <= b
  }

  predicate IsProperPrefix(a: string, b: string) {
    a < b
  }

  function CloseTag(tag: string): (close: string)
    requires tag != "" && IsAscii(tag)
    ensures |close| == |tag| + 1 && IsAscii(close)
  {
    "</" + tag[1..]
  }

  /** A text is plain, has a thinking block that is still open, or has one that was closed. */
  datatype Parse =
    | Plain
    | Open(tag: string, body: string)
    | Closed(tag: string, thinking: string, rest: string)

  ghost predicate StartsWithTag(tags: seq<string>, s: string) {
    exists tag {:trigger IsPrefix(tag, s)} | tag in tags :: IsPrefix(tag, s)
  }

  /** `s` is a proper part of an opening tag: more text may still complete it. */
  ghost predicate MayBecomeTag(tags: seq<string>, s: string) {
    exists tag {:trigger IsProperPrefix(s, tag)} | tag in tags :: IsProperPrefix(s, tag)
  }

  ghost function TagOf(tags: seq<string>, s: string): (tag: string)
    requires StartsWithTag(tags, s)
    ensures tag in tags && tag <= s
  {
    var tag :| tag in tags && IsPrefix(tag, s);
    tag
  }

  ghost function ParseBody(tag: string, body: string): Parse
    requires tag != "" && IsAscii(tag)
  {
    match Find(body, CloseTag(tag))
    case None => Open(tag, body)
    case Some(i) => Closed(tag, body[..i], body[i + |CloseTag(tag)|..])
  }

  /** A leading block counts only at the start of the text, white space aside. */
  ghost function ParseOf(tags: seq<string>, longest: nat, text: string): Parse
    requires TagSet(tags, longest)
  {
    var s := TrimStart(text);
    if StartsWithTag(tags, s) then ParseBody(TagOf(tags, s), s[|TagOf(tags, s)|..]) else Plain
  }

  /** Nothing but white space and a proper part of an opening tag has arrived. */
  ghost predicate Undecided(tags: seq<string>, text: string) {
    MayBecomeTag(tags, TrimStart(text))
  }

  /** The text inside the block, up to the closing tag or the end. */
  ghost function ThinkingIn(p: Parse): string {
    match p
    case Plain => ""
    case Open(_, body) => body
    case Closed(_, thinking, _) => thinking
  }

  lemma TagOfIsUnique(tags: seq<string>, longest: nat, s: string, tag: string)
    requires TagSet(tags, longest)
    requires tag in tags && tag <= s
    ensures StartsWithTag(tags, s) && TagOf(tags, s) == tag
  {
    assert IsPrefix(tag, s);
    var other := TagOf(tags, s);
    PrefixesOfOneText(s, tag, other);
    assert IsPrefix(tag, other) || IsPrefix(other, tag);
  }

  lemma PrefixesOfOneText(s: string, a: string, b: string)
    requires a <= s && b <= s
    ensures |a| <= |b| ==> a <= b
    ensures |b| <= |a| ==> b <= a
  {
    assert s[..|a|] == a && s[..|b|] == b;
    if |a| <= |b| {
      assert b[..|a|] == a;
    } else {
      assert a[..|b|] == b;
    }
  }

  /** Once decided, later text changes neither the tag nor what stood behind it. */
  lemma TagExtends(tags: seq<string>, longest: nat, text: string, more: string)
    requires TagSet(tags, longest) && !Undecided(tags, text)
    ensures TrimStart(text + more) == TrimStart(text) + more
    ensures StartsWithTag(tags, TrimStart(text + more)) == StartsWithTag(tags, TrimStart(text))
    ensures StartsWithTag(tags, TrimStart(text)) ==>
              TagOf(tags, TrimStart(text + more)) == TagOf(tags, TrimStart(text))
  {
    var s := TrimStart(text);
    assert s != "" by {
      assert tags[0] in tags && IsProperPrefix("", tags[0]);
    }
    TrimStartConcat(text, more);
    if StartsWithTag(tags, s) {
      assert s <= s + more;
      TagOfIsUnique(tags, longest, s + more, TagOf(tags, s));
    } else {
      forall tag | tag in tags
        ensures !IsPrefix(tag, s + more)
      {
        assert !IsPrefix(tag, s) && !IsProperPrefix(s, tag);
        if tag <= s + more {
          PrefixesOfOneText(s + more, s, tag);
        }
      }
    }
  }

  /** A closed block stays closed, an open one stays open or is closed, and a plain text stays plain. */
  lemma ParseExtends(tags: seq<string>, longest: nat, text: string, more: string)
    requires TagSet(tags, longest) && !Undecided(tags, text)
    ensures var p, q := ParseOf(tags, longest, text), ParseOf(tags, longest, text + more);
            match p
            case Plain => q.Plain?
            case Open(tag, body) => tag in tags && q == ParseBody(tag, body + more)
            case Closed(tag, thinking, rest) => q == Closed(tag, thinking, rest + more)
  {
    TagExtends(tags, longest, text, more);
    var s := TrimStart(text);
    if StartsWithTag(tags, s) {
      var tag := TagOf(tags, s);
      assert (s + more)[|tag|..] == s[|tag|..] + more;
      if ParseBody(tag, s[|tag|..]).Closed? {
        ParseBodyExtends(tag, s[|tag|..], more);
      }
    }
  }

  lemma ParseBodyExtends(tag: string, body: string, more: string)
    requires tag != "" && IsAscii(tag)
    requires ParseBody(tag, body).Closed?
    ensures ParseBody(tag, body + more) == Closed(tag, ParseBody(tag, body).thinking, ParseBody(tag, body).rest + more)
  {
    var close := CloseTag(tag);
    var i := Find(body, close).value;
    FindInExtension(body, more, close, i);
    assert (body + more)[..i] == body[..i];
    assert (body + more)[i + |close|..] == body[i + |close|..] + more;
  }

  lemma FindInExtension(body: string, more: string, needle: string, i: nat)
    requires Find(body, needle) == Some(i)
    ensures Find(body + more, needle) == Some(i)
  {
    assert (body + more)[i..i + |needle|] == body[i..i + |needle|];
    forall j: nat | j < i
      ensures !OccursAt(body + more, needle, j)
    {
      assert !OccursAt(body, needle, j);
      assert j + |needle| <= |body|;
      assert (body + more)[j..j + |needle|] == body[j..j + |needle|];
    }
    FindIs(body + more, needle, i);
  }

  /**
   * Holding back enough: when the text already passed on and the retained buffer hold no closing tag, and the
   * buffer is longer in bytes than a closing tag, the first closing tag of any continuation lies inside the
   * buffer and the continuation, and not at the very start of the buffer.
   */
  lemma HoldBack(sent: string, buffer: string, more: string, close: string)
    requires Find(sent + buffer, close).None?
    requires IsAscii(close)
    requires sent != "" ==> ByteLen(buffer) >= |close|
    ensures forall k: nat | k < |sent| :: !OccursAt(sent + (buffer + more), close, k)
    ensures sent != "" ==> Find(buffer + more, close) != Some(0)
    ensures Find(sent + (buffer + more), close) ==
            match Find(buffer + more, close)
            case None => None
            case Some(i) => Some(|sent| + i)
  {
    var all := sent + (buffer + more);
    assert all == sent + buffer + more;
    forall k: nat | k <= |sent| && sent != ""
      ensures !OccursAt(all, close, k)
    {
      NoneAcross(sent, buffer, more, close, k);
    }
    FindShifted(sent, buffer + more, close);
  }

  lemma NoneAcross(sent: string, buffer: string, more: string, close: string, k: nat)
    requires !OccursAt(sent + buffer, close, k)
    requires IsAscii(close)
    requires k <= |sent| && ByteLen(buffer) >= |close|
    ensures !OccursAt(sent + buffer + more, close, k)
  {
    var all := sent + buffer + more;
    if k + |close| <= |sent| + |buffer| {
      assert all[k..k + |close|] == (sent + buffer)[k..k + |close|];
    } else if OccursAt(all, close, k) {
      forall i | 0 <= i < |buffer|
        ensures buffer[i] as int < 0x80
      {
        assert buffer[i] == all[|sent| + i] == all[k..k + |close|][|sent| + i - k];
      }
      ByteLenAscii(buffer);
      assert false;
    }
  }

  lemma FindShifted(front: string, back: string, needle: string)
    requires forall k: nat | k < |front| :: !OccursAt(front + back, needle, k)
    ensures Find(front + back, needle) ==
            match Find(back, needle)
            case None => None
            case Some(i) => Some(|front| + i)
  {
    var all := front + back;
    forall i: nat
      ensures OccursAt(all, needle, |front| + i) == OccursAt(back, needle, i)
    {
      if i + |needle| <= |back| {
        assert all[|front| + i..|front| + i + |needle|] == back[i..i + |needle|];
      }
    }
    match Find(back, needle)
    case Some(i) =>
      forall j: nat | j < |front| + i
        ensures !OccursAt(all, needle, j)
      {
        if |front| <= j {
          assert !OccursAt(back, needle, j - |front|);
        }
      }
      FindIs(all, needle, |front| + i);
    case None =>
      forall j: nat
        ensures !OccursAt(all, needle, j)
      {
        if |front| <= j {
          assert !OccursAt(back, needle, j - |front|);
        }
      }
  }

  /** The block is closed by chunk number `j`, counting from one. */
  ghost predicate ClosedBy(tags: seq<string>, longest: nat, chunks: seq<string>, j: nat)
    requires TagSet(tags, longest)
  {
    && 0 < j <= |chunks|
    && ParseOf(tags, longest, Concat(chunks[..j])).Closed?
    && !ParseOf(tags, longest, Concat(chunks[..j - 1])).Closed?
  }

  /** Behind a block, white space is dropped only from what the closing chunk still holds. */
  ghost function TextBehind(tags: seq<string>, longest: nat, chunks: seq<string>, j: nat): string
    requires TagSet(tags, longest) && ClosedBy(tags, longest, chunks, j)
  {
    TrimStart(ParseOf(tags, longest, Concat(chunks[..j])).rest) + Concat(chunks[j..])
  }

  /**
   * The regular text of a whole stream: all of it without a block, none while a block is open, and behind a block
   * the rest.
   */
  ghost predicate IsRegularText(tags: seq<string>, longest: nat, chunks: seq<string>, regular: string)
    requires TagSet(tags, longest)
  {
    match ParseOf(tags, longest, Concat(chunks))
    case Plain => regular == Concat(chunks)
    case Open(_, _) => regular == ""
    case Closed(_, _, _) =>
      exists j :: ClosedBy(tags, longest, chunks, j) && regular == TextBehind(tags, longest, chunks, j)
  }

  /** A text with a complete opening tag is decided, so an undecided one is plain. */
  lemma UndecidedIsPlain(tags: seq<string>, longest: nat, text: string)
    requires TagSet(tags, longest) && Undecided(tags, text)
    ensures ParseOf(tags, longest, text).Plain?
  {
    var s := TrimStart(text);
    var longer :| longer in tags && IsProperPrefix(s, longer);
    forall tag | tag in tags
      ensures !IsPrefix(tag, s)
    {
      if tag <= s {
        PrefixIsTransitive(tag, s, longer);
        assert IsPrefix(tag, longer);
      }
    }
  }

  lemma StaysDecided(tags: seq<string>, longest: nat, text: string, more: string)
    requires TagSet(tags, longest) && !Undecided(tags, text)
    ensures !Undecided(tags, text + more)
  {
    TagExtends(tags, longest, text, more);
    var s := TrimStart(text);
    forall tag | tag in tags
      ensures !IsProperPrefix(s + more, tag)
    {
      assert !IsProperPrefix(s, tag);
      if s + more < tag {
        PrefixIsTransitive(s, s + more, tag);
      }
    }
  }

  lemma PrefixIsTransitive(a: string, b: string, c: string)
    requires a <= b && b <= c
    ensures a <= c
  {
    assert c[..|b|][..|a|] == c[..|a|];
  }

  /** Searching only the retained buffer and the new chunk finds exactly what searching the whole text would. */
  lemma BufferedBody(tag: string, sent: string, buffer: string, content: string)
    requires tag != "" && IsAscii(tag)
    requires ParseBody(tag, sent + buffer).Open?
    requires sent != "" ==> |tag| + 1 <= ByteLen(buffer)
    ensures BufferedParse(tag, sent, buffer + content, Find(buffer + content, CloseTag(tag)),
                          ParseBody(tag, sent + (buffer + content)))
  {
    var back := buffer + content;
    HoldBack(sent, buffer, content, CloseTag(tag));
    var found := Find(back, CloseTag(tag));
    if found.Some? {
      SliceBehind(sent, back, found.value, found.value + |tag| + 1);
    }
  }

  lemma SliceBehind(front: string, back: string, i: nat, j: nat)
    requires i <= |back| && j <= |back|
    ensures (front + back)[..|front| + i] == front + back[..i]
    ensures (front + back)[|front| + j..] == back[j..]
  {
  }

  /** How the text parses when a closing tag was `found` in the part `back` that is not passed on yet. */
  ghost predicate BufferedParse(tag: string, sent: string, back: string, found: Option<nat>, p: Parse) {
    match found
    case None => p == Open(tag, sent + back)
    case Some(i) =>
      && i + |tag| + 1 <= |back| && (sent != "" ==> 0 < i)
      && p == Closed(tag, sent + back[..i], back[i + |tag| + 1..])
  }

  lemma OpenExtends(tags: seq<string>, longest: nat, text: string, content: string)
    requires TagSet(tags, longest) && ParseOf(tags, longest, text).Open?
    ensures var Open(tag, body) := ParseOf(tags, longest, text);
            && tag in tags && ParseBody(tag, body).Open?
            && ParseOf(tags, longest, text + content) == ParseBody(tag, body + content)
  {
    if Undecided(tags, text) {
      UndecidedIsPlain(tags, longest, text);
    }
    ParseExtends(tags, longest, text, content);
  }

  lemma BufferedSearch(tags: seq<string>, longest: nat, text: string, tag: string, sent: string, buffer: string,
                       content: string)
    requires TagSet(tags, longest) && tag in tags
    requires ParseOf(tags, longest, text) == Open(tag, sent + buffer)
    requires sent != "" ==> 2 * longest <= ByteLen(buffer)
    ensures BufferedParse(tag, sent, buffer + content, Find(buffer + content, CloseTag(tag)),
                          ParseOf(tags, longest, text + content))
  {
    OpenExtends(tags, longest, text, content);
    BufferedOpen(tag, sent, buffer, content);
  }

  lemma BufferedOpen(tag: string, sent: string, buffer: string, content: string)
    requires tag != "" && IsAscii(tag)
    requires ParseBody(tag, sent + buffer).Open?
    requires sent != "" ==> |tag| + 1 <= ByteLen(buffer)
    ensures BufferedParse(tag, sent, buffer + content, Find(buffer + content, CloseTag(tag)),
                          ParseBody(tag, sent + buffer + content))
  {
    ConcatAssociative(sent, buffer, content);
    BufferedBody(tag, sent, buffer, content);
  }
}
