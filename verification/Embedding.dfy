/** Pieces that occur in a text in order, and lists of them spread over several texts. */
module Embedding {
  import opened Text

  /** All pieces occur in the text, one after the other and without overlap. */
  ghost predicate Embeds(pieces: seq<string>, text: string) {
    pieces == [] || exists i: nat :: LastAt(pieces, text, i) && Embeds(pieces[..|pieces| - 1], text[..i])
  }

  predicate LastAt(pieces: seq<string>, text: string, i: nat)
    requires pieces != []
  {
    OccursAt(text, pieces[|pieces| - 1], i)
  }

  /** A text as a piece; an empty text is none. */
  function Lone(text: string): seq<string> {
    if text == "" then [] else [text]
  }

  lemma EmbedsHere(pieces: seq<string>, text: string, i: nat)
    requires pieces != [] && LastAt(pieces, text, i) && Embeds(pieces[..|pieces| - 1], text[..i])
    ensures Embeds(pieces, text)
  {
  }

  lemma OccursLater(s: string, t: string, piece: string, i: nat)
    requires OccursAt(t, piece, i)
    ensures OccursAt(s + t, piece, |s| + i) && (s + t)[..|s| + i] == s + t[..i]
  {
    assert (s + t)[|s| + i..|s| + i + |piece|] == t[i..i + |piece|];
  }

  lemma OccursStill(s: string, t: string, piece: string, i: nat)
    requires OccursAt(s, piece, i)
    ensures OccursAt(s + t, piece, i) && (s + t)[..i] == s[..i]
  {
    assert (s + t)[i..i + |piece|] == s[i..i + |piece|];
  }

  lemma LastLater(a: seq<string>, s: string, b: seq<string>, t: string, i: nat)
    requires b != [] && LastAt(b, t, i) && Embeds(a + b[..|b| - 1], s + t[..i])
    ensures Embeds(a + b, s + t)
  {
    OccursLater(s, t, b[|b| - 1], i);
    assert (a + b)[..|a + b| - 1] == a + b[..|b| - 1];
    EmbedsHere(a + b, s + t, |s| + i);
  }

  lemma {:induction false} EmbedsConcat(a: seq<string>, s: string, b: seq<string>, t: string)
    requires Embeds(a, s) && Embeds(b, t)
    ensures Embeds(a + b, s + t)
    decreases |b|
  {
    if b != [] {
      var init := b[..|b| - 1];
      var i: nat :| LastAt(b, t, i) && Embeds(init, t[..i]);
      EmbedsConcat(a, s, init, t[..i]);
      LastLater(a, s, b, t, i);
    } else if a != [] {
      assert a + b == a;
      var i: nat :| LastAt(a, s, i) && Embeds(a[..|a| - 1], s[..i]);
      OccursStill(s, t, a[|a| - 1], i);
      EmbedsHere(a, s + t, i);
    }
  }

  lemma EmbedsSelf(s: string)
    ensures Embeds([s], s)
  {
    assert s[0..|s|] == s;
    EmbedsHere([s], s, 0);
  }

  /** More text before and after. */
  lemma EmbedsWithin(pieces: seq<string>, before: string, text: string, after: string)
    requires Embeds(pieces, text)
    ensures Embeds(pieces, before + text + after)
  {
    assert [] + pieces == pieces && pieces + [] == pieces;
    EmbedsConcat([], before, pieces, text);
    EmbedsConcat(pieces, before + text, [], after);
  }

  function Flat(groups: seq<seq<string>>): seq<string> {
    if groups == [] then [] else groups[0] + Flat(groups[1..])
  }

  lemma {:induction false} FlatAppend(a: seq<seq<string>>, b: seq<seq<string>>)
    ensures Flat(a + b) == Flat(a) + Flat(b)
  {
    if a == [] {
      assert a + b == b && [] + Flat(b) == Flat(b);
    } else {
      assert (a + b)[1..] == a[1..] + b;
      FlatAppend(a[1..], b);
      assert a[0] + (Flat(a[1..]) + Flat(b)) == a[0] + Flat(a[1..]) + Flat(b);
    }
  }

  lemma FlatSnoc(groups: seq<seq<string>>, group: seq<string>)
    ensures Flat(groups + [group]) == Flat(groups) + group
  {
    FlatAppend(groups, [group]);
    assert [group][1..] == [] && group + [] == group;
  }

  /** Each group of pieces occurs in the text at the same place of the list. */
  ghost predicate AllEmbed(groups: seq<seq<string>>, texts: seq<string>) {
    |groups| == |texts| && forall k | 0 <= k < |groups| :: Embeds(groups[k], texts[k])
  }

  lemma {:induction false} JoinEmbeds(groups: seq<seq<string>>, texts: seq<string>, sep: string)
    requires AllEmbed(groups, texts)
    ensures Embeds(Flat(groups), Join(texts, sep))
  {
    if |groups| == 1 {
      assert groups == [] + [groups[0]] && [] + groups[0] == groups[0];
      FlatSnoc([], groups[0]);
    } else if groups != [] {
      JoinEmbeds(groups[1..], texts[1..], sep);
      EmbedsConcat(groups[0], texts[0], [], sep);
      assert groups[0] + [] == groups[0];
      EmbedsConcat(groups[0], texts[0] + sep, Flat(groups[1..]), Join(texts[1..], sep));
    }
  }

  lemma AllEmbedAppend(a: seq<seq<string>>, s: seq<string>, b: seq<seq<string>>, t: seq<string>)
    requires AllEmbed(a, s) && AllEmbed(b, t)
    ensures AllEmbed(a + b, s + t)
  {
  }

  lemma AllEmbedInit(groups: seq<seq<string>>, texts: seq<string>)
    requires AllEmbed(groups, texts) && groups != []
    ensures AllEmbed(groups[..|groups| - 1], texts[..|texts| - 1])
    ensures Embeds(groups[|groups| - 1], texts[|texts| - 1])
  {
  }

  lemma AllEmbedSnoc(groups: seq<seq<string>>, texts: seq<string>, pieces: seq<string>, text: string)
    requires AllEmbed(groups, texts) && Embeds(pieces, text)
    ensures AllEmbed(groups + [pieces], texts + [text])
  {
  }
}
