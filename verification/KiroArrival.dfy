/** What stands in the text of messages arrives in the entries of the payload, through merging and history. */
module KiroArrival {
  import opened Embedding
  import opened KiroModel
  import opened KiroPasses
  import opened KiroPayload
  import opened KiroOrder

  lemma EmbedsOrPlaceholder(pieces: seq<string>, text: string, placeholder: string)
    requires Embeds(pieces, text)
    ensures Embeds(pieces, OrPlaceholder(text, placeholder))
  {
    EmbedsWithin(pieces, "", text, placeholder);
    assert "" + "" + placeholder == placeholder;
  }

  // ----- Through merging -----

  /** The groups after one more message, whose pieces join the last group or make a new one. */
  function Grown(groups: seq<seq<string>>, joins: bool, pieces: seq<string>): seq<seq<string>> {
    if joins && groups != [] then groups[|groups| - 1 := groups[|groups| - 1] + pieces] else groups + [pieces]
  }

  /** The last message has the role of the one before. */
  predicate Joins(ms: seq<Message>)
    requires ms != []
  {
    |ms| > 1 && ms[|ms| - 2].role == ms[|ms| - 1].role
  }

  /** The pieces of all messages, grouped as merging groups the messages. */
  function Grouped(ms: seq<Message>, pieces: seq<seq<string>>): seq<seq<string>>
    requires |pieces| == |ms|
  {
    if ms == [] then []
    else Grown(Grouped(ms[..|ms| - 1], pieces[..|ms| - 1]), Joins(ms), pieces[|ms| - 1])
  }

  lemma FlatGrows(groups: seq<seq<string>>, pieces: seq<string>)
    requires groups != []
    ensures Flat(groups[|groups| - 1 := groups[|groups| - 1] + pieces]) == Flat(groups) + pieces
  {
    var init, last := groups[..|groups| - 1], groups[|groups| - 1];
    assert groups == init + [last] && groups[|groups| - 1 := last + pieces] == init + [last + pieces];
    FlatSnoc(init, last);
    FlatSnoc(init, last + pieces);
    assert Flat(init) + (last + pieces) == Flat(init) + last + pieces;
  }

  lemma {:induction false} GroupedIsFlat(ms: seq<Message>, pieces: seq<seq<string>>)
    requires |pieces| == |ms|
    ensures Flat(Grouped(ms, pieces)) == Flat(pieces)
  {
    if ms == [] {
    } else {
      var before, last := Grouped(ms[..|ms| - 1], pieces[..|ms| - 1]), pieces[|ms| - 1];
      GroupedIsFlat(ms[..|ms| - 1], pieces[..|ms| - 1]);
      FlatSnoc(pieces[..|ms| - 1], last);
      assert pieces == pieces[..|ms| - 1] + [last];
      FlatSnoc(before, last);
      if before != [] {
        FlatGrows(before, last);
      }
    }
  }

  predicate SameRole(before: seq<Message>, m: Message) {
    before != [] && before[|before| - 1].role == m.role
  }

  lemma {:induction false} JoinsAlike(ms: seq<Message>)
    requires ms != []
    ensures Joins(ms) <==> SameRole(Merged(ms[..|ms| - 1]), ms[|ms| - 1])
  {
    var init := ms[..|ms| - 1];
    MergingAlternates(init);
    if init != [] {
      assert init[|init| - 1] == ms[|ms| - 2];
    }
  }

  lemma MergedEmbeds(groups: seq<seq<string>>, merged: seq<Message>, pieces: seq<string>, m: Message)
    requires AllEmbed(groups, Texts(merged)) && Embeds(pieces, TextOf(m.content))
    ensures AllEmbed(Grown(groups, SameRole(merged, m), pieces), Texts(MergedWith(merged, m)))
  {
    var last := |groups| - 1;
    if SameRole(merged, m) {
      var before, text := TextOf(merged[last].content), TextOf(m.content);
      assert groups[last] + [] == groups[last] && Embeds(groups[last], Texts(merged)[last]);
      EmbedsConcat(groups[last], before, [], "\n");
      EmbedsConcat(groups[last], before + "\n", pieces, text);
      assert Texts(MergedWith(merged, m)) == Texts(merged)[last := before + "\n" + text];
    } else {
      assert Texts(merged + [m]) == Texts(merged) + [TextOf(m.content)];
    }
  }

  /** Merged messages of other roles, which leave no entry, carry no pieces. */
  predicate Carried(groups: seq<seq<string>>, merged: seq<Message>) {
    |groups| == |merged| && forall k | 0 <= k < |merged| :: merged[k].role.Other? ==> groups[k] == []
  }

  lemma MergedCarries(groups: seq<seq<string>>, merged: seq<Message>, pieces: seq<string>, m: Message)
    requires Carried(groups, merged) && (m.role.Other? ==> pieces == [])
    ensures Carried(Grown(groups, SameRole(merged, m), pieces), MergedWith(merged, m))
  {
  }

  /** Merged messages carry the pieces of the messages they are made of. */
  lemma {:induction false} MergingEmbeds(ms: seq<Message>, pieces: seq<seq<string>>)
    requires AllEmbed(pieces, Texts(ms)) && Carried(pieces, ms)
    ensures AllEmbed(Grouped(ms, pieces), Texts(Merged(ms))) && Carried(Grouped(ms, pieces), Merged(ms))
  {
    if ms == [] {
    } else {
      var init, m := ms[..|ms| - 1], ms[|ms| - 1];
      CarriedInit(pieces, ms);
      MergingEmbeds(init, pieces[..|ms| - 1]);
      JoinsAlike(ms);
      MergedEmbeds(Grouped(init, pieces[..|ms| - 1]), Merged(init), pieces[|ms| - 1], m);
      MergedCarries(Grouped(init, pieces[..|ms| - 1]), Merged(init), pieces[|ms| - 1], m);
    }
  }

  // ----- Through the history to the payload -----

  function Contents(entries: seq<Entry>): seq<string> {
    seq(|entries|, k requires 0 <= k < |entries| => entries[k].content)
  }

  lemma {:induction false} PromptedEmbeds(prompt: string, groups: seq<seq<string>>, ms: seq<Message>)
    requires AllEmbed(groups, Texts(ms))
    ensures AllEmbed(groups, Texts(Prompted(prompt, ms)))
  {
    forall k | 0 <= k < |ms|
      ensures Embeds(groups[k], Texts(Prompted(prompt, ms))[k])
    {
      var text := TextOf(ms[k].content);
      assert Embeds(groups[k], Texts(ms)[k]);
      EmbedsWithin(groups[k], prompt + "\n\n", text, "");
      assert prompt + "\n\n" + text + "" == prompt + "\n\n" + text;
    }
  }

  lemma ContentsExtended(canon: string -> string, before: seq<Entry>, m: Message)
    ensures Contents(Extended(canon, before, m)) ==
            Contents(before)
            + match m.role
              case User => [OrPlaceholder(TextOf(m.content), EMPTY)]
              case Assistant =>
                (if before != [] && before[|before| - 1].UserEntry? then [] else [SYNTHETIC.content])
                + [OrPlaceholder(TextOf(m.content), EMPTY)]
              case Other(_) => []
  {
    assert Contents(before) + [] == Contents(before);
  }

  /** One more entry takes in one more group; a synthetic user carries no piece. */
  lemma ExtendedEmbeds(canon: string -> string, placed: seq<seq<string>>, before: seq<Entry>, pieces: seq<string>,
                       m: Message)
    returns (placed': seq<seq<string>>)
    requires AllEmbed(placed, Contents(before)) && Embeds(pieces, TextOf(m.content)) && (m.role.Other? ==> pieces == [])
    ensures AllEmbed(placed', Contents(Extended(canon, before, m))) && Flat(placed') == Flat(placed) + pieces
  {
    ContentsExtended(canon, before, m);
    EmbedsOrPlaceholder(pieces, TextOf(m.content), EMPTY);
    assert Flat(placed) + [] == Flat(placed) && Contents(before) + [] == Contents(before);
    if m.role.Other? {
      placed' := placed;
    } else if m.role == User || (before != [] && before[|before| - 1].UserEntry?) {
      placed' := placed + [pieces];
      AllEmbedSnoc(placed, Contents(before), pieces, OrPlaceholder(TextOf(m.content), EMPTY));
      FlatSnoc(placed, pieces);
    } else {
      placed' := placed + [[]] + [pieces];
      var first, second := SYNTHETIC.content, OrPlaceholder(TextOf(m.content), EMPTY);
      AllEmbedSnoc(placed, Contents(before), [], first);
      AllEmbedSnoc(placed + [[]], Contents(before) + [first], pieces, second);
      assert Contents(before) + [first] + [second] == Contents(before) + ([first] + [second]);
      FlatSnoc(placed, []);
      FlatSnoc(placed + [[]], pieces);
    }
  }

  lemma {:induction false} CarriedInit(groups: seq<seq<string>>, ms: seq<Message>)
    requires ms != [] && Carried(groups, ms) && AllEmbed(groups, Texts(ms))
    ensures Carried(groups[..|ms| - 1], ms[..|ms| - 1]) && AllEmbed(groups[..|ms| - 1], Texts(ms[..|ms| - 1]))
    ensures Embeds(groups[|ms| - 1], TextOf(ms[|ms| - 1].content))
    ensures Flat(groups) == Flat(groups[..|ms| - 1]) + groups[|ms| - 1]
  {
    AllEmbedInit(groups, Texts(ms));
    assert Texts(ms[..|ms| - 1]) == Texts(ms)[..|ms| - 1];
    assert groups == groups[..|ms| - 1] + [groups[|ms| - 1]];
    FlatSnoc(groups[..|ms| - 1], groups[|ms| - 1]);
  }

  /** The history carries all pieces of the merged messages, in order. */
  lemma {:induction false} HistoryEmbeds(canon: string -> string, groups: seq<seq<string>>, ms: seq<Message>)
    returns (placed: seq<seq<string>>)
    requires AllEmbed(groups, Texts(ms)) && Carried(groups, ms)
    ensures AllEmbed(placed, Contents(History(canon, ms))) && Flat(placed) == Flat(groups)
    decreases |ms|
  {
    if ms == [] {
      placed := [];
    } else {
      var init := ms[..|ms| - 1];
      CarriedInit(groups, ms);
      placed := HistoryEmbeds(canon, groups[..|ms| - 1], init);
      placed := ExtendedEmbeds(canon, placed, History(canon, init), groups[|ms| - 1], ms[|ms| - 1]);
    }
  }

  lemma {:induction false} LastTextEmbeds(prompt: string, pieces: seq<string>, ms: seq<Message>)
    requires ms != [] && Embeds(pieces, TextOf(ms[|ms| - 1].content))
    ensures Embeds(pieces, LastText(prompt, ms))
  {
    var text := TextOf(ms[|ms| - 1].content);
    EmbedsWithin(pieces, prompt + "\n\n", text, "");
    assert prompt + "\n\n" + text + "" == prompt + "\n\n" + text;
  }

  lemma {:induction false} CurrentEmbeds(prompt: string, thinking: string, pieces: seq<string>, ms: seq<Message>)
    requires ms != [] && ms[|ms| - 1].role != Assistant && Embeds(pieces, TextOf(ms[|ms| - 1].content))
    ensures Embeds(pieces, CurrentText(prompt, thinking, ms))
  {
    LastTextEmbeds(prompt, pieces, ms);
    var text := OrPlaceholder(LastText(prompt, ms), CONTINUE);
    EmbedsOrPlaceholder(pieces, LastText(prompt, ms), CONTINUE);
    EmbedsWithin(pieces, thinking, text, "");
    assert thinking + text + "" == thinking + text;
  }

  /** The contents of the entries that follow the history for the earlier messages. */
  function LastContents(prompt: string, thinking: string, ms: seq<Message>): seq<string>
    requires ms != []
  {
    var current := [CurrentText(prompt, thinking, ms)];
    if ms[|ms| - 1].role == Assistant then [SYNTHETIC.content, LastText(prompt, ms)] + current else current
  }

  lemma {:induction false} ContentsSplit(canon: string -> string, prompt: string, thinking: string, ms: seq<Message>)
    requires ms != []
    ensures Contents(Entries(PayloadOf(canon, prompt, thinking, ms))) ==
            Contents(History(canon, Prompted(prompt, ms[..|ms| - 1]))) + LastContents(prompt, thinking, ms)
  {
  }

  lemma {:induction false} LastEmbeds(prompt: string, thinking: string, pieces: seq<string>, ms: seq<Message>)
    returns (placed: seq<seq<string>>)
    requires ms != [] && Embeds(pieces, TextOf(ms[|ms| - 1].content))
    ensures AllEmbed(placed, LastContents(prompt, thinking, ms)) && Flat(placed) == pieces
  {
    assert pieces + [] == pieces && [] + pieces == pieces;
    if ms[|ms| - 1].role != Assistant {
      CurrentEmbeds(prompt, thinking, pieces, ms);
      placed := [pieces];
      assert [pieces][1..] == [];
    } else {
      LastTextEmbeds(prompt, pieces, ms);
      placed := [[], pieces, []];
      FlatSnoc([[], pieces], []);
      FlatSnoc([[]], pieces);
      FlatSnoc([], []);
      assert placed == [[], pieces] + [[]] && [[], pieces] == [[]] + [pieces];
      var none: seq<string> := [];
      assert [none] == [] + [none];
    }
  }

  /** Every piece of merged messages stands in an entry of the payload, in order. */
  lemma {:induction false} PayloadEmbeds(canon: string -> string, prompt: string, thinking: string,
                                         groups: seq<seq<string>>, ms: seq<Message>)
    returns (placed: seq<seq<string>>)
    requires ms != [] && AllEmbed(groups, Texts(ms)) && Carried(groups, ms)
    ensures AllEmbed(placed, Contents(Entries(PayloadOf(canon, prompt, thinking, ms)))) && Flat(placed) == Flat(groups)
  {
    var init := ms[..|ms| - 1];
    CarriedInit(groups, ms);
    PromptedEmbeds(prompt, groups[..|ms| - 1], init);
    var before := HistoryEmbeds(canon, groups[..|ms| - 1], Prompted(prompt, init));
    var end := LastEmbeds(prompt, thinking, groups[|ms| - 1], ms);
    placed := before + end;
    FlatAppend(before, end);
    AllEmbedAppend(before, Contents(History(canon, Prompted(prompt, init))), end, LastContents(prompt, thinking, ms));
    ContentsSplit(canon, prompt, thinking, ms);
  }

  /** The pieces of all messages stand in the entries of the payload, in order. */
  lemma {:induction false} PiecesArrive(canon: string -> string, prompt: string, thinking: string, ms: seq<Message>,
                                        pieces: seq<seq<string>>)
    returns (placed: seq<seq<string>>)
    requires ms != [] && AllEmbed(pieces, Texts(ms)) && Carried(pieces, ms)
    ensures Merged(ms) != [] && Flat(placed) == Flat(pieces)
    ensures AllEmbed(placed, Contents(Entries(PayloadOf(canon, prompt, thinking, Merged(ms)))))
  {
    MergingAlternates(ms);
    MergingEmbeds(ms, pieces);
    GroupedIsFlat(ms, pieces);
    placed := PayloadEmbeds(canon, prompt, thinking, Grouped(ms, pieces), Merged(ms));
  }
}
