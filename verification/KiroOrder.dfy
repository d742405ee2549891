/** The order of entries in a payload: tool results follow tool uses, except for orphaned results that come back. */
module KiroOrder {
  import opened Wrappers
  import opened KiroModel
  import opened KiroPasses
  import opened KiroPayload

  function Entries(p: Payload): seq<Entry> {
    p.history + [p.current]
  }

  predicate Paired(entries: seq<Entry>) {
    forall k | 0 <= k < |entries| :: entries[k].UserEntry? && entries[k].toolResults != [] ==>
      k > 0 && HasUses(entries[k - 1])
  }

  predicate HasUses(e: Entry) {
    e.AssistantEntry? && e.toolUses != map[]
  }

  // ----- Messages as they are converted -----

  /** Tool data in the content of a message is in its lists, too, where the role has such a list. */
  predicate Listed(m: Message) {
    && (m.role == User && HasResultBlock(m.content) ==> HasResults(m))
    && (m.role == Assistant && HasUseBlock(m.content) ==> HasCalls(m))
  }

  /** Only users have lists of results. */
  predicate UserResults(m: Message) {
    m.toolResults.Some? ==> m.role == User
  }

  predicate Natural(ms: seq<Message>) {
    forall k | 0 <= k < |ms| :: Listed(ms[k]) && UserResults(ms[k])
  }

  // ----- Which results come back -----

  /**
   * The last to speak is the assistant, in a run of messages of which one has calls. Messages of other roles do not
   * count: they leave no trace in the history.
   */
  predicate UsesBefore(ms: seq<Message>) {
    if ms == [] then false
    else
      var init, last := ms[..|ms| - 1], ms[|ms| - 1];
      match last.role
      case User => false
      case Assistant => HasCalls(last) || (init != [] && init[|init| - 1].role == Assistant && UsesBefore(init))
      case Other(_) => UsesBefore(init)
  }

  /** No neighbour has the same role, so the message is not merged and its content blocks are kept. */
  predicate Alone(ms: seq<Message>, k: nat)
    requires k < |ms|
  {
    (k > 0 ==> ms[k - 1].role != ms[k].role) && (k + 1 < |ms| ==> ms[k + 1].role != ms[k].role)
  }

  /**
   * Results in the content of an earlier message are sent without tool uses before them: the message is of a user and
   * keeps its blocks, in spite of merging and of the system prompt, which goes to the first user.
   */
  predicate ComesBackEarly(prompt: string, ms: seq<Message>, k: nat)
    requires k < |ms|
  {
    && ms[k].role == User && HasResultBlock(ms[k].content) && Alone(ms, k) && !UsesBefore(ms[..k])
    && (prompt != "" ==> FirstUser(ms[..k]).Some?)
  }

  /** The same for the last message, of any role; before its results an answer of the assistant has no tool uses. */
  predicate ComesBackLast(ms: seq<Message>, k: nat)
    requires k < |ms|
  {
    HasResultBlock(ms[k].content) && Alone(ms, k) && (ms[k].role == Assistant || !UsesBefore(ms[..k]))
  }

  predicate ComesBack(prompt: string, ms: seq<Message>, k: nat)
    requires k < |ms|
  {
    if k == |ms| - 1 then ComesBackLast(ms, k) else ComesBackEarly(prompt, ms, k)
  }

  // ----- The passes -----

  /** Every message with results comes directly after an assistant message with calls. */
  predicate Preceded(ms: seq<Message>) {
    forall k | 0 <= k < |ms| :: HasResults(ms[k]) ==> k > 0 && ms[k - 1].role == Assistant && HasCalls(ms[k - 1])
  }

  /** After the pass no list of results is left without an assistant message with calls directly before. */
  lemma {:induction false} EnsuringPrecedes(ms: seq<Message>)
    ensures Preceded(Ensured(ms))
  {
    if ms == [] {
    } else {
      EnsuringPrecedes(ms[..|ms| - 1]);
    }
  }

  predicate AllUserResults(ms: seq<Message>) {
    forall k | 0 <= k < |ms| :: UserResults(ms[k])
  }

  lemma PrecededPrefix(ms: seq<Message>)
    requires ms != [] && Preceded(ms) && AllUserResults(ms)
    ensures Preceded(ms[..|ms| - 1]) && AllUserResults(ms[..|ms| - 1])
  {
    var init := ms[..|ms| - 1];
    assert forall k | 0 <= k < |init| :: init[k] == ms[k];
  }

  /** An assistant message with calls ends up in a merged message with calls. */
  lemma CallsStay(ms: seq<Message>)
    requires ms != [] && ms[|ms| - 1].role == Assistant && HasCalls(ms[|ms| - 1])
    ensures var last := Merged(ms)[|Merged(ms)| - 1]; last.role == Assistant && HasCalls(last)
  {
  }

  lemma JoinedResults(a: Message, b: Message)
    requires UserResults(a) && UserResults(b) && a.role == b.role
    ensures UserResults(Joined(a, b)) && (HasResults(Joined(a, b)) ==> HasResults(a) || HasResults(b))
    ensures HasCalls(a) ==> HasCalls(Joined(a, b))
  {
  }

  lemma MergedWithPrecedes(before: seq<Message>, m: Message)
    requires Preceded(before) && AllUserResults(before) && UserResults(m)
    requires HasResults(m) ==> Follows(before)
    ensures Preceded(MergedWith(before, m)) && AllUserResults(MergedWith(before, m))
  {
    if before != [] && before[|before| - 1].role == m.role {
      JoinedResults(before[|before| - 1], m);
    }
  }

  /** Merging keeps that order. */
  lemma {:induction false} MergingPrecedes(ms: seq<Message>)
    requires Preceded(ms) && AllUserResults(ms)
    ensures Preceded(Merged(ms)) && AllUserResults(Merged(ms))
  {
    if ms == [] {
    } else {
      var init, m := ms[..|ms| - 1], ms[|ms| - 1];
      PrecededPrefix(ms);
      MergingPrecedes(init);
      if HasResults(m) {
        assert ms[|ms| - 2] == init[|init| - 1];
        MergingAlternates(init);
        CallsStay(init);
      }
      MergedWithPrecedes(Merged(init), m);
    }
  }

  lemma {:induction false} SameUses(a: seq<Message>, b: seq<Message>)
    requires |a| == |b| && forall k | 0 <= k < |a| :: a[k].role == b[k].role && a[k].toolCalls == b[k].toolCalls
    ensures UsesBefore(a) == UsesBefore(b)
  {
    if a == [] {
    } else {
      SameUses(a[..|a| - 1], b[..|b| - 1]);
    }
  }

  /** Only the list of results may differ, and only by being dropped. */
  predicate SameButResults(a: Message, b: Message) {
    a == b || a == b.(toolResults := None)
  }

  lemma {:induction false} EnsuredAt(ms: seq<Message>, k: nat)
    requires k < |ms|
    ensures SameButResults(Ensured(ms)[k], ms[k])
  {
    if k == |ms| - 1 {
    } else {
      EnsuredAt(ms[..|ms| - 1], k);
    }
  }

  lemma {:induction false} EnsuringKeeps(ms: seq<Message>)
    ensures UsesBefore(Ensured(ms)) == UsesBefore(ms)
    ensures forall k | 0 <= k < |ms| :: Ensured(ms)[k].role == ms[k].role
    ensures AllUserResults(ms) ==> AllUserResults(Ensured(ms))
  {
    forall k | 0 <= k < |ms|
      ensures SameButResults(Ensured(ms)[k], ms[k])
    {
      EnsuredAt(ms, k);
    }
    SameUses(Ensured(ms), ms);
  }

  /** Whether there are tool uses before is the same before and after merging. */
  lemma {:induction false} MergingKeepsUses(ms: seq<Message>)
    ensures UsesBefore(Merged(ms)) == UsesBefore(ms)
  {
    if ms == [] {
    } else {
      var init, m := ms[..|ms| - 1], ms[|ms| - 1];
      var before := Merged(init);
      MergingKeepsUses(init);
      MergingAlternates(init);
      MergingAlternates(ms);
      if before != [] {
        var last := |before| - 1;
        assert MergedWith(before, m)[..|MergedWith(before, m)| - 1] ==
               if before[last].role == m.role then before[..last] else before;
      }
    }
  }

  // ----- The history -----

  predicate EndsWithUses(entries: seq<Entry>) {
    entries != [] && HasUses(entries[|entries| - 1])
  }

  lemma PairedSnoc(entries: seq<Entry>, e: Entry)
    ensures Paired(entries + [e]) <==>
            Paired(entries) && (e.UserEntry? && e.toolResults != [] ==> EndsWithUses(entries))
  {
    var more := entries + [e];
    assert more[|entries|] == e && forall k | 0 <= k < |entries| :: more[k] == entries[k];
  }

  lemma {:induction false} NoBlockUses(blocks: seq<Block>)
    requires !HasUseBlock(Blocks(blocks))
    ensures BlockUses(blocks) == []
  {
    if blocks == [] {
    } else {
      var init := blocks[..|blocks| - 1];
      assert forall k | 0 <= k < |init| :: init[k] == blocks[k];
      NoBlockUses(init);
    }
  }

  lemma {:induction false} BlockResultsExist(blocks: seq<Block>)
    ensures BlockResults(blocks) == [] <==> !HasResultBlock(Blocks(blocks))
  {
    if blocks == [] {
    } else {
      var init := blocks[..|blocks| - 1];
      BlockResultsExist(init);
      assert forall k | 0 <= k < |init| :: init[k] == blocks[k];
    }
  }

  lemma CallsGiveUses(canon: string -> string, m: Message)
    requires HasUseBlock(m.content) ==> HasCalls(m)
    ensures HasUses(AssistantResponse(canon, m)) <==> HasCalls(m)
  {
    var uses := UsesOf(canon, m);
    if HasCalls(m) {
      assert uses != [];
      assert |Filed(Deduplicated(uses[..|uses| - 1]), uses[|uses| - 1])| > 0;
    } else if m.content.Blocks? {
      NoBlockUses(m.content.blocks);
    }
  }

  predicate UsesListed(ms: seq<Message>) {
    forall k | 0 <= k < |ms| :: ms[k].role == Assistant && HasUseBlock(ms[k].content) ==> HasCalls(ms[k])
  }

  /** A user message whose results have no tool uses before them. */
  predicate Late(ms: seq<Message>, k: nat)
    requires k < |ms|
  {
    ms[k].role == User && ResultsFor(ms[k]) != [] && !UsesBefore(ms[..k])
  }

  predicate SomeLate(ms: seq<Message>) {
    exists k: nat | k < |ms| :: Late(ms, k)
  }

  lemma SomeLateSnoc(ms: seq<Message>, m: Message)
    ensures SomeLate(ms + [m]) <==> SomeLate(ms) || Late(ms + [m], |ms|)
  {
    forall k: nat | k < |ms|
      ensures Late(ms + [m], k) <==> Late(ms, k)
    {
      assert (ms + [m])[..k] == ms[..k];
    }
    if k: nat :| k < |ms| && Late(ms, k) {
      assert Late(ms + [m], k);
    }
  }

  /** What one more message means for the history. */
  lemma ExtendedPairs(canon: string -> string, before: seq<Entry>, m: Message)
    requires m.role == Assistant && HasUseBlock(m.content) ==> HasCalls(m)
    ensures Paired(Extended(canon, before, m)) <==>
            Paired(before) && (m.role == User && ResultsFor(m) != [] ==> EndsWithUses(before))
    ensures EndsWithUses(Extended(canon, before, m)) <==>
            (m.role == Assistant && HasCalls(m)) || (m.role.Other? && EndsWithUses(before))
  {
    match m.role
    case User =>
      PairedSnoc(before, UserInput(m));
    case Assistant =>
      CallsGiveUses(canon, m);
      PairedSnoc(before, SYNTHETIC);
      PairedSnoc(before, AssistantResponse(canon, m));
      PairedSnoc(before + [SYNTHETIC], AssistantResponse(canon, m));
    case Other(_) =>
  }

  lemma UsesListedPrefix(ms: seq<Message>)
    requires ms != [] && UsesListed(ms)
    ensures UsesListed(ms[..|ms| - 1])
  {
    assert forall k | 0 <= k < |ms| - 1 :: ms[..|ms| - 1][k] == ms[k];
  }

  lemma SomeLateHere(ms: seq<Message>)
    requires ms != []
    ensures SomeLate(ms) <==> SomeLate(ms[..|ms| - 1]) || Late(ms, |ms| - 1)
  {
    assert ms == ms[..|ms| - 1] + [ms[|ms| - 1]];
    SomeLateSnoc(ms[..|ms| - 1], ms[|ms| - 1]);
  }

  /** In the history of merged messages results follow uses, unless one of the messages is late. */
  lemma {:induction false} HistoryPairs(canon: string -> string, ms: seq<Message>)
    requires RolesAlternate(ms) && UsesListed(ms)
    ensures Paired(History(canon, ms)) <==> !SomeLate(ms)
    ensures EndsWithUses(History(canon, ms)) <==> UsesBefore(ms)
  {
    if ms == [] {
    } else {
      UsesListedPrefix(ms);
      HistoryPairs(canon, ms[..|ms| - 1]);
      ExtendedPairs(canon, History(canon, ms[..|ms| - 1]), ms[|ms| - 1]);
      SomeLateHere(ms);
    }
  }

  // ----- The payload -----

  /** A late one among earlier merged messages, once the system prompt has gone to the first user. */
  predicate LateEarly(prompt: string, ms: seq<Message>, k: nat)
    requires k < |ms|
  {
    && ms[k].role == User && ms[k].toolResults.None? && HasResultBlock(ms[k].content) && !UsesBefore(ms[..k])
    && (prompt != "" ==> FirstUser(ms[..k]).Some?)
  }

  lemma {:induction false} SameRoles(a: seq<Message>, b: seq<Message>)
    requires |a| == |b| && forall k | 0 <= k < |a| :: a[k].role == b[k].role
    ensures RolesAlternate(a) == RolesAlternate(b)
  {
    if |a| <= 1 {
    } else {
      SameRoles(a[..|a| - 1], b[..|b| - 1]);
    }
  }

  lemma FirstUserAt(ms: seq<Message>, k: nat)
    requires k < |ms| && ms[k].role == User
    ensures FirstUser(ms) == Some(k) <==> FirstUser(ms[..k]).None?
  {
    assert forall j | 0 <= j < k :: ms[..k][j] == ms[j];
  }

  lemma ResultsThere(m: Message)
    ensures ResultsFor(m) != [] <==> HasResults(m) || (m.toolResults.None? && HasResultBlock(m.content))
  {
    if m.content.Blocks? {
      BlockResultsExist(m.content.blocks);
    }
  }

  lemma {:induction false} PrecededUses(ms: seq<Message>, k: nat)
    requires Preceded(ms) && k < |ms| && HasResults(ms[k])
    ensures UsesBefore(ms[..k])
  {
    assert ms[..k][k - 1] == ms[k - 1];
  }

  lemma {:induction false} LatePrompted(prompt: string, ms: seq<Message>, k: nat)
    requires Preceded(ms) && k < |ms|
    ensures Late(Prompted(prompt, ms), k) <==> LateEarly(prompt, ms, k)
  {
    var prompted := Prompted(prompt, ms);
    SameUses(prompted[..k], ms[..k]);
    ResultsThere(prompted[k]);
    if HasResults(ms[k]) {
      PrecededUses(ms, k);
    } else if ms[k].role == User {
      FirstUserAt(ms, k);
    }
  }

  /** Some earlier message is late once the system prompt has gone to the first user. */
  predicate SomeLateEarly(prompt: string, merged: seq<Message>) {
    exists k: nat | k < |merged| - 1 :: LateEarly(prompt, merged, k)
  }

  lemma {:induction false} SomeLatePrompted(prompt: string, ms: seq<Message>)
    requires ms != [] && Preceded(ms) && AllUserResults(ms)
    ensures SomeLate(Prompted(prompt, ms[..|ms| - 1])) <==> SomeLateEarly(prompt, ms)
  {
    var init := ms[..|ms| - 1];
    var earlier := Prompted(prompt, init);
    PrecededPrefix(ms);
    forall k: nat | k < |init|
      ensures Late(earlier, k) <==> LateEarly(prompt, ms, k)
    {
      LatePrompted(prompt, init, k);
      assert init[..k] == ms[..k];
    }
    if k: nat :| k < |init| && LateEarly(prompt, ms, k) {
      assert Late(earlier, k);
    }
  }

  /** The system prompt changes a text and nothing else. */
  lemma {:induction false} PromptedKeeps(prompt: string, ms: seq<Message>)
    ensures UsesBefore(Prompted(prompt, ms)) == UsesBefore(ms)
    ensures RolesAlternate(Prompted(prompt, ms)) == RolesAlternate(ms)
    ensures UsesListed(ms) ==> UsesListed(Prompted(prompt, ms))
  {
    SameRoles(Prompted(prompt, ms), ms);
    SameUses(Prompted(prompt, ms), ms);
  }

  /** In the payload for merged messages results follow uses, unless one of the earlier messages or the last is late. */
  lemma {:induction false} MergedPairs(canon: string -> string, prompt: string, thinking: string, ms: seq<Message>)
    requires ms != [] && RolesAlternate(ms) && Preceded(ms) && AllUserResults(ms) && UsesListed(ms)
    ensures var init, last := ms[..|ms| - 1], ms[|ms| - 1];
            Paired(Entries(PayloadOf(canon, prompt, thinking, ms))) <==>
            !SomeLateEarly(prompt, ms) && (ResultsFor(last) == [] || (last.role != Assistant && UsesBefore(init)))
  {
    UsesListedPrefix(ms);
    PromptedKeeps(prompt, ms[..|ms| - 1]);
    HistoryPairs(canon, Prompted(prompt, ms[..|ms| - 1]));
    SomeLatePrompted(prompt, ms);
    PayloadPairs(canon, prompt, thinking, ms);
  }

  lemma PayloadPairs(canon: string -> string, prompt: string, thinking: string, ms: seq<Message>)
    requires ms != []
    ensures var history, last := History(canon, Prompted(prompt, ms[..|ms| - 1])), ms[|ms| - 1];
            Paired(Entries(PayloadOf(canon, prompt, thinking, ms))) <==>
            Paired(history) && (ResultsFor(last) == [] || (last.role != Assistant && EndsWithUses(history)))
  {
    var p, history := PayloadOf(canon, prompt, thinking, ms), History(canon, Prompted(prompt, ms[..|ms| - 1]));
    PairedSnoc(history, p.current);
    PairedSnoc(history, SYNTHETIC);
    var answer := AssistantEntry(LastText(prompt, ms), map[]);
    PairedSnoc(history + [SYNTHETIC], answer);
    assert history + [SYNTHETIC] + [answer] == history + [SYNTHETIC, answer];
    PairedSnoc(history + [SYNTHETIC, answer], p.current);
  }

  // ----- From merged messages back to the conversation -----

  /** Of a conversation: what merging makes of what the first pass makes of it. */
  function Refined(ms: seq<Message>): seq<Message> {
    Merged(Ensured(ms))
  }

  lemma RefinedSnoc(ms: seq<Message>)
    requires ms != []
    ensures Refined(ms) == MergedWith(Refined(ms[..|ms| - 1]), Kept(Ensured(ms[..|ms| - 1]), ms[|ms| - 1]))
  {
    assert Ensured(ms)[..|ms| - 1] == Ensured(ms[..|ms| - 1]);
  }

  lemma {:induction false} RefinedKeeps(ms: seq<Message>)
    requires Natural(ms)
    ensures RolesAlternate(Refined(ms)) && Preceded(Refined(ms)) && AllUserResults(Refined(ms))
    ensures UsesBefore(Refined(ms)) == UsesBefore(ms) && (Refined(ms) == [] <==> ms == [])
    ensures ms != [] ==> Refined(ms)[|Refined(ms)| - 1].role == ms[|ms| - 1].role
  {
    EnsuringPrecedes(ms);
    EnsuringKeeps(ms);
    MergingPrecedes(Ensured(ms));
    MergingKeepsUses(Ensured(ms));
    MergingAlternates(Ensured(ms));
  }

  lemma {:induction false} RefinedUses(ms: seq<Message>)
    requires Natural(ms)
    ensures UsesListed(Refined(ms))
  {
    if ms == [] {
    } else {
      var init := ms[..|ms| - 1];
      NaturalPrefix(ms);
      RefinedUses(init);
      RefinedSnoc(ms);
    }
  }

  lemma NaturalPrefix(ms: seq<Message>)
    requires ms != [] && Natural(ms)
    ensures Natural(ms[..|ms| - 1])
  {
    var init := ms[..|ms| - 1];
    assert forall k | 0 <= k < |init| :: init[k] == ms[k];
  }

  lemma {:induction false} RefinedUsers(ms: seq<Message>)
    ensures FirstUser(Refined(ms)).Some? <==> FirstUser(ms).Some?
  {
    if ms == [] {
    } else {
      var init, m := ms[..|ms| - 1], ms[|ms| - 1];
      RefinedUsers(init);
      RefinedSnoc(ms);
      UsersSnoc(init, m);
      assert ms == init + [m];
      MergedUsers(Refined(init), Kept(Ensured(init), m));
    }
  }

  lemma MergedUsers(before: seq<Message>, m: Message)
    ensures FirstUser(MergedWith(before, m)).Some? <==> FirstUser(before).Some? || m.role == User
  {
    if before != [] && before[|before| - 1].role == m.role {
      assert forall k | 0 <= k < |before| :: MergedWith(before, m)[k].role == before[k].role;
    } else {
      UsersSnoc(before, m);
    }
  }

  lemma UsersSnoc(ms: seq<Message>, m: Message)
    ensures FirstUser(ms + [m]).Some? <==> FirstUser(ms).Some? || m.role == User
  {
    assert forall k | 0 <= k < |ms| :: (ms + [m])[k] == ms[k];
    assert (ms + [m])[|ms|] == m;
  }

  /** How a last message stands among the merged ones: by itself, or joined to others with its blocks made text. */
  lemma {:induction false} LastRefined(ms: seq<Message>)
    requires ms != [] && Natural(ms)
    ensures var merged, init, m := Refined(ms), ms[..|ms| - 1], ms[|ms| - 1];
            && merged != []
            && if init != [] && init[|init| - 1].role == m.role then merged[|merged| - 1].content.Text?
               else merged == Refined(init) + [Kept(Ensured(init), m)]
  {
    NaturalPrefix(ms);
    RefinedKeeps(ms[..|ms| - 1]);
    RefinedSnoc(ms);
  }

  /** When its results have no uses before them, the list of a message is dropped. */
  lemma {:induction false} DroppedWhenLate(ms: seq<Message>, m: Message)
    requires !UsesBefore(ms) && HasResults(m)
    ensures Kept(Ensured(ms), m).toolResults.None?
  {
    EnsuringKeeps(ms);
  }

  /** The last message keeps its blocks when it is not joined to others, and loses its list when no uses are before. */
  lemma {:induction false} LateAtEnd(ms: seq<Message>)
    requires ms != [] && Natural(ms) && Refined(ms) != []
    ensures var merged, init, m := Refined(ms), ms[..|ms| - 1], ms[|ms| - 1];
            var last, before := merged[|merged| - 1], merged[..|merged| - 1];
            && last.role == m.role && (HasResultBlock(last.content) <==> Alone(ms, |ms| - 1) && HasResultBlock(m.content))
            && (HasResultBlock(last.content) ==> before == Refined(init) && UsesBefore(before) == UsesBefore(init))
            && (HasResultBlock(last.content) && !UsesBefore(init) ==> last.toolResults.None?)
            && (last.role != User ==> last.toolResults.None?)
  {
    var init, m := ms[..|ms| - 1], ms[|ms| - 1];
    LastRefined(ms);
    RefinedKeeps(ms);
    NaturalPrefix(ms);
    RefinedKeeps(init);
    if Alone(ms, |ms| - 1) {
      assert init != [] ==> init[|init| - 1] == ms[|ms| - 2];
      assert Refined(ms)[..|Refined(ms)| - 1] == Refined(init);
      if HasResults(m) && !UsesBefore(init) {
        DroppedWhenLate(init, m);
      }
    }
  }

  predicate SomeComesBackEarly(prompt: string, ms: seq<Message>) {
    exists k: nat | k < |ms| - 1 :: ComesBackEarly(prompt, ms, k)
  }

  /** Only messages before it, and it itself, decide whether a message is late. */
  lemma SomeLateEarlyOn(prompt: string, a: seq<Message>, b: seq<Message>)
    requires a != [] && |a| <= |b| <= |a| + 1 && a[..|a| - 1] == b[..|a| - 1] && (|a| < |b| ==> a == b[..|a|])
    ensures SomeLateEarly(prompt, b) <==>
            SomeLateEarly(prompt, a) || (|a| < |b| && LateEarly(prompt, a, |a| - 1))
  {
    forall k: nat | k < |b| - 1
      ensures LateEarly(prompt, b, k) <==> LateEarly(prompt, a, k)
    {
      assert b[..k] == a[..k] && b[k] == a[k] by {
        if |a| < |b| {
          assert b[..|a|][..k] == b[..k] && b[..|a|][k] == b[k];
        } else {
          assert a[..|a| - 1][..k] == a[..k] && b[..|a| - 1][..k] == b[..k];
          assert a[..|a| - 1][k] == a[k] && b[..|a| - 1][k] == b[k];
        }
      }
    }
    if k: nat :| k < |a| - 1 && LateEarly(prompt, a, k) {
      assert LateEarly(prompt, b, k);
    }
  }

  lemma SomeComesBackOn(prompt: string, ms: seq<Message>)
    requires |ms| > 1
    ensures SomeComesBackEarly(prompt, ms) <==>
            SomeComesBackEarly(prompt, ms[..|ms| - 1]) || ComesBackEarly(prompt, ms, |ms| - 2)
  {
    var init := ms[..|ms| - 1];
    forall k: nat | k < |init| - 1
      ensures ComesBackEarly(prompt, ms, k) <==> ComesBackEarly(prompt, init, k)
    {
      assert init[..k] == ms[..k];
    }
    if k: nat :| k < |init| - 1 && ComesBackEarly(prompt, init, k) {
      assert ComesBackEarly(prompt, ms, k);
    }
  }

  /** The earlier messages that are late after the passes are those whose results come back. */
  lemma {:induction false} EarlyAgree(prompt: string, ms: seq<Message>)
    requires ms != [] && Natural(ms)
    ensures Refined(ms) != [] && (SomeLateEarly(prompt, Refined(ms)) <==> SomeComesBackEarly(prompt, ms))
  {
    var init, m := ms[..|ms| - 1], ms[|ms| - 1];
    RefinedKeeps(ms);
    RefinedSnoc(ms);
    if |ms| == 1 {
    } else {
      NaturalPrefix(ms);
      EarlyAgree(prompt, init);
      RefinedKeeps(init);
      SomeLateEarlyOn(prompt, Refined(init), Refined(ms));
      SomeComesBackOn(prompt, ms);
      LastEarlyAgrees(prompt, ms);
    }
  }

  lemma {:induction false} LastEarlyAgrees(prompt: string, ms: seq<Message>)
    requires |ms| > 1 && Natural(ms) && Refined(ms[..|ms| - 1]) != []
    ensures var before := Refined(ms[..|ms| - 1]);
            ComesBackEarly(prompt, ms, |ms| - 2) <==>
            ms[|ms| - 2].role != ms[|ms| - 1].role && LateEarly(prompt, before, |before| - 1)
  {
    var init := ms[..|ms| - 1];
    NaturalPrefix(ms);
    LateAtEnd(init);
    RefinedKeeps(init);
    RefinedUsers(init[..|init| - 1]);
    assert init[..|init| - 1] == ms[..|ms| - 2];
  }

  /**
   * With tools, every entry with tool results comes directly after an assistant entry with tool uses, unless results
   * of a message come back: the pass drops their list, but the payload finds them again in the content blocks.
   */
  lemma {:induction false} ResultsFollowUses(canon: string -> string, prompt: string, thinking: string, ms: seq<Message>)
    requires ms != [] && Natural(ms)
    ensures Merged(Ensured(ms)) != []
    ensures Paired(Entries(PayloadOf(canon, prompt, thinking, Merged(Ensured(ms))))) <==>
            forall k: nat | k < |ms| :: !ComesBack(prompt, ms, k)
  {
    RefinedKeeps(ms);
    RefinedUses(ms);
    MergedPairs(canon, prompt, thinking, Refined(ms));
    EarlyAgree(prompt, ms);
    LastAgrees(ms);
    SomeComesBack(prompt, ms);
  }

  lemma SomeComesBack(prompt: string, ms: seq<Message>)
    requires ms != []
    ensures (exists k: nat | k < |ms| :: ComesBack(prompt, ms, k)) <==>
            SomeComesBackEarly(prompt, ms) || ComesBackLast(ms, |ms| - 1)
  {
    if k: nat :| k < |ms| - 1 && ComesBackEarly(prompt, ms, k) {
      assert ComesBack(prompt, ms, k);
    }
    assert ComesBack(prompt, ms, |ms| - 1) <==> ComesBackLast(ms, |ms| - 1);
  }

  lemma {:induction false} LastAgrees(ms: seq<Message>)
    requires ms != [] && Natural(ms) && Refined(ms) != []
    ensures var merged := Refined(ms);
            var last, init := merged[|merged| - 1], merged[..|merged| - 1];
            ResultsFor(last) == [] || (last.role != Assistant && UsesBefore(init)) <==> !ComesBackLast(ms, |ms| - 1)
  {
    var merged := Refined(ms);
    LateAtEnd(ms);
    RefinedKeeps(ms);
    ResultsThere(merged[|merged| - 1]);
    if HasResults(merged[|merged| - 1]) {
      PrecededUses(merged, |merged| - 1);
    }
  }
}
