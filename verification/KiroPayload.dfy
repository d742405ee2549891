/** Building the history and the payload from merged messages. */
module KiroPayload {
  import opened Wrappers
  import opened Text
  import opened KiroModel
  import opened KiroPasses
  import ResponsesModel

  // ----- Tool uses -----

  function Placeholder(n: nat): string {
    "__no_id_" + ResponsesModel.Decimal(n)
  }

  predicate IsPlaceholder(key: string) {
    "__no_id_" <= key
  }

  /** The size of an input is the length of its JSON text. */
  function Size(u: ToolUse): nat {
    ByteLen(u.input)
  }

  /** Of two uses with one identifier the larger is kept, and the earlier of equals; without one, each is kept. */
  function Filed(byId: map<string, ToolUse>, u: ToolUse): map<string, ToolUse> {
    if u.id == "" then byId[Placeholder(|byId|) := u]
    else if u.id in byId && Size(u) <= Size(byId[u.id]) then byId
    else byId[u.id := u]
  }

  function Deduplicated(uses: seq<ToolUse>): map<string, ToolUse> {
    if uses == [] then map[] else Filed(Deduplicated(uses[..|uses| - 1]), uses[|uses| - 1])
  }

  method DeduplicateToolUses(uses: seq<ToolUse>) returns (byId: map<string, ToolUse>)
    ensures byId == Deduplicated(uses)
  {
    byId := map[];
    for i := 0 to |uses|
      invariant byId == Deduplicated(uses[..i])
    {
      assert uses[..i + 1][..i] == uses[..i];
      var u := uses[i];
      if u.id == "" {
        byId := byId[Placeholder(|byId|) := u];
        continue;
      }
      if u.id in byId {
        if Size(u) > Size(byId[u.id]) {
          byId := byId[u.id := u];
        }
      } else {
        byId := byId[u.id := u];
      }
    }
    assert uses[..|uses|] == uses;
  }

  predicate Largest(uses: seq<ToolUse>, u: ToolUse) {
    u in uses && forall v | v in uses && v.id == u.id :: Size(v) <= Size(u)
  }

  function Ids(uses: seq<ToolUse>): set<string> {
    if uses == [] then {}
    else
      var last := uses[|uses| - 1];
      Ids(uses[..|uses| - 1]) + if last.id == "" then {} else {last.id}
  }

  function Unnamed(uses: seq<ToolUse>): nat {
    if uses == [] then 0 else Unnamed(uses[..|uses| - 1]) + if uses[|uses| - 1].id == "" then 1 else 0
  }

  /** How many uses are to be kept: one for every identifier, and every use without one. */
  function Expected(uses: seq<ToolUse>): nat {
    |Ids(uses)| + Unnamed(uses)
  }

  /** The key that is made up for the use at `i`, which has no identifier, is the identifier of the use at `k`. */
  predicate Collides(uses: seq<ToolUse>, i: nat, k: nat)
    requires i < |uses| && k < |uses|
  {
    uses[i].id == "" && uses[k].id == Placeholder(Expected(uses[..i]))
  }

  predicate Collision(uses: seq<ToolUse>) {
    exists i: nat, k: nat | i < |uses| && k < |uses| :: Collides(uses, i, k)
  }

  lemma PlaceholderIsInjective(m: nat, n: nat)
    requires Placeholder(m) == Placeholder(n)
    ensures m == n
  {
    assert Placeholder(m)[8..] == ResponsesModel.Decimal(m) && Placeholder(n)[8..] == ResponsesModel.Decimal(n);
    ResponsesModel.DecimalIsInjective(m, n);
  }

  lemma {:induction false} IdsAreUsed(uses: seq<ToolUse>, id: string)
    ensures id in Ids(uses) <==> id != "" && exists k: nat | k < |uses| :: uses[k].id == id
  {
    if uses == [] {
    } else {
      var init := uses[..|uses| - 1];
      IdsAreUsed(init, id);
      assert forall k | 0 <= k < |init| :: init[k] == uses[k];
    }
  }

  lemma {:induction false} ExpectedOn(uses: seq<ToolUse>)
    requires uses != []
    ensures var init, id := uses[..|uses| - 1], uses[|uses| - 1].id;
            Expected(uses) == Expected(init) + if id in Ids(init) then 0 else 1
  {
    var init, id := uses[..|uses| - 1], uses[|uses| - 1].id;
    IdsAreUsed(init, "");
    assert Ids(init) + {} == Ids(init);
    assert id in Ids(init) ==> Ids(init) + {id} == Ids(init);
  }

  /** More is expected after a use without an identifier than before. */
  lemma {:induction false} ExpectedGrows(uses: seq<ToolUse>, i: nat)
    requires i < |uses| && uses[i].id == ""
    ensures Expected(uses[..i]) < Expected(uses)
  {
    var init := uses[..|uses| - 1];
    ExpectedOn(uses);
    if i == |uses| - 1 {
      IdsAreUsed(init, "");
    } else {
      ExpectedGrows(init, i);
      assert init[..i] == uses[..i];
    }
  }

  /** A key made up for one of the uses. */
  predicate MadeUp(uses: seq<ToolUse>, key: string) {
    exists i: nat | i < |uses| :: uses[i].id == "" && key == Placeholder(Expected(uses[..i]))
  }

  lemma MadeUpOn(uses: seq<ToolUse>, key: string)
    requires uses != []
    ensures var init := uses[..|uses| - 1];
            MadeUp(uses, key) <==> MadeUp(init, key) || (uses[|uses| - 1].id == "" && key == Placeholder(Expected(init)))
  {
    var init := uses[..|uses| - 1];
    forall i: nat | i < |init|
      ensures init[i] == uses[i] && init[..i] == uses[..i]
    {
    }
    if i: nat :| i < |init| && init[i].id == "" && key == Placeholder(Expected(init[..i])) {
      assert uses[i].id == "" && key == Placeholder(Expected(uses[..i]));
    }
  }

  lemma CollisionMeans(uses: seq<ToolUse>)
    ensures Collision(uses) <==> exists id | id in Ids(uses) :: MadeUp(uses, id)
  {
    if i: nat, k: nat :| i < |uses| && k < |uses| && Collides(uses, i, k) {
      IdsAreUsed(uses, uses[k].id);
      assert uses[k].id in Ids(uses) && MadeUp(uses, uses[k].id);
    }
    if id :| id in Ids(uses) && MadeUp(uses, id) {
      IdsAreUsed(uses, id);
      var k: nat :| k < |uses| && uses[k].id == id;
      var i: nat :| i < |uses| && uses[i].id == "" && id == Placeholder(Expected(uses[..i]));
      assert Collides(uses, i, k);
    }
  }

  /** Collisions stay; a new one comes with a key that is made up, or with an identifier. */
  lemma CollisionOn(uses: seq<ToolUse>)
    requires uses != []
    ensures var init, last := uses[..|uses| - 1], uses[|uses| - 1];
            Collision(uses) <==>
            Collision(init) || (if last.id == "" then Placeholder(Expected(init)) in Ids(init) else MadeUp(init, last.id))
  {
    var init, last := uses[..|uses| - 1], uses[|uses| - 1];
    CollisionMeans(uses);
    CollisionMeans(init);
    forall id
      ensures MadeUp(uses, id) <==> MadeUp(init, id) || (last.id == "" && id == Placeholder(Expected(init)))
    {
      MadeUpOn(uses, id);
    }
    assert last.id != "" ==> last.id in Ids(uses);
    assert forall id | id in Ids(init) :: id in Ids(uses);
  }

  ghost predicate KeysAre(byId: map<string, ToolUse>, uses: seq<ToolUse>) {
    |byId| == Expected(uses) && forall key :: key in byId <==> key in Ids(uses) || MadeUp(uses, key)
  }

  lemma NotMadeUpYet(uses: seq<ToolUse>)
    ensures !MadeUp(uses, Placeholder(Expected(uses)))
  {
    forall i: nat | i < |uses| && uses[i].id == ""
      ensures Placeholder(Expected(uses)) != Placeholder(Expected(uses[..i]))
    {
      ExpectedGrows(uses, i);
      if Placeholder(Expected(uses)) == Placeholder(Expected(uses[..i])) {
        PlaceholderIsInjective(Expected(uses), Expected(uses[..i]));
      }
    }
  }

  /** Without a collision the keys are the identifiers and the keys made up, and none is used twice. */
  lemma {:induction false} NumberedBelow(uses: seq<ToolUse>)
    requires !Collision(uses)
    ensures KeysAre(Deduplicated(uses), uses)
  {
    if uses == [] {
    } else {
      var init, last := uses[..|uses| - 1], uses[|uses| - 1];
      CollisionOn(uses);
      NumberedBelow(init);
      ExpectedOn(uses);
      NotMadeUpYet(init);
      IdsAreUsed(init, "");
      forall key
        ensures MadeUp(uses, key) <==> MadeUp(init, key) || (last.id == "" && key == Placeholder(Expected(init)))
      {
        MadeUpOn(uses, key);
      }
    }
  }

  lemma {:induction false} AtMostExpected(uses: seq<ToolUse>)
    ensures |Deduplicated(uses)| <= Expected(uses)
    ensures forall id | id in Ids(uses) :: id in Deduplicated(uses)
  {
    if uses == [] {
    } else {
      AtMostExpected(uses[..|uses| - 1]);
      ExpectedOn(uses);
    }
  }

  lemma {:induction false} FewerThanExpected(uses: seq<ToolUse>)
    requires Collision(uses)
    ensures |Deduplicated(uses)| < Expected(uses)
  {
    if uses == [] {
    } else {
      var init, last := uses[..|uses| - 1], uses[|uses| - 1];
      CollisionOn(uses);
      ExpectedOn(uses);
      AtMostExpected(init);
      IdsAreUsed(init, "");
      if Collision(init) {
        FewerThanExpected(init);
      } else {
        NumberedBelow(init);
        CollisionMeans(init);
      }
    }
  }

  /**
   * One use is kept for every identifier, and every use without one, exactly unless a key that is made up for one of
   * these collides with an identifier: then there are fewer.
   */
  lemma OnePerIdentifier(uses: seq<ToolUse>)
    ensures |Deduplicated(uses)| <= |Ids(uses)| + Unnamed(uses)
    ensures |Deduplicated(uses)| == |Ids(uses)| + Unnamed(uses) <==> !Collision(uses)
  {
    AtMostExpected(uses);
    if Collision(uses) {
      FewerThanExpected(uses);
    } else {
      NumberedBelow(uses);
    }
  }

  lemma {:induction false} KeptAreUses(uses: seq<ToolUse>, key: string)
    requires key in Deduplicated(uses)
    ensures Deduplicated(uses)[key] in uses
  {
    if uses == [] {
    } else {
      var init, last := uses[..|uses| - 1], uses[|uses| - 1];
      assert uses == init + [last];
      if key in Deduplicated(init) {
        KeptAreUses(init, key);
      }
    }
  }

  /** Every identifier is kept with its largest use, unless there is a collision and it looks like a key made up. */
  lemma {:induction false} LargestIsKept(uses: seq<ToolUse>, id: string)
    requires id != "" && (IsPlaceholder(id) ==> !Collision(uses))
    ensures (id in Deduplicated(uses) && Deduplicated(uses)[id].id == id) <==> exists u :: u in uses && u.id == id
    ensures (exists u :: u in uses && u.id == id) ==> id in Deduplicated(uses) && Largest(uses, Deduplicated(uses)[id])
  {
    if id in Deduplicated(uses) {
      KeptAreUses(uses, id);
    }
    if u :| u in uses && u.id == id {
      KeptIsLargest(uses, id);
    }
  }

  lemma {:induction false} KeptIsLargest(uses: seq<ToolUse>, id: string)
    requires id != "" && (IsPlaceholder(id) ==> !Collision(uses)) && exists u :: u in uses && u.id == id
    ensures id in Deduplicated(uses) && Deduplicated(uses)[id].id == id && Largest(uses, Deduplicated(uses)[id])
  {
    if uses == [] {
    } else {
      var init, last := uses[..|uses| - 1], uses[|uses| - 1];
      assert uses == init + [last];
      CollisionOn(uses);
      KeyStaysAway(uses, id);
      if u :| u in init && u.id == id {
        KeptIsLargest(init, id);
      } else {
        assert last.id == id && id !in Deduplicated(init);
      }
    }
  }

  lemma {:induction false} IdIsUsed(uses: seq<ToolUse>, id: string)
    requires id != ""
    ensures id in Ids(uses) <==> exists u :: u in uses && u.id == id
  {
    IdsAreUsed(uses, id);
    if u :| u in uses && u.id == id {
      var k: nat :| k < |uses| && uses[k] == u;
      assert uses[k].id == id;
    }
    if k: nat :| k < |uses| && uses[k].id == id {
      assert uses[k] in uses;
    }
  }

  /** No key that is made up is this identifier. */
  lemma {:induction false} KeyStaysAway(uses: seq<ToolUse>, id: string)
    requires uses != [] && id != "" && (IsPlaceholder(id) ==> !Collision(uses)) && exists u :: u in uses && u.id == id
    ensures var init, last := uses[..|uses| - 1], uses[|uses| - 1];
            && (last.id == "" ==> Placeholder(|Deduplicated(init)|) != id)
            && ((forall u | u in init :: u.id != id) ==> id !in Deduplicated(init))
  {
    var init, last := uses[..|uses| - 1], uses[|uses| - 1];
    assert uses == init + [last];
    IdIsUsed(init, id);
    if IsPlaceholder(id) {
      CollisionOn(uses);
      NumberedBelow(init);
    } else if forall u | u in init :: u.id != id {
      NeverFiled(init, id);
    }
  }

  lemma {:induction false} NeverFiled(uses: seq<ToolUse>, id: string)
    requires id != "" && !IsPlaceholder(id) && forall u | u in uses :: u.id != id
    ensures id !in Deduplicated(uses)
  {
    if uses == [] {
    } else {
      var init, last := uses[..|uses| - 1], uses[|uses| - 1];
      assert uses == init + [last];
      assert last in uses;
      NeverFiled(init, id);
    }
  }

  // ----- Entries -----

  function BlockResults(blocks: seq<Block>): seq<KiroResult> {
    if blocks == [] then []
    else
      var b := blocks[|blocks| - 1];
      BlockResults(blocks[..|blocks| - 1])
      + if b.ToolResultBlock? then [KiroResult(b.toolUseId, OrPlaceholder(b.content, EMPTY_RESULT))] else []
  }

  function KiroResults(results: seq<ToolResult>): seq<KiroResult> {
    seq(|results|, k requires 0 <= k < |results| =>
      KiroResult(results[k].toolUseId, OrPlaceholder(results[k].content, EMPTY_RESULT)))
  }

  /** The results of a message; only when it has no list of them are they looked for in its content. */
  function ResultsFor(m: Message): seq<KiroResult> {
    match m.toolResults
    case Some(results) => KiroResults(results)
    case None => if m.content.Blocks? then BlockResults(m.content.blocks) else []
  }

  function BlockUses(blocks: seq<Block>): seq<ToolUse> {
    if blocks == [] then []
    else
      var b := blocks[|blocks| - 1];
      BlockUses(blocks[..|blocks| - 1]) + if b.ToolUseBlock? then [ToolUse(b.id, b.name, b.input)] else []
  }

  /** The uses of a message: its calls, with their arguments parsed and printed again, and those in its content. */
  function UsesOf(canon: string -> string, m: Message): seq<ToolUse> {
    var calls := m.toolCalls.GetOr([]);
    seq(|calls|, k requires 0 <= k < |calls| => ToolUse(calls[k].id, calls[k].name, canon(calls[k].arguments)))
    + if m.content.Blocks? then BlockUses(m.content.blocks) else []
  }

  function UserInput(m: Message): Entry {
    UserEntry(OrPlaceholder(TextOf(m.content), EMPTY), ResultsFor(m))
  }

  function AssistantResponse(canon: string -> string, m: Message): Entry {
    AssistantEntry(OrPlaceholder(TextOf(m.content), EMPTY), Deduplicated(UsesOf(canon, m)))
  }

  /** An assistant entry is never the first: without a user entry before it, a synthetic one is put there. */
  function Extended(canon: string -> string, before: seq<Entry>, m: Message): seq<Entry> {
    match m.role
    case User => before + [UserInput(m)]
    case Assistant =>
      var paired := if before != [] && before[|before| - 1].UserEntry? then before else before + [SYNTHETIC];
      paired + [AssistantResponse(canon, m)]
    case Other(_) => before
  }

  function History(canon: string -> string, ms: seq<Message>): seq<Entry> {
    if ms == [] then [] else Extended(canon, History(canon, ms[..|ms| - 1]), ms[|ms| - 1])
  }

  method BuildKiroHistory(canon: string -> string, ms: seq<Message>) returns (history: seq<Entry>)
    ensures history == History(canon, ms)
  {
    history := [];
    for i := 0 to |ms|
      invariant history == History(canon, ms[..i])
    {
      assert ms[..i + 1][..i] == ms[..i];
      var m := ms[i];
      match m.role
      case User =>
        history := history + [UserInput(m)];
      case Assistant =>
        if history == [] || !history[|history| - 1].UserEntry? {
          history := history + [SYNTHETIC];
        }
        history := history + [AssistantResponse(canon, m)];
      case Other(_) =>
    }
    assert ms[..|ms|] == ms;
  }

  // ----- The payload -----

  function FirstUser(ms: seq<Message>): (r: Option<nat>)
    ensures r.Some? ==> r.value < |ms| && ms[r.value].role == User && forall k | 0 <= k < r.value :: ms[k].role != User
    ensures r.None? ==> forall k | 0 <= k < |ms| :: ms[k].role != User
  {
    if ms == [] then None
    else if ms[0].role == User then Some(0)
    else
      match FirstUser(ms[1..])
      case Some(k) => Some(k + 1)
      case None => None
  }

  /** An addition to the system prompt; it stands alone, trimmed, when there is none. */
  function Added(prompt: string, addition: string): string {
    if addition == "" then prompt else if prompt != "" then prompt + addition else Trim(addition)
  }

  /** The system prompt goes before the text of the first user message, if it is there. */
  function Prompted(prompt: string, ms: seq<Message>): (r: seq<Message>)
    ensures |r| == |ms|
  {
    match FirstUser(ms)
    case Some(k) =>
      if prompt == "" then ms else ms[k := ms[k].(content := Text(prompt + "\n\n" + TextOf(ms[k].content)))]
    case None => ms
  }

  const CONTINUE := "Continue"

  /** The text of the last message; the system prompt goes before it when no earlier user message takes it. */
  function LastText(prompt: string, ms: seq<Message>): string
    requires ms != []
  {
    var text := TextOf(ms[|ms| - 1].content);
    if prompt != "" && FirstUser(ms[..|ms| - 1]).None? then prompt + "\n\n" + text else text
  }

  function CurrentText(prompt: string, thinking: string, ms: seq<Message>): string
    requires ms != []
  {
    match ms[|ms| - 1].role
    case Assistant => CONTINUE
    case User => thinking + OrPlaceholder(LastText(prompt, ms), CONTINUE)
    case Other(_) => OrPlaceholder(LastText(prompt, ms), CONTINUE)
  }

  /** The payload for merged messages: all but the last are history, and so is the last of an assistant. */
  function PayloadOf(canon: string -> string, prompt: string, thinking: string, ms: seq<Message>): Payload
    requires ms != []
  {
    var last := ms[|ms| - 1];
    var history := History(canon, Prompted(prompt, ms[..|ms| - 1]));
    Payload(if last.role == Assistant then history + [SYNTHETIC, AssistantEntry(LastText(prompt, ms), map[])] else history,
            UserEntry(CurrentText(prompt, thinking, ms), ResultsFor(last)))
  }

  function Handled(ms: seq<Message>, hasTools: bool): seq<Message> {
    if hasTools then Ensured(ms) else StrippedAll(ms)
  }

  function FullPrompt(prompt: string, additions: seq<string>): string {
    if additions == [] then prompt else Added(FullPrompt(prompt, additions[..|additions| - 1]),
                                              additions[|additions| - 1])
  }

  /** `build_kiro_payload_core`, on a system prompt, its additions and the thinking prefix for user messages. */
  method BuildKiroPayloadCore(ms: seq<Message>, systemPrompt: string, additions: seq<string>, thinking: string,
                              hasTools: bool, canon: string -> string)
    returns (result: Result<Payload>)
    ensures result ==
            if ms == [] then Err("No messages to send")
            else Ok(PayloadOf(canon, FullPrompt(systemPrompt, additions), thinking, Merged(Handled(ms, hasTools))))
  {
    var prompt := systemPrompt;
    for k := 0 to |additions|
      invariant prompt == FullPrompt(systemPrompt, additions[..k])
    {
      assert additions[..k + 1][..k] == additions[..k];
      if additions[k] != "" {
        prompt := if prompt != "" then prompt + additions[k] else Trim(additions[k]);
      }
    }
    assert additions[..|additions|] == additions;

    var handled, changed;
    if !hasTools {
      handled, changed := StripAllToolContent(ms);
    } else {
      handled, changed := EnsureAssistantBeforeToolResults(ms);
    }
    var merged := MergeAdjacentMessages(handled);
    MergingAlternates(handled);
    if merged == [] {
      return Err("No messages to send");
    }
    var payload := Assemble(canon, prompt, thinking, merged);
    return Ok(payload);
  }

  method Assemble(canon: string -> string, prompt: string, thinking: string, merged: seq<Message>)
    returns (payload: Payload)
    requires merged != []
    ensures payload == PayloadOf(canon, prompt, thinking, merged)
  {
    var earlier, current := merged[..|merged| - 1], merged[|merged| - 1];
    var injected := false;
    var first := FirstUser(earlier);
    if prompt != "" && first.Some? {
      var text := TextOf(earlier[first.value].content);
      earlier := earlier[first.value := earlier[first.value].(content := Text(prompt + "\n\n" + text))];
      injected := true;
    }
    var history := BuildKiroHistory(canon, earlier);
    var content := TextOf(current.content);
    if prompt != "" && !injected {
      content := prompt + "\n\n" + content;
    }
    if current.role == Assistant {
      history := history + [SYNTHETIC, AssistantEntry(content, map[])];
      content := CONTINUE;
    }
    if content == "" {
      content := CONTINUE;
    }
    if current.role == User {
      content := thinking + content;
    }
    payload := Payload(history, UserEntry(content, ResultsFor(current)));
  }

  // ----- The system prompt in the history -----

  /** A message of a history with the system prompt, if it takes it. */
  function PromptedMessage(prompt: string, before: seq<Message>, m: Message): Message {
    if prompt != "" && FirstUser(before).None? && m.role == User
    then m.(content := Text(prompt + "\n\n" + TextOf(m.content)))
    else m
  }

  lemma {:induction false} FirstUserOn(ms: seq<Message>, m: Message)
    ensures FirstUser(ms).Some? ==> FirstUser(ms + [m]) == FirstUser(ms)
    ensures FirstUser(ms).None? ==> FirstUser(ms + [m]) == if m.role == User then Some(|ms|) else None
  {
    var more := ms + [m];
    assert forall k | 0 <= k < |ms| :: more[k] == ms[k];
    assert more[|ms|] == m;
  }

  lemma {:induction false} PromptedSnoc(prompt: string, ms: seq<Message>, m: Message)
    ensures Prompted(prompt, ms + [m]) == Prompted(prompt, ms) + [PromptedMessage(prompt, ms, m)]
  {
    FirstUserOn(ms, m);
  }

  lemma {:induction false} HistoryExtends(canon: string -> string, prompt: string, ms: seq<Message>, m: Message)
    ensures History(canon, Prompted(prompt, ms + [m])) ==
            Extended(canon, History(canon, Prompted(prompt, ms)), PromptedMessage(prompt, ms, m))
  {
    PromptedSnoc(prompt, ms, m);
    var prompted := Prompted(prompt, ms);
    assert (prompted + [PromptedMessage(prompt, ms, m)])[..|prompted|] == prompted;
  }
}
