/** Users and assistants in a payload: when they take turns, where synthetic users stand, where the prompt is sent. */
module KiroTurns {
  import opened Wrappers
  import opened Text
  import opened KiroModel
  import opened KiroPasses
  import opened KiroPayload
  import opened KiroOrder

  // ----- Roles -----

  /** The last user or assistant; messages of other roles leave no trace in a history. */
  function LastSpeaker(roles: seq<Role>): Option<Role> {
    if roles == [] then None
    else
      match roles[|roles| - 1]
      case Other(_) => LastSpeaker(roles[..|roles| - 1])
      case role => Some(role)
  }

  /** The same role speaks again, with nothing but messages of other roles between. */
  predicate Resumes(role: Role, roles: seq<Role>, k: nat)
    requires k < |roles|
  {
    roles[k] == role && k > 0 && roles[k - 1].Other? && LastSpeaker(roles[..k]) == Some(role)
  }

  predicate Resumed(role: Role, roles: seq<Role>) {
    exists k: nat | k < |roles| :: Resumes(role, roles, k)
  }

  /** What comes before the last run of messages of one role. */
  function BeforeRun(roles: seq<Role>): seq<Role>
    requires roles != []
  {
    var init := roles[..|roles| - 1];
    if init != [] && init[|init| - 1] == roles[|roles| - 1] then BeforeRun(init) else init
  }

  function SqueezedWith(before: seq<Role>, role: Role): seq<Role> {
    if before != [] && before[|before| - 1] == role then before else before + [role]
  }

  /** Merging leaves one of every run. */
  function Squeezed(roles: seq<Role>): seq<Role> {
    if roles == [] then [] else SqueezedWith(Squeezed(roles[..|roles| - 1]), roles[|roles| - 1])
  }

  lemma MergedWithRoles(before: seq<Message>, m: Message)
    ensures Roles(MergedWith(before, m)) == SqueezedWith(Roles(before), m.role)
  {
  }

  lemma {:induction false} MergedRoles(ms: seq<Message>)
    ensures Roles(Merged(ms)) == Squeezed(Roles(ms))
  {
    if ms == [] {
    } else {
      MergedRoles(ms[..|ms| - 1]);
      MergedWithRoles(Merged(ms[..|ms| - 1]), ms[|ms| - 1]);
      assert Roles(ms)[..|ms| - 1] == Roles(ms[..|ms| - 1]);
    }
  }

  lemma HandledRoles(ms: seq<Message>, hasTools: bool)
    ensures Roles(Handled(ms, hasTools)) == Roles(ms)
  {
    EnsuringKeeps(ms);
  }

  lemma {:induction false} ResumedSnoc(role: Role, roles: seq<Role>)
    requires roles != []
    ensures Resumed(role, roles) <==> Resumed(role, roles[..|roles| - 1]) || Resumes(role, roles, |roles| - 1)
  {
    var init := roles[..|roles| - 1];
    forall k: nat | k < |init|
      ensures Resumes(role, roles, k) <==> Resumes(role, init, k)
    {
      assert init[..k] == roles[..k];
    }
    if k: nat :| k < |init| && Resumes(role, init, k) {
      assert Resumes(role, roles, k);
    }
  }

  lemma {:induction false} SqueezedEnd(roles: seq<Role>)
    requires roles != []
    ensures var s := Squeezed(roles); s != [] && s[|s| - 1] == roles[|roles| - 1]
  {
  }

  lemma SpeakerWith(before: seq<Role>, role: Role)
    ensures LastSpeaker(SqueezedWith(before, role)) == if role.Other? then LastSpeaker(before) else Some(role)
  {
    assert (before + [role])[..|before|] == before;
  }

  lemma {:induction false} SqueezedSpeaker(roles: seq<Role>)
    ensures LastSpeaker(Squeezed(roles)) == LastSpeaker(roles)
  {
    if roles == [] {
    } else {
      SqueezedSpeaker(roles[..|roles| - 1]);
      SpeakerWith(Squeezed(roles[..|roles| - 1]), roles[|roles| - 1]);
    }
  }

  /** Whether the next role would resume. */
  predicate WouldResume(role: Role, before: seq<Role>, next: Role) {
    next == role && before != [] && before[|before| - 1].Other? && LastSpeaker(before) == Some(role)
  }

  lemma ResumedWith(role: Role, before: seq<Role>, next: Role)
    requires !role.Other?
    ensures Resumed(role, SqueezedWith(before, next)) <==> Resumed(role, before) || WouldResume(role, before, next)
  {
    if before == [] || before[|before| - 1] != next {
      ResumedSnoc(role, before + [next]);
      assert (before + [next])[..|before|] == before;
    }
  }

  lemma ResumedHere(role: Role, roles: seq<Role>)
    requires roles != []
    ensures var init := roles[..|roles| - 1];
            Resumed(role, roles) <==> Resumed(role, init) || WouldResume(role, init, roles[|roles| - 1])
  {
    ResumedSnoc(role, roles);
    var init := roles[..|roles| - 1];
    assert init != [] ==> init[|init| - 1] == roles[|roles| - 2];
  }

  lemma SqueezedWouldResume(role: Role, roles: seq<Role>, next: Role)
    ensures WouldResume(role, Squeezed(roles), next) == WouldResume(role, roles, next)
  {
    SqueezedSpeaker(roles);
    if roles != [] {
      SqueezedEnd(roles);
    }
  }

  /** Squeezing does not change whether somebody resumes. */
  lemma {:induction false} SqueezedResumed(role: Role, roles: seq<Role>)
    requires !role.Other?
    ensures Resumed(role, Squeezed(roles)) == Resumed(role, roles)
  {
    if roles == [] {
    } else {
      var init, last := roles[..|roles| - 1], roles[|roles| - 1];
      SqueezedResumed(role, init);
      ResumedWith(role, Squeezed(init), last);
      SqueezedWouldResume(role, init, last);
      ResumedHere(role, roles);
    }
  }

  lemma {:induction false} SqueezedRun(roles: seq<Role>)
    requires roles != []
    ensures var s := Squeezed(roles); s != [] && s[..|s| - 1] == Squeezed(BeforeRun(roles))
  {
    var init, last := roles[..|roles| - 1], roles[|roles| - 1];
    if init == [] {
    } else {
      SqueezedEnd(init);
      if init[|init| - 1] == last {
        SqueezedRun(init);
      }
    }
  }

  predicate Alternate(roles: seq<Role>) {
    |roles| > 1 ==> Alternate(roles[..|roles| - 1]) && roles[|roles| - 2] != roles[|roles| - 1]
  }

  lemma {:induction false} AlternatePrefix(ms: seq<Message>)
    requires ms != [] && Alternate(Roles(ms))
    ensures Roles(ms)[..|ms| - 1] == Roles(ms[..|ms| - 1]) && Alternate(Roles(ms[..|ms| - 1]))
  {
  }

  lemma {:induction false} SqueezedAlternate(roles: seq<Role>)
    ensures Alternate(Squeezed(roles))
  {
    if roles == [] {
    } else {
      var before := Squeezed(roles[..|roles| - 1]);
      SqueezedAlternate(roles[..|roles| - 1]);
      assert (before + [roles[|roles| - 1]])[..|before|] == before;
    }
  }

  /** What the passes before the payload leave of the roles. */
  lemma {:induction false} HandledMerge(ms: seq<Message>, hasTools: bool)
    requires ms != []
    ensures var merged := Merged(Handled(ms, hasTools));
            && merged != [] && Roles(merged) == Squeezed(Roles(ms)) && Alternate(Roles(merged))
            && merged[|merged| - 1].role == ms[|ms| - 1].role
  {
    HandledRoles(ms, hasTools);
    MergedRoles(Handled(ms, hasTools));
    SqueezedAlternate(Roles(ms));
    SqueezedEnd(Roles(ms));
  }

  // ----- Turns -----

  /** A user first, then an assistant, and so on. */
  predicate TakeTurns(entries: seq<Entry>) {
    entries != [] ==>
      TakeTurns(entries[..|entries| - 1]) && (entries[|entries| - 1].UserEntry? <==> UsersTurn(entries[..|entries| - 1]))
  }

  predicate UsersTurn(entries: seq<Entry>) {
    entries == [] || entries[|entries| - 1].AssistantEntry?
  }

  lemma TurnsSnoc(entries: seq<Entry>, e: Entry)
    ensures TakeTurns(entries + [e]) <==> TakeTurns(entries) && (e.UserEntry? <==> UsersTurn(entries))
  {
    assert (entries + [e])[..|entries|] == entries;
  }

  /** Who spoke last, in a history. */
  predicate EndsLike(entries: seq<Entry>, speaker: Option<Role>) {
    match speaker
    case None => entries == []
    case Some(role) => entries != [] && (entries[|entries| - 1].UserEntry? <==> role == User)
  }

  lemma ExtendedEnd(canon: string -> string, before: seq<Entry>, m: Message, speaker: Option<Role>)
    requires EndsLike(before, speaker)
    ensures EndsLike(Extended(canon, before, m), if m.role.Other? then speaker else Some(m.role))
  {
  }

  /** An entry of the assistant, after a synthetic user where there is none. */
  lemma {:induction false} AnswerTurns(before: seq<Entry>, e: Entry)
    requires e.AssistantEntry?
    ensures before != [] && before[|before| - 1].UserEntry? ==> (TakeTurns(before + [e]) <==> TakeTurns(before))
    ensures UsersTurn(before) ==> (TakeTurns(before + [SYNTHETIC] + [e]) <==> TakeTurns(before))
  {
    TurnsSnoc(before, e);
    TurnsSnoc(before, SYNTHETIC);
    TurnsSnoc(before + [SYNTHETIC], e);
  }

  lemma {:induction false} ExtendedTurns(canon: string -> string, before: seq<Entry>, m: Message, speaker: Option<Role>)
    requires EndsLike(before, speaker)
    ensures TakeTurns(Extended(canon, before, m)) <==> TakeTurns(before) && !(m.role == User && speaker == Some(User))
  {
    match m.role
    case User =>
      TurnsSnoc(before, UserInput(m));
    case Assistant =>
      AnswerTurns(before, AssistantResponse(canon, m));
    case Other(_) =>
  }

  lemma {:induction false} SpeakerIsUserOrAssistant(roles: seq<Role>)
    ensures LastSpeaker(roles) in {None, Some(User), Some(Assistant)}
  {
    if roles == [] {
    } else {
      SpeakerIsUserOrAssistant(roles[..|roles| - 1]);
    }
  }

  /** In a history users and assistants take turns unless a user resumes. */
  lemma {:induction false} HistoryTakesTurns(canon: string -> string, ms: seq<Message>)
    requires Alternate(Roles(ms))
    ensures EndsLike(History(canon, ms), LastSpeaker(Roles(ms)))
    ensures TakeTurns(History(canon, ms)) <==> !Resumed(User, Roles(ms))
  {
    if ms == [] {
    } else {
      var init, m := ms[..|ms| - 1], ms[|ms| - 1];
      AlternatePrefix(ms);
      HistoryTakesTurns(canon, init);
      ExtendedEnd(canon, History(canon, init), m, LastSpeaker(Roles(init)));
      ExtendedTurns(canon, History(canon, init), m, LastSpeaker(Roles(init)));
      ResumedSnoc(User, Roles(ms));
    }
  }

  /** The last entry after a history, or after an answer that is put into the history behind a synthetic user. */
  lemma TurnsEnd(history: seq<Entry>, answer: Entry, current: Entry)
    requires answer.AssistantEntry? && current.UserEntry?
    ensures TakeTurns(history + [current]) <==> TakeTurns(history) && UsersTurn(history)
    ensures TakeTurns(history + [SYNTHETIC, answer] + [current]) <==> TakeTurns(history) && UsersTurn(history)
  {
    TurnsSnoc(history, current);
    TurnsSnoc(history, SYNTHETIC);
    TurnsSnoc(history + [SYNTHETIC], answer);
    assert history + [SYNTHETIC] + [answer] == history + [SYNTHETIC, answer];
    TurnsSnoc(history + [SYNTHETIC, answer], current);
  }

  lemma PromptedRoles(prompt: string, ms: seq<Message>)
    ensures Roles(Prompted(prompt, ms)) == Roles(ms)
  {
  }

  /** Users and assistants take turns in a payload when no user resumes and the last to speak before is not a user. */
  lemma {:induction false} MergedTakeTurns(canon: string -> string, prompt: string, thinking: string, ms: seq<Message>)
    requires ms != [] && Alternate(Roles(ms))
    ensures var before := Roles(ms)[..|ms| - 1];
            TakeTurns(Entries(PayloadOf(canon, prompt, thinking, ms))) <==>
            !Resumed(User, before) && LastSpeaker(before) != Some(User)
  {
    var init := ms[..|ms| - 1];
    var earlier := Prompted(prompt, init);
    PromptedRoles(prompt, init);
    AlternatePrefix(ms);
    HistoryTakesTurns(canon, earlier);
    SpeakerIsUserOrAssistant(Roles(init));
    var p := PayloadOf(canon, prompt, thinking, ms);
    TurnsEnd(History(canon, earlier), AssistantEntry(LastText(prompt, ms), map[]), p.current);
  }

  /**
   * Users and assistants take turns in a payload, from a user to the user who is answered, exactly when no user
   * resumes, and the last message is of a user or comes, with its run, after none or after the assistant.
   */
  lemma {:induction false} PayloadTakesTurns(canon: string -> string, prompt: string, thinking: string,
                                             ms: seq<Message>, hasTools: bool)
    requires ms != []
    ensures Merged(Handled(ms, hasTools)) != []
    ensures TakeTurns(Entries(PayloadOf(canon, prompt, thinking, Merged(Handled(ms, hasTools))))) <==>
            !Resumed(User, Roles(ms))
            && (ms[|ms| - 1].role == User || LastSpeaker(BeforeRun(Roles(ms))) != Some(User))
  {
    HandledMerge(ms, hasTools);
    MergedTakeTurns(canon, prompt, thinking, Merged(Handled(ms, hasTools)));
    SqueezedTurns(Roles(ms));
  }

  /** Among alternating roles, one resumes exactly when it has spoken last before. */
  lemma {:induction false} ResumesHere(role: Role, roles: seq<Role>)
    requires roles != [] && Alternate(roles) && !role.Other? && roles[|roles| - 1] == role
    ensures Resumes(role, roles, |roles| - 1) <==> LastSpeaker(roles[..|roles| - 1]) == Some(role)
  {
    var init := roles[..|roles| - 1];
    assert init != [] ==> init[|init| - 1] == roles[|roles| - 2];
  }

  lemma {:induction false} SqueezedTurns(roles: seq<Role>)
    requires roles != []
    ensures Squeezed(roles) != []
    ensures var before := Squeezed(roles)[..|Squeezed(roles)| - 1];
            !Resumed(User, before) && LastSpeaker(before) != Some(User) <==>
            !Resumed(User, roles) && (roles[|roles| - 1] == User || LastSpeaker(BeforeRun(roles)) != Some(User))
  {
    SqueezedAlternate(roles);
    SqueezedRun(roles);
    SqueezedEnd(roles);
    SqueezedSpeaker(BeforeRun(roles));
    SqueezedResumed(User, roles);
    ResumedSnoc(User, Squeezed(roles));
    if roles[|roles| - 1] == User {
      ResumesHere(User, Squeezed(roles));
    }
  }

  // ----- Synthetic users -----

  /** The messages of users and assistants. */
  function Speaking(ms: seq<Message>): seq<Message> {
    if ms == [] then []
    else
      var before, last := Speaking(ms[..|ms| - 1]), ms[|ms| - 1];
      if last.role.Other? then before else before + [last]
  }

  function EntryOf(canon: string -> string, m: Message): Entry {
    if m.role == User then UserInput(m) else AssistantResponse(canon, m)
  }

  function EntriesOf(canon: string -> string, ms: seq<Message>): seq<Entry> {
    if ms == [] then [] else EntriesOf(canon, ms[..|ms| - 1]) + [EntryOf(canon, ms[|ms| - 1])]
  }

  /** A synthetic user before an assistant who speaks first. */
  function Opening(ms: seq<Message>): seq<Entry> {
    if ms != [] && ms[0].role == Assistant then [SYNTHETIC] else []
  }

  /** One entry for each message of a user or assistant, and at most a synthetic one, at the front. */
  function PlainHistory(canon: string -> string, ms: seq<Message>): seq<Entry> {
    Opening(Speaking(ms)) + EntriesOf(canon, Speaking(ms))
  }

  lemma {:induction false} SpeakingIsSpoken(ms: seq<Message>)
    ensures match LastSpeaker(Roles(ms))
            case None => Speaking(ms) == []
            case Some(role) => Speaking(ms) != [] && Speaking(ms)[|Speaking(ms)| - 1].role == role
  {
    if ms == [] {
    } else {
      assert Roles(ms)[..|ms| - 1] == Roles(ms[..|ms| - 1]);
      SpeakingIsSpoken(ms[..|ms| - 1]);
    }
  }

  lemma {:induction false} PlainSnoc(canon: string -> string, ms: seq<Message>)
    requires ms != [] && !ms[|ms| - 1].role.Other?
    ensures var init, m := ms[..|ms| - 1], ms[|ms| - 1];
            PlainHistory(canon, ms) ==
            PlainHistory(canon, init)
            + (if m.role == Assistant && Speaking(init) == [] then [SYNTHETIC] else []) + [EntryOf(canon, m)]
  {
    var before, m := Speaking(ms[..|ms| - 1]), ms[|ms| - 1];
    assert (before + [m])[..|before|] == before;
    assert EntriesOf(canon, before + [m]) == EntriesOf(canon, before) + [EntryOf(canon, m)];
    assert before == [] ==> EntriesOf(canon, before) == [];
  }

  lemma {:induction false} ExtendedPlain(canon: string -> string, before: seq<Entry>, m: Message, speaker: Option<Role>)
    requires EndsLike(before, speaker) && speaker in {None, Some(User), Some(Assistant)} && !m.role.Other?
    ensures Extended(canon, before, m) ==
            before + (if m.role == Assistant && speaker != Some(User) then [SYNTHETIC] else []) + [EntryOf(canon, m)]
  {
    assert before + [] == before;
  }

  /** Every entry for the message of a user or assistant, and synthetic users where the assistant is not answering. */
  lemma {:induction false} HistoryStep(canon: string -> string, ms: seq<Message>)
    requires ms != [] && Alternate(Roles(ms)) && !ms[|ms| - 1].role.Other?
    ensures var init, m := ms[..|ms| - 1], ms[|ms| - 1];
            History(canon, ms) ==
            History(canon, init)
            + (if m.role == Assistant && LastSpeaker(Roles(init)) != Some(User) then [SYNTHETIC] else [])
            + [EntryOf(canon, m)]
  {
    var init := ms[..|ms| - 1];
    AlternatePrefix(ms);
    HistoryTakesTurns(canon, init);
    SpeakerIsUserOrAssistant(Roles(init));
    ExtendedPlain(canon, History(canon, init), ms[|ms| - 1], LastSpeaker(Roles(init)));
  }

  /** Before the assistant there is a synthetic user when none has spoken yet, and when the assistant resumes. */
  lemma {:induction false} SyntheticWhenResuming(ms: seq<Message>)
    requires ms != [] && Alternate(Roles(ms)) && !ms[|ms| - 1].role.Other?
    ensures var init, m, resumes := ms[..|ms| - 1], ms[|ms| - 1], Resumes(Assistant, Roles(ms), |ms| - 1);
            && (m.role == Assistant && LastSpeaker(Roles(init)) != Some(User) <==>
                m.role == Assistant && (Speaking(init) == [] || resumes))
            && (resumes ==> m.role == Assistant && Speaking(init) != [])
  {
    AlternatePrefix(ms);
    SpeakingIsSpoken(ms[..|ms| - 1]);
    SpeakerIsUserOrAssistant(Roles(ms[..|ms| - 1]));
    if ms[|ms| - 1].role == Assistant {
      ResumesHere(Assistant, Roles(ms));
    }
  }

  /** A history is plain unless the assistant resumes: then there are more synthetic users. */
  lemma {:induction false} HistoryIsPlain(canon: string -> string, ms: seq<Message>)
    requires Alternate(Roles(ms))
    ensures !Resumed(Assistant, Roles(ms)) ==> History(canon, ms) == PlainHistory(canon, ms)
    ensures Resumed(Assistant, Roles(ms)) ==> |History(canon, ms)| > |PlainHistory(canon, ms)|
  {
    if ms == [] {
    } else {
      var init, m := ms[..|ms| - 1], ms[|ms| - 1];
      AlternatePrefix(ms);
      HistoryIsPlain(canon, init);
      ResumedSnoc(Assistant, Roles(ms));
      if !m.role.Other? {
        PlainSnoc(canon, ms);
        HistoryStep(canon, ms);
        SyntheticWhenResuming(ms);
      }
    }
  }

  /** The history of a payload is plain: an entry for each message that leaves one, and at most one in front. */
  predicate IsPlain(canon: string -> string, prompt: string, thinking: string, merged: seq<Message>)
    requires merged != []
  {
    PayloadOf(canon, prompt, thinking, merged).history == PlainHistory(canon, Prompted(prompt, merged[..|merged| - 1]))
  }

  /**
   * The history is one entry for each earlier merged message of a user or assistant, and at most a synthetic user at
   * the front, exactly when the last message is not of the assistant and the assistant never resumes.
   */
  lemma {:induction false} OnlyTheFirstIsSynthetic(canon: string -> string, prompt: string, thinking: string,
                                                   ms: seq<Message>, hasTools: bool)
    requires ms != []
    ensures var merged := Merged(Handled(ms, hasTools));
            && merged != []
            && (IsPlain(canon, prompt, thinking, merged) <==>
                ms[|ms| - 1].role != Assistant && !Resumed(Assistant, Roles(ms)))
  {
    HandledMerge(ms, hasTools);
    SqueezedResumed(Assistant, Roles(ms));
    MergedIsPlain(canon, prompt, thinking, Merged(Handled(ms, hasTools)));
  }

  lemma {:induction false} MergedIsPlain(canon: string -> string, prompt: string, thinking: string, ms: seq<Message>)
    requires ms != [] && Alternate(Roles(ms))
    ensures IsPlain(canon, prompt, thinking, ms) <==>
            ms[|ms| - 1].role != Assistant && !Resumed(Assistant, Roles(ms))
  {
    var earlier := Prompted(prompt, ms[..|ms| - 1]);
    PromptedRoles(prompt, ms[..|ms| - 1]);
    AlternatePrefix(ms);
    ResumedSnoc(Assistant, Roles(ms));
    HistoryIsPlain(canon, earlier);
    var history := PayloadOf(canon, prompt, thinking, ms).history;
    assert ms[|ms| - 1].role == Assistant ==> |history| == |History(canon, earlier)| + 2;
  }

  // ----- The system prompt -----

  function WithPrompt(prompt: string, text: string): string {
    prompt + "\n\n" + text
  }

  lemma {:induction false} HistoryGrows(canon: string -> string, ms: seq<Message>, k: nat)
    requires k <= |ms|
    ensures History(canon, ms[..k]) <= History(canon, ms)
  {
    if k == |ms| {
      assert ms[..k] == ms;
    } else {
      HistoryGrows(canon, ms[..|ms| - 1], k);
      assert ms[..|ms| - 1][..k] == ms[..k];
    }
  }

  lemma PromptedAt(prompt: string, ms: seq<Message>, k: nat)
    requires prompt != "" && FirstUser(ms) == Some(k)
    ensures var prompted := Prompted(prompt, ms);
            && prompted[..k] == ms[..k] && prompted[k].role == User
            && OrPlaceholder(TextOf(prompted[k].content), EMPTY) == WithPrompt(prompt, TextOf(ms[k].content))
  {
    assert WithPrompt(prompt, TextOf(ms[k].content)) != "";
  }

  lemma UserAt(canon: string -> string, ms: seq<Message>, k: nat)
    requires k < |ms| && ms[k].role == User
    ensures var at := |History(canon, ms[..k])|;
            at < |History(canon, ms)| && History(canon, ms)[at] == UserInput(ms[k])
  {
    assert ms[..k + 1][..k] == ms[..k];
    assert History(canon, ms[..k + 1]) == History(canon, ms[..k]) + [UserInput(ms[k])];
    HistoryGrows(canon, ms, k + 1);
  }

  /** The system prompt is sent in front of the first user message before the last message. */
  lemma {:induction false} PromptIsSentEarly(canon: string -> string, prompt: string, thinking: string,
                                             ms: seq<Message>, k: nat)
    requires prompt != "" && ms != [] && FirstUser(ms[..|ms| - 1]) == Some(k)
    ensures var entries, at := Entries(PayloadOf(canon, prompt, thinking, ms)), |History(canon, ms[..k])|;
            && at < |entries| && entries[at].UserEntry?
            && entries[at].content == WithPrompt(prompt, TextOf(ms[k].content))
  {
    var init := ms[..|ms| - 1];
    PromptedAt(prompt, init, k);
    assert init[..k] == ms[..k];
    UserAt(canon, Prompted(prompt, init), k);
    HistoryComesFirst(canon, prompt, thinking, ms);
  }

  lemma HistoryComesFirst(canon: string -> string, prompt: string, thinking: string, ms: seq<Message>)
    requires ms != []
    ensures History(canon, Prompted(prompt, ms[..|ms| - 1])) <= Entries(PayloadOf(canon, prompt, thinking, ms))
  {
  }

  /**
   * When there is none it is sent in front of the last message, of whatever role: an answer of the assistant is sent
   * with it, too.
   */
  lemma {:induction false} PromptIsSentLate(canon: string -> string, prompt: string, thinking: string, ms: seq<Message>)
    requires prompt != "" && ms != [] && FirstUser(ms[..|ms| - 1]).None?
    ensures var p, text := PayloadOf(canon, prompt, thinking, ms), WithPrompt(prompt, TextOf(ms[|ms| - 1].content));
            match ms[|ms| - 1].role
            case User => p.current.content == thinking + text
            case Assistant =>
              p.history == History(canon, ms[..|ms| - 1]) + [SYNTHETIC, AssistantEntry(text, map[])]
            case Other(_) => p.current.content == text
  {
    assert LastText(prompt, ms) == WithPrompt(prompt, TextOf(ms[|ms| - 1].content));
    assert WithPrompt(prompt, TextOf(ms[|ms| - 1].content)) != "";
  }

  lemma {:induction false} SqueezedMembers(roles: seq<Role>, role: Role)
    ensures role in Squeezed(roles) <==> role in roles
  {
    if roles == [] {
    } else {
      SqueezedMembers(roles[..|roles| - 1], role);
      assert roles == roles[..|roles| - 1] + [roles[|roles| - 1]];
    }
  }

  /** There is an earlier user message after the passes exactly when a user speaks before the last run. */
  lemma {:induction false} EarlierUser(ms: seq<Message>, hasTools: bool)
    requires ms != []
    ensures var merged := Merged(Handled(ms, hasTools));
            merged != [] && (FirstUser(merged[..|merged| - 1]).Some? <==> User in BeforeRun(Roles(ms)))
  {
    var merged := Merged(Handled(ms, hasTools));
    var init := merged[..|merged| - 1];
    HandledMerge(ms, hasTools);
    SqueezedRun(Roles(ms));
    SqueezedMembers(BeforeRun(Roles(ms)), User);
    RolesOfInit(merged);
    FirstUserOfRoles(init);
  }

  lemma RolesOfInit(ms: seq<Message>)
    requires ms != []
    ensures Roles(ms[..|ms| - 1]) == Roles(ms)[..|ms| - 1]
  {
  }

  lemma FirstUserOfRoles(ms: seq<Message>)
    ensures FirstUser(ms).Some? <==> User in Roles(ms)
  {
    assert forall k | 0 <= k < |ms| :: Roles(ms)[k] == ms[k].role;
  }

  /** The prompt goes before the text of the `k`th run, the first of a user and not the last. */
  predicate SentEarly(canon: string -> string, prompt: string, thinking: string, handled: seq<Message>, k: nat)
    requires Merged(handled) != [] && k < |Runs(handled)| - 1 && k < |Merged(handled)|
  {
    var entries := Entries(PayloadOf(canon, prompt, thinking, Merged(handled)));
    var at := |History(canon, Merged(handled)[..k])|;
    && (forall j | 0 <= j < k :: Merged(handled)[j].role != User) && Merged(handled)[k].role == User
    && at < |entries| && entries[at].UserEntry?
    && entries[at].content == WithPrompt(prompt, Join(Texts(Runs(handled)[k]), "\n"))
  }

  /** The prompt goes before the text of the last run, of whatever role. */
  predicate SentLate(canon: string -> string, prompt: string, thinking: string, handled: seq<Message>)
    requires Merged(handled) != [] && Runs(handled) != []
  {
    var p, last := PayloadOf(canon, prompt, thinking, Merged(handled)), |Runs(handled)| - 1;
    var text := WithPrompt(prompt, Join(Texts(Runs(handled)[last]), "\n"));
    match Merged(handled)[|Merged(handled)| - 1].role
    case User => p.current.content == thinking + text
    case Assistant => |p.history| >= 2 && p.history[|p.history| - 2..] == [SYNTHETIC, AssistantEntry(text, map[])]
    case Other(_) => p.current.content == text
  }

  predicate IsSent(canon: string -> string, prompt: string, thinking: string, handled: seq<Message>, early: bool)
    requires Merged(handled) != [] && |Runs(handled)| == |Merged(handled)|
  {
    if early then exists k: nat | k < |Runs(handled)| - 1 :: SentEarly(canon, prompt, thinking, handled, k)
    else SentLate(canon, prompt, thinking, handled)
  }

  /**
   * For every conversation: the system prompt is sent in front of the first user message, with those that are merged
   * into it, if a user speaks before the last run; otherwise in front of the last run, whatever its role.
   */
  lemma {:induction false} PromptIsSent(canon: string -> string, prompt: string, thinking: string, ms: seq<Message>,
                                        hasTools: bool)
    requires prompt != "" && ms != []
    ensures var handled := Handled(ms, hasTools);
            && Merged(handled) != [] && |Runs(handled)| == |Merged(handled)|
            && IsSent(canon, prompt, thinking, handled, User in BeforeRun(Roles(ms)))
  {
    EarlierUser(ms, hasTools);
    PromptGoes(canon, prompt, thinking, Handled(ms, hasTools), User in BeforeRun(Roles(ms)));
  }

  lemma {:induction false} PromptGoes(canon: string -> string, prompt: string, thinking: string, handled: seq<Message>,
                                      early: bool)
    requires prompt != "" && Merged(handled) != []
    requires early == FirstUser(Merged(handled)[..|Merged(handled)| - 1]).Some?
    ensures |Runs(handled)| == |Merged(handled)| && IsSent(canon, prompt, thinking, handled, early)
  {
    var merged := Merged(handled);
    RunsJoinTexts(handled);
    if early {
      EarlyInRuns(canon, prompt, thinking, handled, FirstUser(merged[..|merged| - 1]).value);
    } else {
      assert IsMergeOf(merged[|merged| - 1], Runs(handled)[|merged| - 1]);
      PromptIsSentLate(canon, prompt, thinking, merged);
    }
  }

  lemma {:induction false} EarlyInRuns(canon: string -> string, prompt: string, thinking: string,
                                       handled: seq<Message>, k: nat)
    requires prompt != "" && Merged(handled) != []
    requires FirstUser(Merged(handled)[..|Merged(handled)| - 1]) == Some(k)
    ensures k < |Runs(handled)| - 1 && SentEarly(canon, prompt, thinking, handled, k)
  {
    var merged := Merged(handled);
    RunsJoinTexts(handled);
    assert IsMergeOf(merged[k], Runs(handled)[k]);
    PromptIsSentEarly(canon, prompt, thinking, merged, k);
    assert forall j | 0 <= j <= k :: merged[..|merged| - 1][j] == merged[j];
  }
}
