# Verified model of the gateway's conversion core

The gateway translates between the OpenAI Chat Completions API, the OpenAI Responses API, the Anthropic Messages API
and the Kiro API. This project models the parts of `backend/src` that rewrite conversations and streams, and proves
what they promise. Every module verifies on its own terms: nothing is assumed, and what the model cannot see (JSON
parsing, hashing, the Unicode tables) is a parameter.

The source's loops and objects are methods and classes, each proved against a specification function; the theorems are
lemmas about those functions.

| area | modules |
|---|---|
| Responses API stream | `ResponsesModel`, `OneShot`, `StreamSteps`, `StreamTransformer`, `StreamSpec`, `StreamLog`, `StreamTracking`, `StreamCompletion`, `StreamRuns`, `StreamAgreement`, `StreamTheorems`, `StreamSafety`, `StreamBeginnings`, `StreamArguments`, `StreamLateness` |
| Thinking blocks | `ThinkingSpec`, `ThinkingParser`, `ThinkingStream`, `ThinkingTags` |
| Kiro payloads | `KiroModel`, `KiroPasses`, `KiroPayload`, `KiroOrder`, `KiroTurns`, `KiroTranscript`, `Embedding`, `KiroArrival`, `KiroConservation`, `KiroTools`, `OpenAIMessages`, `OpenAITools`, `AnthropicMessages`, `AnthropicTools` |
| Request conversion | `ChatModel`, `RequestConversion`, `RequestRoundTrip`, `ResponsesInput` |
| Truncation | `JsonText`, `JsonTokens`, `JsonQuotes`, `Truncation`, `TruncationOfJson`, `NoticeInjection`, `NoticeCache`, `TruncationNotices`, `NoticePlaces` |
| Token refresh | `TokenRefresh`, `RefreshTwice` |
| Model names | `ModelNames` |
| Shared | `Wrappers`, `Text` |

## Main results

* **Streaming refines one-shot.** `StreamTheorems.WholeStream`: a well-formed stream, finished or cut off, is relayed as
  nothing at all or as one complete log: created, in progress, every item added once, its deltas, its end, and one
  completed response last, whose output is the one-shot output of the message that all deltas add up to. Well-formed
  (`StreamTheorems.Proper`): one identifier or none, a finish reason only in the last choice, no reasoning after the
  message has begun, calls opened in order. `StreamTheorems.ReportedIsMarked` says which statuses and identifiers the
  text of the last finish reason gives.
* **Chunking independence.** `ThinkingTags.SeparateStream`: over any chunking, buffer size and handling mode the
  thinking text is what lies between the tags, written out, and the regular text is the rest.
* **Nothing is lost.** Without tools every text, call and result stays in the text of an entry, in order, for
  conversations of any roles (`OpenAIMessages.OpenAIToolsBecomeText`, `AnthropicMessages.AnthropicToolsBecomeText`);
  with tools every text does (`OpenAIMessages.OpenAITextsArrive`, `AnthropicMessages.AnthropicTextsArrive`), and
  `OpenAITools.ToolsArrive`, `AnthropicTools.ResultsArrive` and `AnthropicTools.UsesArrive` say exactly which results
  and uses are sent. All of them are read off the request itself.
* **A payload is a transcript.** `KiroTranscript.PayloadIsTranscript`: the speaker and the exact text of every entry.
* **Results follow uses.** `OpenAIMessages.OpenAIResultsFollowUses` without exception,
  `AnthropicMessages.AnthropicResultsFollowUses` exactly unless results of some message return.
* **Tool turns stay together.** `ResponsesInput.TurnIsAdjacent`: anywhere in a Responses input, calls and their outputs
  become one assistant message and the user message directly behind it.
* **Round trip.** `RequestRoundTrip.RoundTrip`: from OpenAI to Anthropic and back is the identity exactly on normal
  forms, behind one system message with all system texts.
* **Exact truncation diagnosis.** `TruncationOfJson.CutIsTruncated`: which cuts of which documents are found, and
  `TruncationOfJson.DiagnosisIsRight`: when all are.
* **Notices.** `NoticePlaces.OpenAINotices`, `NoticePlaces.AnthropicNotices`: which results and messages get a notice,
  and what becomes of them.
* **Interleavings of token refresh.** `TokenRefresh.OneExchangeAtATime`, `NewestIsPresented`, `TokenIsFresh`.

## Where the code falls short of its comments

Each is stated as a lemma with the exact condition under which the code does what is expected. Beside these, some lemmas
give examples or say what happens instead, and carry no such condition: `ThinkingStream.BlankChunkStays`,
`AnthropicMessages.OrphanComesBack`, `TruncationOfJson.BracesInStringsHideACut`,
`TokenRefresh.NeedlessOnlyAfterAnother`, `RefreshTwice.SecondRefreshes`, `RefreshTwice.NeedlessRefresh`,
`ModelNames.OtherSuffixStays` and `ModelNames.FamilyKeepsDate`.

* Images without a payload: the one-shot converter numbers images by their place in the message, the stream by what it
  has collected. The outputs differ exactly when an image without a payload comes before one with a payload
  (`StreamTheorems.StreamingRefinesOneShot`).
* Reasoning that is closed by the start of the message is reported as completed even if the response ends incomplete
  (`StreamSafety.ReasoningStatus`).
* There is no guard after completion: every further finish reason gives one more completed response
  (`StreamSafety.OneCompletionPerFinish`).
* Reasoning after the message has begun is mixed into the message, or comes behind the end of the reasoning item:
  exactly then the log is no complete log of the response it reports (`StreamLateness.CompleteUnlessLate`).
* Calls that are not opened in the order of their tool indices are added at other indices than their positions in the
  completed output (`StreamArguments.CallIndicesAgree`).
* Arguments without a call are sent all the same: before the created event when nothing has been sent yet
  (`StreamBeginnings.StreamBegins`), under an empty call identifier (`StreamArguments.ArgumentsAreSent`), and they are
  missing from the completed output (`StreamArguments.ArgumentsArrive`).
* White space behind a closing tag is dropped only within the chunk that closes the block
  (`ThinkingStream.RegularIsTrimmedRest`, `ThinkingStream.BlankChunkStays`).
* A Kiro payload does not take turns when a user resumes after messages of other roles, or when the last message is not
  of a user and comes after one (`KiroTurns.PayloadTakesTurns`).
* Without a user message before it, the last message takes the system prompt even if it is an answer of the assistant
  (`KiroTurns.PromptIsSentLate`).
* A conversation without tools that ends with a message of another role than user holding a tool result still sends it
  as a tool result (`AnthropicMessages.AnthropicToolsBecomeText`).
* An orphaned result that is stripped from a message's list is found again in its content blocks, unless a merge or the
  system prompt has made text of them (`AnthropicMessages.AnthropicResultsFollowUses`; the shortest example is
  `AnthropicMessages.OrphanComesBack`).
* The calls of the assistant are not sent when its message is the last one, with tools (`OpenAITools.ToolsArrive`,
  `AnthropicTools.UsesArrive`): exactly then.
* Of neighbouring user messages only the one directly behind the assistant's uses sends its results as results; those of
  the others are sent as text alone (`AnthropicTools.ResultsArrive`).
* Keys that are made up for tool uses without an identifier can collide with identifiers
  (`KiroPayload.OnePerIdentifier`).
* Braces or brackets inside strings mislead the truncation diagnosis (`TruncationOfJson.CompleteIsNotTruncated`,
  `TruncationOfJson.CutIsTruncated`, `TruncationOfJson.BracesInStringsHideACut`).
* The second expiry check comes before the lock, so a call that waits for the lock refreshes a token that has just been
  refreshed (`RefreshTwice.NeedlessRefresh`): only such a call does (`TokenRefresh.NeedlessOnlyAfterAnother`), and every
  such call can (`RefreshTwice.SecondRefreshes`).
* A dotted model name loses a date, but not `latest` or other digits, and its letters are lower-cased only then
  (`ModelNames.DateIsDropped`, `ModelNames.OtherSuffixStays`, `ModelNames.FamilyKeepsDate`).

## Model

| member | source | states |
|---|---|---|
| `StreamTransformer.ResponsesStreamTransformer.constructor` | backend/src/converters/responses_to_chat_completion.rs:1025-1047 | a fresh transformer has emitted nothing and knows only the fallback identifier |
| `StreamTransformer.ResponsesStreamTransformer.EnsureInitialEvents` | backend/src/converters/responses_to_chat_completion.rs:1109-1139 | created and in-progress are emitted together, the first time any item begins, and never again |
| `StreamTransformer.ResponsesStreamTransformer.CloseReasoningItem` | backend/src/converters/responses_to_chat_completion.rs:1142-1180 | open reasoning is closed with its whole text, and only once |
| `StreamTransformer.ResponsesStreamTransformer.StartMessageItem` | backend/src/converters/responses_to_chat_completion.rs:1400-1436 | the message item is added at the index behind reasoning, unless it has been started |
| `StreamTransformer.ResponsesStreamTransformer.BeginMessageItem` | backend/src/converters/responses_to_chat_completion.rs:1545-1550 | any content of the message is preceded by the end of reasoning and the start of the message item |
| `StreamTransformer.ResponsesStreamTransformer.TakeReasoning` | backend/src/converters/responses_to_chat_completion.rs:1478-1526 | a reasoning delta opens the reasoning item if nothing has begun and is always sent at index 0 |
| `StreamTransformer.ResponsesStreamTransformer.TakeRole` | backend/src/converters/responses_to_chat_completion.rs:1529-1537 | the assistant role starts the message item unless there is reasoning |
| `StreamTransformer.ResponsesStreamTransformer.TakeContent` | backend/src/converters/responses_to_chat_completion.rs:1541-1563 | a content delta is collected and sent at the index of the message |
| `StreamTransformer.ResponsesStreamTransformer.TakeAnnotations` | backend/src/converters/responses_to_chat_completion.rs:1567-1591 | annotations are collected in order, without citations that lack their object |
| `StreamTransformer.ResponsesStreamTransformer.TakeImages` | backend/src/converters/responses_to_chat_completion.rs:1602-1614 | the non-empty payloads of images are collected in order |
| `StreamTransformer.ResponsesStreamTransformer.TakeToolDelta` | backend/src/converters/responses_to_chat_completion.rs:1617-1716 | an identifier opens a call, arguments go to the first call at their index, and both are sent |
| `StreamTransformer.ResponsesStreamTransformer.CloseItems` | backend/src/converters/responses_to_chat_completion.rs:1214-1397 | all calls, the message and the images are closed, and the output array lists them in order |
| `StreamTransformer.ResponsesStreamTransformer.EmitCompletionEvents` | backend/src/converters/responses_to_chat_completion.rs:1190-1397 | whatever is open is closed, and the completed response is the last event |
| `StreamTransformer.ResponsesStreamTransformer.TransformChunk` | backend/src/converters/responses_to_chat_completion.rs:1447-1738 | one chunk moves the transformer by the specified step, and the returned events are what the log gains |
| `StreamTransformer.ResponsesStreamTransformer.FinalizeStream` | backend/src/converters/responses_to_chat_completion.rs:1751-1765 | a stream that has begun and is not completed is closed as incomplete; any other is left alone |
| `OneShot.ConvertResponse` | backend/src/converters/responses_to_chat_completion.rs:677-904 | the one-shot response: reasoning if there is any, the message, its calls and its images; statuses and identifiers follow from the finish reason and the identifier of the chat as they are written there |
| `OneShot.PushImages` | backend/src/converters/responses_to_chat_completion.rs:857-891 | images keep the number of their place in the message, also behind images without a payload |
| `ResponsesModel.ImageIdIsInjective` | backend/src/converters/responses_to_chat_completion.rs:886-886 | identifiers of different images of a response differ |
| `ResponsesModel.AnnotationsAreShown` | backend/src/converters/responses_to_chat_completion.rs:782-809 | annotations are shown one for one and in order, field by field, without citations that lack their object |
| `ResponsesModel.PayloadOfUrl` | backend/src/converters/responses_to_chat_completion.rs:22-28 | the payload of a data URL is what stands behind its first comma; a URL without one is all payload |
| `StreamTracking.DeltaSteps` | backend/src/converters/responses_to_chat_completion.rs:1475-1716 | one delta is the sequence of its elementary steps: reasoning, role, content, annotations and images, calls |
| `StreamTracking.StepsTrack` | backend/src/converters/responses_to_chat_completion.rs:1447-1738 | along every well-formed stream the state holds exactly the concatenation of all deltas so far, and every begun item has exactly its opening events and deltas in the log |
| `StreamLog.BeginOk` | backend/src/converters/responses_to_chat_completion.rs:1109-1180 | starting the message closes reasoning and keeps every other item's log |
| `StreamLog.ThinkOk` | backend/src/converters/responses_to_chat_completion.rs:1478-1526 | a reasoning delta keeps the log in order unless the message has begun |
| `StreamLog.SayOk` | backend/src/converters/responses_to_chat_completion.rs:1541-1563 | a content delta keeps the log in order |
| `StreamLog.ToolOk` | backend/src/converters/responses_to_chat_completion.rs:1617-1716 | a tool-call delta keeps the log in order, however deltas of different calls interleave |
| `StreamCompletion.CompletesLog` | backend/src/converters/responses_to_chat_completion.rs:1190-1397 | completion turns the log of any well-formed prefix into a complete log |
| `StreamRuns.RunTracks` | backend/src/converters/responses_to_chat_completion.rs:1447-1738 | a stream of chunks without a finish reason is tracked to its end |
| `StreamRuns.RunCompletes` | backend/src/converters/responses_to_chat_completion.rs:1721-1735 | a finish reason in the last choice completes the stream from a state that holds all deltas, its own chunk's included |
| `StreamAgreement.ImageNumbering` | backend/src/converters/responses_to_chat_completion.rs:857-891 | image items of both converters agree exactly when no image without a payload stands before one with a payload |
| `StreamAgreement.OutputAgrees` | backend/src/converters/responses_to_chat_completion.rs:1206-1397 | the completed output is the one-shot output of the message that all deltas add up to |
| `StreamTheorems.RelayStream` | backend/src/routes/responses.rs:345-476 | what a client is sent for a stream: the events of every chunk, then those of finalize |
| `StreamTheorems.WholeStream` | backend/src/converters/responses_to_chat_completion.rs:1190-1765 | every well-formed stream, with identifiers or without, is relayed as nothing or as one complete log whose response has the identifier, time, status, usage and one-shot output of all deltas; the index of an item, its place in the output and the index of its events are the same |
| `StreamTheorems.StreamingRefinesOneShot` | backend/src/converters/responses_to_chat_completion.rs:755-891 | the completed output equals the one-shot output of all deltas exactly when images leave no gap |
| `StreamTheorems.ReportedIsMarked` | backend/src/converters/responses_to_chat_completion.rs:1720-1725 | in every completed response of a well-formed stream the statuses of the response, its items and its images are those of the text of the last finish reason (or of a cut-off stream), and all identifiers are built from that of the chat |
| `StreamSafety.DeltasAreConserved` | backend/src/converters/responses_to_chat_completion.rs:1478-1716 | at every output index the deltas add up to the text or arguments of the completed item there |
| `StreamSafety.ReasoningStatus` | backend/src/converters/responses_to_chat_completion.rs:1142-1180 | the final event of reasoning and its completed entry agree exactly when reasoning was closed at the end or the stream ended normally |
| `StreamSafety.EveryRunAdvances` | backend/src/converters/responses_to_chat_completion.rs:1100-1106 | in every run of any chunks phases only advance, and whether there is reasoning is fixed once an item has begun |
| `StreamSafety.OneCompletionPerFinish` | backend/src/converters/responses_to_chat_completion.rs:1721-1765 | every stream has one completed response for each choice that finishes, and one when none does but something has begun; so exactly one exactly when one choice finishes, or none and something has begun |
| `StreamLateness.CompleteUnlessLate` | backend/src/converters/responses_to_chat_completion.rs:1478-1526 | for every stream with calls in order, finished or cut off: the log is the complete log of the response it reports exactly when no reasoning comes after the message has begun |
| `StreamBeginnings.StreamBegins` | backend/src/converters/responses_to_chat_completion.rs:1109-1136 | every log is empty, or begins with created and in progress, or with arguments of no call, exactly as the first choice that sends anything begins |
| `StreamArguments.ArgumentsAreSent` | backend/src/converters/responses_to_chat_completion.rs:1677-1716 | on every stream all argument texts are sent, once and in order, each under the identifier of the first call opened with its index, and under none before there is one |
| `StreamArguments.ArgumentsArrive` | backend/src/converters/responses_to_chat_completion.rs:1626-1716 | on every stream that is concluded the completed output has one function call for each opening, and the first with a tool index holds all argument text for that index exactly unless some came before it was opened |
| `StreamArguments.CallIndicesAgree` | backend/src/converters/responses_to_chat_completion.rs:1624-1675 | on every stream that is concluded all function calls are added at their positions in the completed output exactly when calls are opened with the tool indices 0, 1, 2, and so on |
| `ThinkingParser.Parser.constructor` | backend/src/thinking_parser.rs:56-78 | the default tags, none of them a prefix of another, and a hold-back of twice the longest tag |
| `ThinkingParser.Parser.CouldBeTagPrefix` | backend/src/thinking_parser.rs:179-190 | true exactly for the beginnings of opening tags |
| `ThinkingParser.Parser.HandlePreContent` | backend/src/thinking_parser.rs:130-176 | a tag, a possible tag and ordinary text at the start of a stream are told apart |
| `ThinkingParser.Parser.SafeSplit` | backend/src/thinking_parser.rs:240-247 | the last character boundary at or before a byte position |
| `ThinkingParser.Parser.ProcessThinkingBuffer` | backend/src/thinking_parser.rs:199-260 | the first closing tag ends the block; without one all but the hold-back is passed on |
| `ThinkingParser.Parser.Feed` | backend/src/thinking_parser.rs:90-127 | every chunk keeps the state in step with the parse of all text so far, and passes on just what has become certain |
| `ThinkingParser.Parser.Finalize` | backend/src/thinking_parser.rs:264-288 | whatever is held back is passed on: as thinking in an open block, otherwise as regular text |
| `ThinkingSpec.HoldBack` | backend/src/thinking_parser.rs:236-257 | a retained buffer longer than the closing tag suffices to find the first closing tag in any continuation |
| `ThinkingSpec.ParseExtends` | backend/src/thinking_parser.rs:130-176 | more text never changes a decision that has been taken |
| `ThinkingParser.HeldBack` | backend/src/thinking_parser.rs:236-257 | in a block at most 25 bytes are retained, and no closing tag begins in what has been sent, whatever follows |
| `ThinkingStream.RunStream` | backend/src/thinking_parser.rs:90-331 | over any chunking, buffer size and mode: the thinking text lies between the tags, the regular text is the rest, marks stand where they belong, and pass mode gives tag, text, tag |
| `ThinkingTags.SeparateStream` | backend/src/thinking_parser.rs:130-331 | with the four pairs of tags and the modes written out: over any chunking the thinking pieces are the body of the block, the regular pieces what follows it but for leading white space, and the shown text what the mode makes of it; an open block and a text without a block likewise |
| `ThinkingStream.RegularIsRest` | backend/src/thinking_parser.rs:226-231 | behind a block only white space right after the closing tag can be missing |
| `ThinkingStream.RegularIsTrimmedRest` | backend/src/thinking_parser.rs:226-231 | the white space behind the closing tag is dropped in full exactly when it arrived with the closing chunk or the next chunk does not begin with any |
| `ThinkingStream.BlankChunkStays` | backend/src/thinking_parser.rs:226-231 | two chunkings of one text with different regular text |
| `KiroPasses.StripAllToolContent` | backend/src/converters/core.rs:764-840 | calls and results become text of their message, and nothing else changes |
| `KiroPasses.EnsureAssistantBeforeToolResults` | backend/src/converters/core.rs:853-904 | only lists of results without an assistant message with calls directly before are dropped |
| `KiroPasses.MergeAdjacentMessages` | backend/src/converters/core.rs:911-965 | runs of one role become one message |
| `KiroPasses.MergingAlternates` | backend/src/converters/core.rs:911-965 | after merging no two neighbours have the same role |
| `KiroPasses.MergingKeepsTools` | backend/src/converters/core.rs:931-948 | merging keeps all calls of assistants and all results of users, in order |
| `KiroPasses.RunsJoinTexts` | backend/src/converters/core.rs:911-965 | the merged messages are, one for one, made of the longest runs of one role, with the texts of a run joined by newlines |
| `KiroPasses.MergingSplits` | backend/src/converters/core.rs:911-965 | where the role changes the two sides are merged independently |
| `KiroPayload.DeduplicateToolUses` | backend/src/converters/core.rs:634-690 | the hash map that tool uses are filed in |
| `KiroPayload.LargestIsKept` | backend/src/converters/core.rs:661-678 | every identifier is kept, with its largest use; one that looks like a key made up, unless there is a collision |
| `KiroPayload.OnePerIdentifier` | backend/src/converters/core.rs:634-678 | as many uses are kept as there are identifiers and uses without one, exactly unless a key that is made up collides with an identifier |
| `KiroPayload.BuildKiroHistory` | backend/src/converters/core.rs:980-1014 | the entries for all earlier messages |
| `KiroPayload.Assemble` | backend/src/converters/openai_to_kiro.rs:431-560 | history, system prompt and current message of the payload |
| `KiroPayload.BuildKiroPayloadCore` | backend/src/converters/openai_to_kiro.rs:353-600 | the whole pipeline: prompt, strip or ensure, merge, history, current message; no messages is an error |
| `KiroOrder.EnsuringPrecedes` | backend/src/converters/core.rs:853-904 | after the pass every list of results directly follows an assistant message with calls |
| `KiroOrder.MergingPrecedes` | backend/src/converters/core.rs:911-965 | merging keeps that order |
| `KiroOrder.ResultsFollowUses` | backend/src/converters/core.rs:853-1073 | with tools, every entry with tool results directly follows an assistant entry with tool uses exactly unless the results of a message come back; for every conversation as it is converted, of any roles, and any system prompt |
| `KiroTurns.PayloadTakesTurns` | backend/src/converters/openai_to_kiro.rs:421-505 | for any roles: users and assistants take turns from a user to the user who is answered exactly when no user resumes after other roles, and the last run is of a user or does not come after one |
| `KiroTurns.OnlyTheFirstIsSynthetic` | backend/src/converters/core.rs:980-1014 | for any roles: the history is one entry for each earlier merged message of a user or assistant, with at most one synthetic entry, at the front, exactly when the last message is not of the assistant and the assistant never resumes after other roles |
| `KiroTurns.PromptIsSent` | backend/src/converters/openai_to_kiro.rs:421-505 | for every conversation before the passes: the system prompt is sent in front of the first run of user messages, if a user speaks before the last run, and otherwise in front of the last run, whatever its role |
| `KiroTurns.PromptIsSentEarly` | backend/src/converters/openai_to_kiro.rs:431-461 | on merged messages: the system prompt is sent in front of the first user message of the history, in the entry for that message |
| `KiroTurns.PromptIsSentLate` | backend/src/converters/openai_to_kiro.rs:473-505 | on merged messages: without one it is sent in front of the last message, whatever its role, even if that is an answer of the assistant |
| `KiroTranscript.PayloadIsTranscript` | backend/src/converters/openai_to_kiro.rs:421-560 | for all messages behind the first pass: who speaks in each entry and the exact text, read off the runs of messages, with users made up, placeholders, the system prompt and the thinking prefix in their places |
| `KiroTranscript.AdditionsFollow` | backend/src/converters/openai_to_kiro.rs:369-410 | additions follow the system prompt in order |
| `KiroTranscript.AdditionsAlone` | backend/src/converters/openai_to_kiro.rs:369-410 | without a system prompt the first addition that is not blank stands alone, trimmed, and the rest follow it |
| `KiroConservation.StrippingEmbeds` | backend/src/converters/core.rs:764-840 | a message's texts, every call's name, identifier and arguments and every result's identifier and text occur in the stripped text, in order |
| `KiroConservation.NothingIsLost` | backend/src/converters/openai_to_kiro.rs:417-505 | without tools all of them, of users and assistants, occur in the entries of the payload, in conversation order, through stripping, merging and history |
| `KiroConservation.TextsArrive` | backend/src/converters/openai_to_kiro.rs:417-505 | with tools all texts of users and assistants occur in the entries of the payload, in conversation order |
| `KiroConservation.NoToolDataWithoutTools` | backend/src/converters/openai_to_kiro.rs:417-560 | without tools no entry has tool data, exactly unless the last message is a stray result of a role other than user |
| `OpenAIMessages.ConvertOpenAIMessages` | backend/src/converters/openai_to_kiro.rs:116-253 | system texts are joined and trimmed, and runs of tool messages become user messages with their results |
| `OpenAIMessages.SystemTextIsLines` | backend/src/converters/openai_to_kiro.rs:119-135 | the system prompt before trimming: the contents of all system messages, each with a newline behind it |
| `OpenAIMessages.ConversionKeepsPieces` | backend/src/converters/openai_to_kiro.rs:138-236 | every text, call and result of the conversation, read off its messages, is in the unified messages, in order |
| `OpenAIMessages.ConversionIsPlain` | backend/src/converters/openai_to_kiro.rs:33-65 | results are only in lists of user messages, calls only in lists of assistants, neither in the content, and neighbouring results are gathered |
| `OpenAIMessages.OpenAIResultsFollowUses` | backend/src/converters/openai_to_kiro.rs:421-466 | with tools, for every OpenAI conversation: results directly follow uses |
| `OpenAIMessages.OpenAIToolsBecomeText` | backend/src/converters/openai_to_kiro.rs:417-505 | without tools, for every OpenAI conversation of any roles: no tool data, and every text, call and result, read off the messages, in the text of an entry, in order |
| `OpenAIMessages.OpenAITextsArrive` | backend/src/converters/openai_to_kiro.rs:417-505 | with tools, for every OpenAI conversation: every text of a user or assistant in the text of an entry, in order |
| `OpenAIMessages.OnlySystemIsRefused` | backend/src/converters/openai_to_kiro.rs:421-430 | a request is refused exactly when it has no message but those of the system |
| `OpenAITools.ToolsArrive` | backend/src/converters/openai_to_kiro.rs:417-560 | with tools, for every OpenAI conversation: identifier and text of the results in the payload are those of the tool messages that answer calls, and the uses in its assistant entries the calls, run by run, but for those of a last message of the assistant |
| `OpenAITools.CallArrives` | backend/src/converters/core.rs:594-690 | a call whose identifier is its own within the run is sent with its identifier, name and arguments |
| `OpenAIMessages.BuildKiroPayload` | backend/src/converters/openai_to_kiro.rs:296-347 | an OpenAI request from its messages to its payload |
| `AnthropicMessages.ConvertAnthropicMessages` | backend/src/converters/anthropic_to_kiro.rs:178-247 | calls and results are listed beside the converted content |
| `AnthropicMessages.TextsAreKept` | backend/src/converters/anthropic_to_kiro.rs:29-99 | the text of converted content is the texts in it, read off its JSON at any depth |
| `AnthropicMessages.ToolsAreKept` | backend/src/converters/anthropic_to_kiro.rs:133-175 | tool uses and results of converted content are those of its blocks, in order, with identifiers, names, inputs and texts |
| `AnthropicMessages.AllIsKept` | backend/src/converters/anthropic_to_kiro.rs:178-247 | every text, use and result of the conversation, read off its blocks, is in the unified messages, in order |
| `AnthropicMessages.ResultsAreNotEmpty` | backend/src/converters/anthropic_to_kiro.rs:66-84 | a tool result never arrives empty, however deeply its text is nested |
| `AnthropicMessages.ConvertedIsListed` | backend/src/converters/anthropic_to_kiro.rs:184-226 | tool data in the content of a message is in its lists, too |
| `AnthropicMessages.AnthropicToolsBecomeText` | backend/src/converters/openai_to_kiro.rs:417-560 | without tools, for any roles: every text, use and result, read off the blocks, in the text of an entry, in order, and tool data exactly for a stray result at the end |
| `AnthropicMessages.AnthropicTextsArrive` | backend/src/converters/openai_to_kiro.rs:417-505 | with tools, for any roles: every text of a user or assistant in the text of an entry, in order |
| `AnthropicTools.ResultsArrive` | backend/src/converters/core.rs:853-1073 | with tools, for every Anthropic conversation of any roles: identifier and text of the results in the payload are those of the messages whose results arrive, by a predicate on the conversation |
| `AnthropicTools.UsesArrive` | backend/src/converters/core.rs:594-690 | with tools, for every Anthropic conversation: the uses in the assistant entries are those of its messages, run by run, but for those of a last message of the assistant |
| `AnthropicTools.UseArrives` | backend/src/converters/core.rs:634-690 | a use whose identifier is its own within the run is sent with its identifier, name and input |
| `AnthropicMessages.AnthropicResultsFollowUses` | backend/src/converters/core.rs:853-1073 | with tools, for every Anthropic conversation of any roles: every entry with tool results directly follows an assistant entry with tool uses, exactly unless results of some message return |
| `RequestConversion.OpenAIToAnthropic` | backend/src/converters/openai_to_anthropic.rs:25-117 | the system prompt is the system texts joined by newlines, and absent exactly when there is no system message; calls become tool uses, and runs of results become one user message |
| `RequestConversion.SystemPromptIsHead` | backend/src/converters/openai_to_anthropic.rs:29-41 | the system prompt told message by message: the first text, then a newline and the text of each further one |
| `RequestConversion.AnthropicToOpenAI` | backend/src/converters/anthropic_to_openai.rs:33-154 | blocks are split again into tool messages and one message of text and calls |
| `RequestConversion.SplitSays` | backend/src/converters/anthropic_to_openai.rs:56-154 | what is left of a message beside its tool results is one message with its texts, a newline between two, and its calls; it is left out when it has neither |
| `RequestRoundTrip.HoistingKeepsOrder` | backend/src/converters/openai_to_anthropic.rs:29-41 | system messages are taken out, all of them and nothing else, and both parts keep their order |
| `RequestRoundTrip.NormalReturns` | backend/src/converters/openai_to_anthropic.rs:29-111 | a conversation in normal form returns message by message, with grouped results split apart |
| `RequestRoundTrip.SplitsAreNormal` | backend/src/converters/anthropic_to_openai.rs:56-154 | whatever returns is in normal form |
| `RequestRoundTrip.RoundTrip` | backend/src/converters/anthropic_to_openai.rs:33-154 | there and back is one system message with the system texts joined, if that text is not empty, and the same conversation, exactly when every message is in normal form |
| `RequestRoundTrip.ThereAndBack` | backend/src/converters/anthropic_to_openai.rs:33-154 | both converters one after the other: behind the same system message the split-up conversation, and the same one when it is in normal form |
| `ResponsesInput.NormalizeFunctionCallOutput` | backend/src/converters/responses_to_chat_completion.rs:259-300 | an output as a string: texts joined unless there are images, and JSON text for anything else |
| `ResponsesInput.OutputIsText` | backend/src/converters/responses_to_chat_completion.rs:259-300 | an output by its value: a string as it is, nothing for null, the texts of an array if there are any and no image, and JSON text otherwise |
| `ResponsesInput.ResponsesToChatCompletion` | backend/src/converters/responses_to_chat_completion.rs:343-486 | items become messages; a call joins the calls of the last message |
| `ResponsesInput.CallsAreKept` | backend/src/converters/responses_to_chat_completion.rs:357-404 | the calls of all messages are the function-call items in order, with `call_id` or else `id`, and no two neighbours are messages of calls |
| `ResponsesInput.WhatIsSaidIsKept` | backend/src/converters/responses_to_chat_completion.rs:343-486 | behind the instructions message items keep role, content and order, developers speaking as the system, and outputs keep identifier, text and order |
| `ResponsesInput.CallsBecomeOne` | backend/src/converters/responses_to_chat_completion.rs:357-440 | a run of calls becomes one message, with items that are passed over among them |
| `ResponsesInput.TurnIsAdjacent` | backend/src/converters/openai_to_anthropic.rs:41-100 | for Anthropic a run of calls and a run of outputs, anywhere in the input and with items that are passed over among them, become one assistant message directly followed by one user message that holds all of them first, and else only the results that come next |
| `Truncation.DiagnoseJsonTruncation` | backend/src/truncation.rs:36-125 | the checks in their order, with their reasons |
| `Truncation.CountQuotes` | backend/src/truncation.rs:99-112 | quotation marks outside escapes |
| `Text.TrimIs` | backend/src/truncation.rs:38-38 | trimming takes away white space at both ends, and all of it |
| `TruncationOfJson.CompleteIsNotTruncated` | backend/src/truncation.rs:36-125 | a complete object, array or string is found complete exactly when braces and brackets balance inside its strings |
| `TruncationOfJson.CutIsTruncated` | backend/src/truncation.rs:36-125 | a value cut off at a position is found to be cut off exactly unless the position is outside strings, open containers and the strings before it cancel out for braces and brackets, and what is visible ends like the value |
| `TruncationOfJson.CutReason` | backend/src/truncation.rs:36-125 | the reason given for a cut is the first that applies, with the counts of open containers and of strings |
| `TruncationOfJson.CutStringIsTruncated` | backend/src/truncation.rs:99-117 | a string is found to be cut off wherever it is cut, escapes included |
| `TruncationOfJson.DiagnosisIsRight` | backend/src/truncation.rs:36-125 | of all beginnings of a document just those that end inside its value are found to be cut off, exactly when no cut goes unnoticed and the strings balance |
| `TruncationOfJson.DiagnosisIsExact` | backend/src/truncation.rs:36-125 | that is so when strings never close all that is open before them and balance in the end |
| `TruncationOfJson.FreeIsHarmless` | backend/src/truncation.rs:70-97 | strings without braces and brackets stay open and balance, so that every cut is found |
| `JsonTokens.TokensWrite` | backend/src/truncation.rs:70-97 | the tokens that positions are described by make up the text of the value |
| `JsonTokens.TokensNested` | backend/src/truncation.rs:70-97 | containers nest: nothing is closed that is not open, and inside a container one of its kind is open |
| `TruncationOfJson.BracesInStringsHideACut` | backend/src/truncation.rs:70-97 | a family of objects that pass as complete without their last character |
| `TruncationNotices.TruncationState.GetToolTruncation` | backend/src/truncation.rs:188-190 | an entry is removed when it is read |
| `TruncationNotices.TruncationState.GetContentTruncation` | backend/src/truncation.rs:205-208 | the same for contents, by the hash of their first 500 characters |
| `TruncationNotices.TruncationState.InjectOpenAITruncationRecovery` | backend/src/truncation.rs:271-337 | collecting and inserting in reverse gives the result of the single pass, and the cache it leaves |
| `TruncationNotices.TruncationState.InjectAnthropicTruncationRecovery` | backend/src/truncation.rs:344-418 | the same for Anthropic messages and their content blocks |
| `NoticeInjection.InsertInReverse` | backend/src/truncation.rs:331-336 | the insertions from the last to the first |
| `NoticeInjection.TwoPassesAreOne` | backend/src/truncation.rs:271-337 | collecting positions and inserting in reverse equals inserting each notice at once |
| `NoticeInjection.OrderIsKept` | backend/src/truncation.rs:331-336 | every message stays in place, moved on only by the notices inserted before it |
| `NoticeCache.EachIsVisited` | backend/src/truncation.rs:274-329 | every message is checked against what earlier messages have left in the cache |
| `TruncationNotices.OpenAIConsumes` | backend/src/truncation.rs:187-208 | exactly the entries for these messages are used up, and each content entry gives one notice |
| `TruncationNotices.AnthropicConsumes` | backend/src/truncation.rs:187-208 | the same for Anthropic messages |
| `TruncationNotices.OpenAIAgain` | backend/src/truncation.rs:271-337 | running the injection on its own result changes nothing |
| `TruncationNotices.AnthropicAgain` | backend/src/truncation.rs:344-418 | the same for Anthropic messages |
| `NoticePlaces.OpenAINotices` | backend/src/truncation.rs:271-337 | the injection told by messages and cache alone: the first result for each identifier becomes the notice followed by what was there, and an error; a notice follows the first assistant message for each remembered content; all else stays |
| `NoticePlaces.AnthropicNotices` | backend/src/truncation.rs:344-418 | the same for Anthropic messages, block by block |
| `NoticePlaces.AlikeIsSameStart` | backend/src/truncation.rs:211-219 | contents with the same first 500 characters are taken for one another, and no others unless digests collide |
| `NoticePlaces.SavedIsRemembered` | backend/src/truncation.rs:192-208 | saving a content makes the cache remember it and what is taken for it; reading forgets just that |
| `TokenRefresh.RunKeepsInv` | backend/src/auth/manager.rs:207-262 | the invariant of every state of every run: one holder, no expiry newer than the token, waiting calls have read an expiring expiry |
| `TokenRefresh.OneExchangeAtATime` | backend/src/auth/manager.rs:215-241 | at most one exchange is in flight, for any number of calls in any interleaving |
| `TokenRefresh.NewestIsPresented` | backend/src/auth/manager.rs:218-255 | without a database every exchange presents the newest refresh token that any answer has brought |
| `TokenRefresh.TokenIsFresh` | backend/src/auth/manager.rs:266-291 | a call returns a token at least as new as the expiry it went by |
| `TokenRefresh.ExpiringIsRefreshed` | backend/src/auth/manager.rs:183-213 | in every run a call goes on to return the token exactly when its expiry is beyond the threshold, and looks twice before it waits |
| `TokenRefresh.OnlyBadRequestsAreRetried` | backend/src/auth/manager.rs:218-243 | a refresh is tried again only after a bad request, with a database, and once |
| `TokenRefresh.AnswerIsStored` | backend/src/auth/manager.rs:245-262 | an answer brings token, expiry and refresh token up to date before the lock is left |
| `TokenRefresh.FailureFallsBack` | backend/src/auth/manager.rs:270-286 | after a failed refresh a call goes on to return the current token exactly while that has not expired, and fails otherwise |
| `TokenRefresh.CurrentIsReturned` | backend/src/auth/manager.rs:277-291 | what is then returned is the token of that moment |
| `TokenRefresh.NeedlessOnlyAfterAnother` | backend/src/auth/manager.rs:210-215 | a token that is not expiring is refreshed only by a call that read the expiry before another refresh |
| `RefreshTwice.SecondRefreshes` | backend/src/auth/manager.rs:207-262 | from every state of every run in which two calls wait for the free lock, the second can send a refresh directly after the first has succeeded, however long the new token lasts |
| `RefreshTwice.NeedlessRefresh` | backend/src/auth/manager.rs:210-215 | a run in which a token that is not expiring is refreshed |
| `ModelNames.StandardName` | backend/src/resolver.rs:11-13 | the standard pattern gives the dotted minor version, whatever accepted suffix follows |
| `ModelNames.LegacyName` | backend/src/resolver.rs:18-20 | the legacy pattern gives the dotted version before the family |
| `ModelNames.NameWithoutMinor` | backend/src/resolver.rs:15-16 | without a minor version a date is dropped |
| `ModelNames.NormalizingIsIdempotent` | backend/src/resolver.rs:36-75 | normalising a second time changes nothing, for every string |
| `ModelNames.SuffixIsDropped` | backend/src/resolver.rs:11-60 | to a name with a dashed minor version every accepted suffix may be added |
| `ModelNames.DateIsDropped` | backend/src/resolver.rs:22-66 | to a dotted name a date may be added exactly when the name is in lower case |
| `ModelNames.OtherSuffixStays` | backend/src/resolver.rs:22-75 | any other suffix of a dotted name stays |
| `ModelNames.FamilyKeepsDate` | backend/src/resolver.rs:15-51 | after a family alone a date counts as the major version |
| `ModelNames.NamesOutsideAreAuto` | backend/src/resolver.rs:68-75 | a name that does not begin with "claude" becomes "auto", unless it is that already |

## Left out

- Event text: events and JSON values are datatypes; the SSE framing and the JSON text of events are not modelled.
- Echoed request parameters, usage mapping, `tool_choice` and `response_format` mappings, tools and their schemas: copying of fields with claims of one branch each.
- Integer width of output indices (`i32`): indices are unbounded, so neither the truncation of a tool index nor an overflow is modelled.
- JSON fields of unexpected types in chunks are read as absent, except the `id` of a tool call, where the code tells the two apart.
- `reset` of the thinking parser: it assigns the initial values to all fields again.
- JSON parsing and printing of arguments is a parameter (`canon`): what parsing and printing again makes of a string; `RoundTrip` asks that printing what has been printed changes nothing.
- Images in Kiro messages: blocks are kept apart from the rest, but lists of images are not carried (merging keeps only those of the first message).
- The order of tool uses in an assistant entry: the source takes it from a hash map, so an entry holds a map.
- Constants of payload entries (`modelId`, `origin`), tools and the profile ARN, and the texts of the system prompt's additions: additions are a parameter.
- `name` of OpenAI messages, and a system prompt given as an array of blocks to `anthropic_to_openai`.
- Conversion of content parts of Responses messages: a parameter of `ResponsesToChatCompletion`.
- Hash collisions and SHA-256: the digest is a parameter, applied to the first 500 characters.
- Concurrent access to the truncation cache, and its global instance: each injection is one sequence of steps.
- `i32` counters of the truncation diagnosis: texts are taken to be shorter than 2^31 characters.
- Token refresh: HTTP, the database and its errors are outcomes of steps; cancellation of a call in the middle is not modelled, nor are readers of the credentials (region, profile ARN).
- Unicode tables for digits and lower case are parameters of `ModelNames` with the laws that `Lawful` states (`ModelNames.AsciiIsLawful` meets them); patterns are read on the segments between dashes, which is the same because neither digits nor families contain dashes.
- HTTP client, OAuth, web routes, database, tokenizer, cost tables, guardrails, caches: I/O, libraries or easy members.
