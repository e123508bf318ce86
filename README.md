# aa-phone conversation core in Dafny

aa-phone is a single-page "virtual phone": a chat app whose contacts are AI
personas, plus a moments feed ("朋友圈") and a diary. Almost all of `main.js`
is DOM templating and `fetch` plumbing. This project models the part that has
rules: the conversation and orchestration core working on the global `state`
object.

- **Conversation store** (`conversation.dfy`, `phone.dfy`):
  - per-character logs created lazily;
  - `addMessage`, delete and star from the long-press menu;
  - the backward scans of `getLastUserMessage` and `removeLastAssistantReply`.
- **Reply handling** (`reply.dfy`, `segments.dfy`):
  - `extractAIContent` and its fallback order;
  - `splitIntoSegments`, down to the regular expression `/\r?\n\s*\r?\n/`;
  - the commit step of `sendToAI`, which turns a response into the bubbles written to the log.
- **Prompt assembly** (`prompt.dfy`, `config.dfy`):
  - system messages in the order memory summary, persona block, user block, then the filtered history;
  - the model and base-URL fallback chains;
  - scene presets.
- **Intents, auto-generation and memory** (`intents.dfy`, `auto.dfy`, `memory.dfy`):
  - the three keyword classifiers;
  - the moment and diary watermarks of `maybeAutoGenerate`;
  - the counter and threshold state machine of `maybeSummarizeMemory`;
  - the manual save and clear of the summary.
- **Moments** (`moments.dfy`): `ensureMomentStructure`, both like toggles, comment appends, and the moment made from a chat message.
- **Import and export** (`json.dfy`): the backup envelope and the decision `importDataFromText` makes.
- **The state itself** (`phone.dfy`):
  - `PhoneState` is a class with the fields of `state` that the core reads and writes;
  - its methods change them in place with `modifies` clauses;
  - each method is specified by the pure functions of the other modules.

`sendToAI` is asynchronous in the source. Here it is two methods:
- `BeginSend` runs up to the `fetch`: the API-key check, the busy flag, building the prompt, and pushing the placeholder.
- `CompleteSend` runs once the response is known: it commits the reply, raises the counter, runs the follow-ups, and clears the flag.

This keeps the busy guard of `handleSend`, `handleAskAI` and `handleRetry` observable.

Behaviours of the code that the model keeps as written:

- **Stale responses.** Suppose another character is opened while a request is in flight. The first bubble still replaces the placeholder in the log captured when the request started (`msgsRef`, main.js:1939). The later bubbles go through `addMessage`, which appends them to the character that is open *now* (main.js:1486-1488, 2003-2008). One might expect the whole response to go to the original conversation. The code does not do that, and the model follows the code (`Phone.LaterBubblesFollowTheOpenCharacter`).
- **Global watermarks.** The two auto-generation watermarks are global, not per character (main.js:25-26). A long conversation with one character therefore holds back auto-generation in a shorter conversation with another.
- **Two different character lookups.** `sendToAI` finds the persona with the raw `state.currentCharId` (main.js:1859). It takes the history from `getCurrentCharId()`, which falls back to the first character (main.js:709-713).
- **A branch that never runs.** The `!segments.length` branch of the non-array reply path (main.js:2021-2024) cannot be taken: the text there is never blank (`Reply.OtherContentIsNotBlank`).
- **Redeclared functions.** `exportData` and `importDataFromText` are each declared twice; the later declarations (main.js:361, 403) are the ones in force and the ones modelled.

## Model

| member | source | states |
|---|---|---|
| Conversation.LastIndexOfRole | main.js:1712-1718 | the index of the last message with the role; no later message has it; None exactly when no message has it |
| Conversation.RetryPrefix | main.js:2673-2690 | None exactly when the log has no assistant message; otherwise the prefix that ends just before the last assistant message |
| Conversation.RetryDropsLastReply | main.js:2673-2690 | retry on `before + [reply] + after`, where `after` has no reply, leaves exactly `before` |
| Conversation.RetryExamples | main.js:2703-2711 | `[user, assistant, user]` retries to `[user]`; `[user, user]` cannot be retried |
| Conversation.ChatTurns | main.js:1931-1936 | the history sent holds only user and assistant turns and is no longer than the log |
| Conversation.ChatTurnsAppend | main.js:1931-1936 | filtering the history keeps its order: the turns of `a + b` are the turns of `a` followed by those of `b` |
| Conversation.ChatTurnsOfOne | main.js:1931-1936 | a single user or assistant message gives exactly its own turn; a message of any other role is dropped |
| Conversation.ChatTurnsOfChatLog | main.js:1931-1936 | a log of user and assistant messages is sent whole, one turn per message, in order |
| Conversation.RemoveAt | main.js:1241-1247 | `splice(i, 1)`: one message fewer; the messages before `i` are kept, the later ones move down by one; the multiset loses exactly the removed message |
| Conversation.ToggleStarAt | main.js:1248-1253 | only `starred` of message `i` flips; every other message and field is unchanged |
| Conversation.StarTwiceRestores | main.js:1248-1253 | starring twice gives the log back |
| Config.IsAvatarUrl | main.js:79-84 | true exactly when the trimmed value starts with `http://` or `https://` (in any letter case) or `data:image` |
| Config.AvatarUrlIgnoresSurroundingSpace | main.js:79-84 | whitespace around the value never changes the verdict |
| Config.FindScene | main.js:65-69 | the first preset with the key, or None when no preset has it |
| Config.SceneConfig | main.js:65-69 | the preset with the current key, or the first preset when the key is unknown |
| Config.SceneConfigFindsEveryPreset | main.js:38-63 | the preset keys are distinct: every preset is found by its own key |
| Config.UnknownSceneIsDefault | main.js:65-69 | an unknown key gives the default scene, which has no prompt |
| Config.FirstNonEmpty | main.js:1866-1876 | a chain of "or" fallbacks: the first non-empty candidate, with every earlier one empty, or the fallback when all are empty |
| Config.ResolveModel | main.js:1872-1876 | the model is never empty; in priority order it is the trimmed character model, the trimmed custom model, the selected model, or `gpt-4.1-mini` |
| Config.CharacterModelWins | main.js:1872-1876 | a character's own model makes the global settings irrelevant |
| Config.ResolveBaseUrl | main.js:1866-1869 | the trimmed character URL, else the trimmed global URL, else the OpenAI default; never empty |
| Config.EndpointIgnoresTrailingSlash | main.js:1944 | a base URL with or without its trailing slash reaches the same endpoint |
| Intents.AnyContained | main.js:1737 | `keywords.some(k => t.includes(k))`: true exactly when some keyword occurs in the text |
| Intents.HasAnyKeyword | main.js:1720-1754 | the shared detector: true exactly when the text contains one of the keywords, and then the trimmed text is not empty |
| Intents.KeywordListsWellFormed | main.js:1723-1753 | every keyword is non-empty and has no whitespace at either end |
| Intents.IntentsAreKeywordContainment | main.js:1720-1754 | each detector holds exactly when the text contains one of its own keywords; a blank text has no intent |
| Intents.IntentsIgnoreSurroundingSpace | main.js:1720-1754 | trimming the text first changes no detector's verdict |
| Intents.KeywordInsideMessage | main.js:1720-1754 | "晚安", "写日记" and "发朋友圈" are found anywhere inside a longer message |
| JsonModel.ExportPayload | main.js:373-377 | the envelope is an object with a truthy `version` and the data under `data` |
| JsonModel.Unwrap | main.js:412-417 | the `data` of an envelope whose `version` and `data` are truthy, otherwise the payload itself; None exactly when the payload is not an object |
| JsonModel.ImportData | main.js:403-446 | unparsable text, a non-object and a declined confirmation import nothing; an import writes the unwrapped object and only with consent (twice when the file has no user data) |
| JsonModel.ExportImportRoundTrip | main.js:361-446 | exporting the stored settings and importing the file gives back exactly those settings |
| JsonModel.BareSettingsImportAsIs | main.js:412-417 | a settings object without an envelope is imported unchanged |
| JsonModel.NullExportImportsEnvelope | main.js:412-417 | an envelope with `data: null` is not unwrapped; the envelope itself is imported |
| Moments.EnsureStructure | main.js:2392-2409 | after repair the moment has all five fields with their types, no field is removed, and every field other than the three typed ones keeps its value |
| Moments.RepairKeepsTypedFields | main.js:2400-2408 | `comments` and `likedByChars` that are arrays, and a boolean `likedByUser`, are kept as they are |
| Moments.RepairFillsAuthor | main.js:2394-2399 | a missing `authorType` becomes "char" and a missing `authorId` the current character id |
| Moments.RepairFillsDefaults | main.js:2400-2408 | a missing or ill-typed `comments` or `likedByChars` becomes an empty array, and a `likedByUser` that is not a boolean becomes `false` |
| Moments.WellStructuredIsKept | main.js:2392-2409 | a moment that already has its structure is left exactly as it is |
| Moments.EnsureStructureIdempotent | main.js:2392-2409 | repairing twice is repairing once, whichever character is current the second time |
| Moments.IndexOf | main.js:2430 | `indexOf`: the first position holding the value, or None exactly when the value is absent |
| Moments.ToggleFlipsMembership | main.js:2429-2432 | toggling `cid` flips whether it is listed and keeps every other entry |
| Moments.ToggleTwiceRestores | main.js:2429-2432 | toggling twice restores the entries, and restores the exact list when `cid` was absent |
| Moments.ToggleUserLike | main.js:2411-2418 | repair, then flip `likedByUser`; nothing else changes |
| Moments.UserLikeTwice | main.js:2411-2418 | liking twice as the user gives back the repaired moment |
| Moments.ToggleCharLike | main.js:2420-2435 | repair, then toggle the character in `likedByChars`; nothing else changes |
| Moments.CharLikeTwice | main.js:2420-2435 | a character's like appears after one toggle and a second toggle gives back the repaired moment |
| Moments.AppendComment | main.js:2444-2449 | a comment is added at the end; earlier comments and other fields are kept |
| Moments.AddUserComment | main.js:2437-2452 | a cancelled or blank answer adds nothing but the repair; otherwise exactly one user comment with the trimmed text is added |
| Moments.CharCommentText | main.js:2517-2521 | the reply trimmed, or "好有意思～" when the reply is empty |
| Moments.AddCharComment | main.js:2518-2523 | exactly one comment from the character is appended |
| Moments.CommentsOnlyGrow | main.js:2437-2452 | adding a comment never changes or reorders earlier comments and adds at most one |
| Moments.MomentFromMessage | main.js:1254-1267 | a reply becomes a moment by the character; any other message becomes a moment by the current profile, or `null`; it has no likes or comments |
| Moments.MomentFromMessageNeedsNoRepair | main.js:1254-1267 | a moment made from a message is already well structured |
| Segments.SeparatorAt | main.js:1708 | a match of `\r?\n\s*\r?\n` is all whitespace, ends in a line feed and starts with `\n` or `\r\n` |
| Segments.TrimAndDropEmpty | main.js:1709 | the pieces are trimmed and the empty ones dropped |
| Segments.SplitIntoSegments | main.js:1704-1710 | the empty text gives no segments; every segment is non-empty and trimmed |
| Segments.SegmentsHaveNoBlankLine | main.js:1704-1710 | no segment contains a line feed, whitespace, line feed sequence |
| Segments.SegmentsKeepText | main.js:1704-1710 | the segments, in order, hold every non-whitespace character of the text in order: nothing but whitespace is lost or reordered |
| Segments.SegmentsEmptyIffBlank | main.js:1704-1710 | there are no segments exactly when the text is blank |
| Segments.SplitJoinRoundTrip | main.js:1704-1710 | paragraphs joined with blank lines split back into exactly those paragraphs |
| Reply.ChoiceOwnText | main.js:1686-1692 | `message.content` when it is a string, else `text` |
| Reply.Abbreviate | main.js:1696-1697 | at most 400 characters plus "..."; a short text is unchanged |
| Reply.ExtractAIContent | main.js:1682-1702 | the fallback order: first choice's text, then `content`, then `result`, then the abbreviated JSON; "" for a falsy body |
| Reply.ExtractReadsFirstChoiceOnly | main.js:1685-1693 | choices after the first never change the extracted text |
| Reply.ChoiceTexts | main.js:1983-1987 | one text per choice |
| Reply.FlatSegments | main.js:1993-1994 | every segment of every choice is a paragraph |
| Reply.KeepNonBlank | main.js:1995 | only non-blank segments are kept |
| Reply.TrimmedNonBlank | main.js:2003-2008 | each later bubble is appended trimmed, and only when it is not empty |
| Reply.ReplyBubbles | main.js:1993-2008 | there is always a first bubble and no bubble is empty |
| Reply.PlanCommitOfChoices | main.js:1965-2038 | `null` data and a `null` choice become their error texts; an answered array gives its first bubble, with the truncation note when cut off, in the placeholder and the other bubbles after it, in order |
| Reply.PlanCommit | main.js:1954-2040 | the placeholder text is never empty; the reply is counted exactly when it is answered; only a counted reply has a `time` and later bubbles; errors become `出错了：` with the HTTP status or the error message |
| Reply.OtherContentIsNotBlank | main.js:2016-2024 | the non-array path always has at least one segment, so its `!segments.length` branch is dead |
| Reply.FlatSegmentsKeepText | main.js:1993-1994 | splitting every choice loses nothing but whitespace |
| Reply.ReplyBubblesAreSegments | main.js:1983-2008 | with any text, the bubbles are exactly the segments of the choices in order; with none, the one bubble is "(AI 没有返回文本内容)" |
| Reply.ReplyOfParagraphs | main.js:1983-2012 | a reply of paragraphs becomes one bubble per paragraph in order; the truncation note goes on the first bubble only |
| Reply.EmptyChoicesGiveDiagnostic | main.js:1969-1981 | an empty `choices` gives the diagnostic text, with no time, no later bubbles and no counting |
| Reply.OtherBodiesAreCounted | main.js:2016-2033 | a body without a `choices` array is counted; with no text it shows the fallback; otherwise the first segment of its text replaces the placeholder and the other segments follow in order |
| Prompt.IndexOfId | main.js:1859-1864 | `find` by id: the first element with the id, or None when there is none |
| Prompt.FindCharacter | main.js:1859 | the character found has the id asked for; None means no character has it |
| Prompt.FindUserProfile | main.js:1860-1861 | the profile found has the id asked for; None means no profile has it |
| Prompt.FindWorldBook | main.js:1862-1864 | a world book is found only through a non-empty `worldBookId` and has that id |
| Prompt.ChatMessages | main.js:1931-1936 | one chat message per turn, in order |
| Prompt.MemoryMessages | main.js:1901-1908 | at most one memory message |
| Prompt.PersonaMessages | main.js:1909-1924 | at most one persona message |
| Prompt.ProfileMessages | main.js:1925-1930 | at most one user-profile message |
| Prompt.SystemMessages | main.js:1899-1930 | at most three system messages, in the order memory, persona, profile |
| Prompt.SystemMessagesPresence | main.js:1899-1930 | each system message is present exactly when it has content; the summary comes first |
| Prompt.BuildPrompt | main.js:1897-1936 | system messages first, ordered, then exactly the filtered history in order |
| Prompt.PromptBlocksPresentWhenNeeded | main.js:1897-1936 | in the whole list, each block is present exactly when it has content, and the summary comes first |
| Prompt.PrepareRequest | main.js:1858-1896 | no request exactly when the API key is blank; the model and base URL are the first of the character's, the form's and the global ones (`ResolveModel`, `ResolveBaseUrl`), so a character's own win; `max_tokens` is 2048; the messages are the built prompt |
| Memory.ChatHistory | main.js:1812-1815 | only user and assistant messages, none lost: empty exactly when the log has none |
| Memory.Tail | main.js:1816 | the last 40 chat messages (all of them when there are fewer) |
| Memory.SummaryPrompt | main.js:1803-1820 | a summary request exactly when there is an API key and a chat message; it carries the transcript of the last 40 and uses the global model |
| Memory.SummaryText | main.js:1843-1846 | a new summary only from a 2xx parsed response whose text is not blank, trimmed |
| Memory.SummarizeStep | main.js:1788-1856 | disabled: off and count 0; below the threshold, or with no key or no chat message to summarise, nothing changes; a good summary replaces the old and resets the count; a failure changes neither |
| Memory.EffectiveEveryStable | main.js:1796-1801 | the threshold is never 0 and applying it again gives the same value |
| Memory.FailedSummaryIsRetried | main.js:1802-1850 | a failed summary keeps the count, so the next counted reply asks again and a good response resets it |
| Memory.TwentiethReplySummarizes | main.js:1796-1802 | with the default 20, the 19th reply does not summarize and the 20th does |
| Memory.SaveSummary | main.js:3437-3443 | save: the trimmed text becomes the summary and the count restarts |
| Memory.ClearSummary | main.js:3444-3450 | clear: nothing without confirmation; otherwise empty summary and count 0 |
| Memory.ManualEditRestartsCount | main.js:3437-3450 | after a manual save or clear, the next step keeps the edited summary |
| AutoGenerate.LastUserContent | main.js:1767-1768 | the content of the last user message, or None exactly when there is none |
| AutoGenerate.AutoStep | main.js:1756-1785 | a kind fires exactly when its toggle is on, the last user message ends the conversation or asks for that kind, and the log is longer than its watermark; the watermark of a kind that fires becomes the log length |
| AutoGenerate.FiresAtMostOnce | main.js:1776-1784 | called again on the same log nothing fires; a kind fires again only after the log grows |
| AutoGenerate.WatermarksOnlyRise | main.js:1776-1784 | watermarks never go down |
| AutoGenerate.GoodNightStartsBoth | main.js:1756-1785 | "晚安" with both toggles on starts a moment and a diary entry |
| Phone.AppendTo | main.js:1486-1488 | pushing onto a log creates the session if missing and changes no other session |
| Phone.AppendToTwice | main.js:2003-2008 | appending twice is appending the concatenation |
| Phone.Bubbles | main.js:2003-2008 | one assistant message per text, in order, stamped with the time |
| Phone.WriteSlot | main.js:2002 | `msgsRef[thinkingIndex] = …` replaces one message of the captured log and nothing else |
| Phone.CommitReplacesPlaceholder | main.js:1938-2008 | with the same character open, the log becomes the old log with the placeholder replaced by the first bubble, followed by the later bubbles; no other log changes |
| Phone.LaterBubblesFollowTheOpenCharacter | main.js:1939-2008 | with another character opened meanwhile, the first bubble lands in the old log and the later ones in the open character's log |
| Phone.PhoneState.constructor | main.js:2-36 | the initial state: not sending, no data, scene "default", memory off with threshold 20, watermarks 0 |
| Phone.PhoneState.GetSession | main.js:716-724 | null for a falsy id; an existing session is returned and never replaced; a missing one is created empty only when asked |
| Phone.PhoneState.AddMessage | main.js:1486-1492 | exactly one message at the end of the current log; nothing without a character |
| Phone.PhoneState.GetLastUserMessage | main.js:1712-1718 | the backward loop finds the last user message of the current log, or null exactly when there is none |
| Phone.PhoneState.RemoveLastAssistantReply | main.js:2673-2690 | false and no change without an assistant message; otherwise the log becomes the retry prefix |
| Phone.PhoneState.HandleMessageAction | main.js:1215-1279 | delete removes the message, star flips it, moment appends the moment made from it; a missing message or another action changes nothing |
| Phone.PhoneState.OpenConversation | main.js:755-758 | the character becomes current and the scene returns to default |
| Phone.PhoneState.HandleSend | main.js:2663-2671 | refused while sending or for blank input; otherwise the trimmed input is appended as a user message |
| Phone.PhoneState.BeginSend | main.js:1858-1941 | nothing without an API key; otherwise the flag is set, the request is built from the log before the placeholder, and the placeholder goes at the old length |
| Phone.PhoneState.PushPlaceholder | main.js:1896-1941 | the flag is set; the placeholder is appended to the current log at its old length, which the captured slot names; without a character nothing is stored |
| Phone.PhoneState.HandleAskAI | main.js:2692-2701 | refused while sending and when the log has no user message; otherwise it sends exactly when the key is not blank, over the current log, with the placeholder appended at the captured slot; a refusal changes nothing |
| Phone.PhoneState.HandleRetry | main.js:2703-2711 | refused while sending or without a reply; otherwise the request is built from the retry prefix, which stays even when the key is missing; it sends exactly when the key is not blank, and the log becomes the retry prefix followed by the placeholder |
| Phone.PhoneState.MaybeAutoGenerate | main.js:1756-1785 | the watermarks and the decision are those of `AutoStep` on the current log |
| Phone.PhoneState.MaybeSummarizeMemory | main.js:1788-1856 | the memory fields become those of `SummarizeStep` |
| Phone.PhoneState.AppendBubbles | main.js:2003-2008 | the loop appends the texts, in order, to the current log |
| Phone.PhoneState.CommitReply | main.js:2002-2008 | the logs become `CommitToLog` of the old logs |
| Phone.PhoneState.CountReply | main.js:2010-2012 | the count rises by one before the follow-ups, which see the updated log |
| Phone.PhoneState.CompleteSend | main.js:1942-2043 | the logs follow the commit plan; a counted reply raises the count once and runs both follow-ups; anything else leaves memory and watermarks alone; the flag is always cleared |
| Phone.PhoneState.SaveMemorySummary | main.js:3437-3443 | without the text box nothing changes; otherwise `SaveSummary` |
| Phone.PhoneState.ClearMemorySummary | main.js:3444-3450 | `ClearSummary` with the confirmation's answer |
| Phone.PhoneState.ToggleMomentLikeAsUser | main.js:2411-2418 | out-of-range index: no change; otherwise only that moment changes, by `ToggleUserLike` |
| Phone.PhoneState.ToggleMomentLikeAsChar | main.js:2420-2435 | out-of-range index or no character: no change; otherwise only that moment changes, by `ToggleCharLike` |
| Phone.PhoneState.AddUserCommentToMoment | main.js:2437-2452 | out-of-range index: no change; otherwise only that moment changes, by `AddUserComment` |
| Phone.PhoneState.AddCharCommentToMoment | main.js:2454-2530 | refused without a known current character; the repair persists even when the key is missing or the request fails; a good response appends one comment |

## Left out

- DOM rendering, overlays, navigation, alerts and the clipboard are left out. `confirm` and `prompt` answers are parameters (`goOn`, `ok`, `confirmed`, `text`, `boxValue`).
- The network is left out. Every `fetch` outcome is a `Reply.Response` value: network failure, status and unparsable body, or status and parsed body.
- The wording of the request bodies is not modelled. The system prompts keep the values they are built from, and the wording of the summary and comment requests is not kept. `temperature` (floating point) and `stream` are not modelled either.
- `localStorage`, `JSON.parse` and `JSON.stringify` are left out. A parsed value is a `Json`, and a failed parse is None. The stringified body that `extractAIContent` falls back to is an opaque string in `Data`.
- `Date.now()` is the parameter `now`, and `toLocaleString()` is an opaque `timeText`. Numbers in JSON are integers.
- `generateMoment` and `generateDiary` are left out. Only the decision to start them is modelled; what they write is not.
- Concurrency is left out. Requests are sequential: one `BeginSend`, then its `CompleteSend`.
- Phone.PhoneState.CompleteSend: requires the captured slot to still exist. The model leaves out deleting or retrying messages of that log while the request is in flight, because that can shift or remove the placeholder.
- Phone.PhoneState.BeginSend: the captured log is identified by the character id. This is not the array object itself, so a reassignment of `session.messages` during the flight (a retry) is not modelled as writing into a detached array.
- Moments.ToggleFlipsMembership: requires the character to be listed at most once, which is how the program builds the list. An imported list with duplicates only loses its first copy per toggle.
- Reply.ExtractAIContent: a truthy `choices` that is not an array, and a first choice that is falsy but not `null`, are not modelled. Neither are the `toString`-based messages of non-`Error` throws.
- Conversation.StarTwiceRestores: a message is modelled with a `starred` flag that is always present. In the source a message that never had the field ends with `starred: false` after two toggles, which differs from the original object.
- Reply.PlanCommit: the texts of a `null` body and a `null` choice are fixed to V8's `TypeError` messages (`NullDataError`, `NullChoiceError`). The bubble shows the engine's own wording, which differs on JavaScriptCore and SpiderMonkey.
- Reply.Abbreviate: counts characters, where JavaScript counts UTF-16 code units.
- Moments.EnsureStructure: moments that are not objects (`null` entries are skipped by the source) are not modelled. A moment is always a map.
- Phone.PhoneState.HandleMessageAction: copying changes no state and is a no-op here. The menu target `(charId, index)` is a parameter rather than the module-level `currentMessageAction`.
- The rest of `main.js` is not part of this model: the status board, tarot and mood tools, model listing, speech, wallpapers, and the character and profile editors.
