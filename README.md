# CreatorOS core, modelled in Dafny

CreatorOS is a web workspace for content creators. This project models five parts of it and proves properties of each:

- **The message history** (`src/genz/utils/messageLibrary.ts`). It is shared by the Creator Network panel and the Library page. One localStorage key holds the whole history as a JSON list. Loading drops corrupt entries and fills in defaults. Removal is load, filter, save. Append is load, add, save, plus a detached mirror insert.
- **Three API routes.** Each is a small transform around an opaque text generator:
  - `/api/persona` checks its input, strips a Markdown fence from the answer, fills fields in from alias names, and builds a demo persona;
  - `/api/growth-strategist` falls back to a placeholder channel and recovers JSON from between braces;
  - `/api/chat` filters messages, picks the last user message, and writes a transcript.
- **The sidebar's active-link rule** (`src/app/sidebar-nav.tsx`).
- **The non-visual logic of the dashboard** (`src/genz/components/Dashboard.tsx`):
  - the assistant chat panel;
  - the persona panel's "generate more" merge;
  - the script-idea and caption fallbacks;
  - the creator-network send.

Modules and files:

| module (file) | what it holds |
|---|---|
| `Json` (json.dfy) | JSON values as `JSON.parse` hands them over, plus the JavaScript coercions the code applies: property reads, truthiness, `??`, `String()`, object spread |
| `Text` (text.dfy) | `trim`, `startsWith`, one-character `indexOf`/`lastIndexOf`, `split` and `join` |
| `Http` (http.dfy) | route replies, the generator as a value, the 500 reply for a generator failure |
| `MessageLibrary` (message_library.dfy) | the record, `Load` as a function of the slot, and the class `MessageStore`, whose field `slot` the methods rewrite |
| `PersonaFence`, `PersonaNormalize`, `PersonaRoute` | the persona route |
| `GrowthRoute` | the growth strategist route |
| `ChatRoute` | the chat route |
| `SidebarNav` | the sidebar |
| `DashboardFetch`, `DashboardChat`, `DashboardPersona`, `DashboardPersonaView`, `DashboardNetwork` | the dashboard; each panel whose handlers change state is a class |

Values the code obtains from outside are parameters. Each route's handler is a function of them:

- `parse` stands for `JSON.parse`, with None when it throws.
- `generate` stands for the Gemini text generator: a text, or the value it throws.
- `hasApiKey` says whether `GEMINI_API_KEY` is set.
- `stamps` / `issued` give what `crypto.randomUUID()` and the clock answer.
- `writeOk` says whether `localStorage.setItem` succeeds.
- `now` is `Date.now()`.
- `engineMessage` is the text of a TypeError the JavaScript engine throws.

The database inserts a route performs are returned as the row it hands over. Each insert sits in its own try/catch, so no outcome of it can change the reply.

A dashboard handler that awaits a fetch is split at the await into two methods:

- `BeginSend` / `FinishSend` for the chat;
- `BeginGenerateMore` / `FinishGenerateMore` for the persona panel.

The response is a `Response` value: a rejected fetch, or `ok` plus the body as `res.json()` reads it.

**Where the declared types and the code differ, the model follows the code:**

- The TypeScript types of `LibraryMessage` list closed sets of roles, directions and sources. `loadMessages` defaults a field only when it is null or absent. Any other stored value, recognised or not, is kept as it is (`messageLibrary.ts:48-52`).
- `appendMessage` does not check that the name and content are non-empty (`messageLibrary.ts:90-98`). An empty one is saved, and the next load drops it (`EmptyDraftDroppedOnLoad`).
- Callers pass sources outside the declared union, so `source` is any JSON value.
- An entry lacking an id gets a fresh one on every load (`messageLibrary.ts:46`). Remove and append persist that normalised list.
- A stored name or content is kept if it is truthy, so an empty array qualifies. It becomes its `String()` form, which for an empty array is the empty string (`EmptyArrayNameKept`).
- A stored name or content that is an object with its own "toString" (or an array holding one) makes `String()` throw inside `loadMessages`'s try, so the whole history loads as empty (`UnconvertibleNameEmptiesLoad`). The routes build their prompts outside any try, so such a channel URL, video URL or text escapes the handler there.

## Model

| member | source | states |
|---|---|---|
| Json.FirstDefined | src/app/api/persona/route.ts:163-185 | the `??` chain gives a non-null operand exactly when one of the operands is neither null nor undefined |
| Json.FirstDefinedIsFirst | src/app/api/persona/route.ts:163-185 | the operand a `??` chain yields is preceded only by nullish operands |
| Json.NatToStr | src/genz/components/Dashboard.tsx:467 | the decimal text of a timestamp is a non-empty run of digits, with two or more digits exactly from 10 up |
| Json.NatToStrInjective | src/genz/components/Dashboard.tsx:467 | two different timestamps never give the same message id text |
| Json.IndexMapHoldsItems | src/genz/components/Dashboard.tsx:855 | spreading an array gives exactly the keys "0" to "n-1", and key "i" holds element i (distinct indices give distinct keys) |
| Text.TrimStart | src/app/api/chat/route.ts:56 | the text without leading white space is a suffix, everything dropped is white space, and it starts with a non-space |
| Text.TrimEnd | src/app/api/chat/route.ts:56 | the text without trailing white space is a prefix, everything dropped is white space, and it ends with a non-space |
| Text.TrimEmptyIffAllSpace | src/app/api/chat/route.ts:56-58 | `trim()` is empty exactly when the text is all white space |
| Text.TrimKeepsUnpadded | src/app/api/chat/route.ts:56 | a text with no white space at either end is left alone by `trim()` |
| Text.TrimIdempotent | src/app/api/persona/route.ts:142-151 | trimming twice is trimming once, and a trimmed text has no white space at either end |
| Text.IndexOf | src/app/api/growth-strategist/route.ts:124 | -1 exactly when the character is absent, else its first position |
| Text.LastIndexOf | src/app/api/growth-strategist/route.ts:125 | -1 exactly when the character is absent, else its last position |
| Text.IndexOfFirst | src/app/api/growth-strategist/route.ts:124 | a position holding the character with none before it is exactly what indexOf returns |
| Text.LastIndexOfLast | src/app/api/growth-strategist/route.ts:125 | a position holding the character with none after it is exactly what lastIndexOf returns |
| Text.Split | src/app/api/persona/route.ts:144 | at least one piece, and no piece holds the separator |
| Text.JoinSplit | src/app/api/persona/route.ts:144-151 | joining the pieces of a split with the separator gives the text back |
| Text.SplitJoin | src/app/api/chat/route.ts:33-39 | splitting pieces joined by a separator they lack gives the pieces back |
| Text.SplitConcat | src/app/api/persona/route.ts:144 | a split of a text with a separator in the middle is the split of both halves |
| Text.SplitLines | src/app/api/persona/route.ts:144 | `split(/\r?\n/)` has as many lines as there are '\n'-pieces |
| Text.JoinSplitLines | src/app/api/persona/route.ts:144-151 | without '\r', lines joined by "\n" give the text back |
| Text.SplitLinesWithoutCR | src/app/api/persona/route.ts:144 | without '\r', the lines are the '\n'-pieces |
| Text.SplitPiecesFrom | src/app/api/persona/route.ts:144 | every character of a piece comes from the text |
| MessageLibrary.Normalize | src/genz/utils/messageLibrary.ts:41-54 | an entry the callback does not throw on gives a record exactly when it is an object with a truthy participantName and content |
| MessageLibrary.NormalizeFillsDefaults | src/genz/utils/messageLibrary.ts:45-53 | name and content are their `String()` forms; every other field keeps a stored value that is neither null nor absent, recognised or not, and otherwise gets "creator", "sent", "library" or a generated id and timestamp |
| MessageLibrary.LoadEntries | src/genz/utils/messageLibrary.ts:40-55 | the loaded list is never longer than the stored list |
| MessageLibrary.Load | src/genz/utils/messageLibrary.ts:29-59 | a non-empty load comes only from a stored list none of whose record-shaped entries makes `String()` throw; unusable storage, an absent or empty key, unparseable text, a non-list, or such an entry all load as the empty list |
| MessageLibrary.Survivors | src/genz/utils/messageLibrary.ts:42-44 | the kept positions are exactly the record-shaped entries, in ascending order |
| MessageLibrary.LoadKeepsSurvivorsInOrder | src/genz/utils/messageLibrary.ts:40-55 | the loaded list is the normalised form of each record-shaped entry, in stored order, and nothing else |
| MessageLibrary.UnconvertibleNameEmptiesLoad | src/genz/utils/messageLibrary.ts:44-58 | one entry whose name is an object with its own "toString" empties the whole load, although the well-formed entry before it loads on its own |
| MessageLibrary.NormalizeSavedRecord | src/genz/utils/messageLibrary.ts:45-53 | normalising the saved form of a well-formed record gives that record back |
| MessageLibrary.Encode | src/genz/utils/messageLibrary.ts:61-68 | the saved list has one entry per record, and loading it never throws, since names and contents are stored as strings |
| MessageLibrary.LoadSavedList | src/genz/utils/messageLibrary.ts:61-68 | saving well-formed records and loading them again gives the same list |
| MessageLibrary.SavedLoadsBack | src/genz/utils/messageLibrary.ts:29-68 | records written to usable storage by `saveMessages` come back unchanged from `loadMessages` |
| MessageLibrary.LoadSavedAppend | src/genz/utils/messageLibrary.ts:100-101 | a well-formed record saved last is loaded last, after whatever the earlier entries load as |
| MessageLibrary.Retain | src/genz/utils/messageLibrary.ts:72-76 | the filtered list is never longer |
| MessageLibrary.RetainMembers | src/genz/utils/messageLibrary.ts:72-76 | a record is kept exactly when it was there and its name differs, or a given non-empty role differs |
| MessageLibrary.KeptBy | src/genz/utils/messageLibrary.ts:72-76 | a record is dropped only when it carries the participant's name; with no role, or an empty one, it is kept exactly when its name differs |
| MessageLibrary.RetainSplits | src/genz/utils/messageLibrary.ts:72-76 | filtering distributes over concatenation, so kept records keep their order |
| MessageLibrary.RemoveAllOfName | src/genz/utils/messageLibrary.ts:73 | without a role, no record of that participant remains |
| MessageLibrary.RemoveSparesOtherRoles | src/genz/utils/messageLibrary.ts:73-75 | with a role, every record of another name or another role stays, and none of that name and role remains |
| MessageLibrary.NewMessage | src/genz/utils/messageLibrary.ts:90-98 | the new record has the issued id and time, the given name and content, and "creator"/"sent"/"library" for omitted fields; it is well-formed exactly when name and content are non-empty |
| MessageLibrary.EmptyDraftDroppedOnLoad | src/genz/utils/messageLibrary.ts:44 | an append with an empty name or content leaves what the next load returns unchanged |
| MessageLibrary.SavedTailSurvives | src/genz/utils/messageLibrary.ts:40-55 | well-formed records at the end of a saved list are still at its end when it is loaded |
| MessageLibrary.AppendExtendsTail | src/genz/utils/messageLibrary.ts:87-101 | an append to working storage puts the record after the well-formed tail the history had |
| MessageLibrary.TwoAppendsInOrder | src/genz/utils/messageLibrary.ts:87-101 | two appends leave their records as the last two, in order |
| MessageLibrary.ThreeAppendsInOrder | src/genz/utils/messageLibrary.ts:87-101 | three appends leave their records as the last three, in order |
| MessageLibrary.Ids | src/genz/utils/messageLibrary.ts:46 | one id per record, position by position |
| MessageLibrary.AppendKeepsIdsDistinct | src/genz/utils/messageLibrary.ts:91 | a record with an unused id keeps the history's ids distinct |
| MessageLibrary.EmptyArrayNameKept | src/genz/utils/messageLibrary.ts:44-47 | an entry whose name is an empty array passes the truthiness test and is loaded with the empty name |
| MessageLibrary.MessageStore.constructor | src/genz/utils/messageLibrary.ts:23 | the store starts with the given slot |
| MessageLibrary.MessageStore.LoadMessages | src/genz/utils/messageLibrary.ts:29-59 | returns the loaded list, no longer than the stored list |
| MessageLibrary.MessageStore.SaveMessages | src/genz/utils/messageLibrary.ts:61-68 | the slot holds the list written; unusable storage or a failed write leaves it unchanged |
| MessageLibrary.MessageStore.RemoveMessagesForParticipant | src/genz/utils/messageLibrary.ts:70-78 | the slot becomes the save of the filtered loaded list |
| MessageLibrary.MessageStore.AppendMessage | src/genz/utils/messageLibrary.ts:80-109 | returns the new record; the slot becomes the save of the loaded list with that record at the end; distinct ids stay distinct |
| PersonaFence.FencedRoundTrip | src/app/api/persona/route.ts:142-152 | a text wrapped in a code fence with any language tag is cleaned back to the trimmed text |
| PersonaFence.FencedUntrimmed | src/app/api/persona/route.ts:142 | a fenced text has no white space at either end |
| PersonaFence.FencedOpens | src/app/api/persona/route.ts:143 | a fenced text is recognised as fenced |
| PersonaFence.FencedLines | src/app/api/persona/route.ts:144 | a fenced text's lines are the opening line, the body's lines and the closing fence |
| PersonaFence.DropClosingFence | src/app/api/persona/route.ts:145-150 | the opening line and a closing fence line are both dropped |
| PersonaFence.CleanOutput | src/app/api/persona/route.ts:142-152 | the step-by-step cleaning equals the specification; a text not starting with a fence is only trimmed |
| PersonaFence.StripFenceTrimmed | src/app/api/persona/route.ts:142-152 | the cleaned answer, fenced or not, never starts or ends with white space |
| PersonaFence.OpenFenceOnly | src/app/api/persona/route.ts:146-151 | without a closing fence line only the opening line is dropped |
| PersonaNormalize.NonObjectGivesRaw | src/app/api/persona/route.ts:158-160 | a parsed value that is not an object or array is answered as `{ raw }` |
| PersonaNormalize.ParsedFieldsWin | src/app/api/persona/route.ts:178-187 | every field of the parsed object appears with its own value; the others are exactly the alias fields that found a value |
| PersonaNormalize.AliasFallback | src/app/api/persona/route.ts:163-185 | a missing field takes the first alias value that is neither null nor absent, and is left out when there is none |
| PersonaNormalize.TextFallsBackToSummary | src/app/api/persona/route.ts:163-167 | text falls back to summary, then description |
| PersonaNormalize.AliasField | src/app/api/persona/route.ts:163-187 | a missing field is present exactly when its alias chain finds a value, and holds that value |
| PersonaRoute.PreviewOfText | src/app/api/persona/route.ts:62-65 | a text of at most 160 characters is shown whole, a longer one as its first 160 and an ellipsis |
| PersonaRoute.SourceTextPreview | src/app/api/persona/route.ts:62-65 | a null or missing text gives "", a number or boolean is kept as given, and a preview that differs from the input ends in an ellipsis |
| PersonaRoute.Demo | src/app/api/persona/route.ts:27-66 | the demo is an object marked `_demo: true` that carries the videoUrl when one is given, and otherwise the text preview, never both |
| PersonaRoute.Handle | src/app/api/persona/route.ts:10-232 | every answer has status 200, 400 or 500; a prompt is sent only with a key; an escaping exception sends and stores nothing |
| PersonaRoute.MissingInputRejected | src/app/api/persona/route.ts:11-20 | without a truthy videoUrl or textInput the answer is 400, and nothing is generated or stored |
| PersonaRoute.TextModeOnlyWithoutUrl | src/app/api/persona/route.ts:86-88 | the text prompt is sent exactly when there is no videoUrl, and a video prompt names the given URL |
| PersonaRoute.StoredOnlyWithUrl | src/app/api/persona/route.ts:69-81 | a row is stored only for a request with a videoUrl and holds exactly the 200 answer, and every such answer is stored |
| PersonaRoute.UnparseableGivesRaw | src/app/api/persona/route.ts:206-222 | output that does not parse after cleaning is answered as `{ raw }` with status 200 |
| PersonaRoute.ParsedGivesNormalized | src/app/api/persona/route.ts:154-205 | output that parses after cleaning is answered with its normalised form |
| PersonaRoute.FailureIs500 | src/app/api/persona/route.ts:224-231 | a generator failure is answered with 500 and its details, and nothing is stored |
| PersonaRoute.DemoWithoutKey | src/app/api/persona/route.ts:24-84 | without a key the demo persona marked `_demo: true` is answered with 200, and nothing is generated |
| PersonaRoute.UnconvertibleInputUnhandled | src/app/api/persona/route.ts:86-135 | with a key, a videoUrl (or, without one, a text) whose `String()` throws escapes the handler before anything is generated or stored |
| PersonaRoute.UnconvertiblePreviewUnhandled | src/app/api/persona/route.ts:58-66 | without a key, a text array longer than 160 whose first 160 elements `String()` cannot convert escapes the handler |
| GrowthRoute.Channel | src/app/api/growth-strategist/route.ts:7-22 | the channel is truthy, and is the requested one or the placeholder |
| GrowthRoute.ChannelFallback | src/app/api/growth-strategist/route.ts:7-22 | a truthy channelUrl is used as given; anything else, including an unreadable body, gives "unknown-channel" |
| GrowthRoute.BraceSpan | src/app/api/growth-strategist/route.ts:123-133 | a span exists exactly when both braces occur with the last "}" after the first "{", and it runs from the one to the other |
| GrowthRoute.BraceSpanAt | src/app/api/growth-strategist/route.ts:124-127 | with a first "{" and a last "}" after it, the span is the slice from the one to the other, both included |
| GrowthRoute.BraceSpanOfEmbedded | src/app/api/growth-strategist/route.ts:124-127 | an object in prose with no "{" before it and no "}" after it is cut out exactly |
| GrowthRoute.ParsedAnsweredUnchanged | src/app/api/growth-strategist/route.ts:102-117 | output that parses is answered unchanged and stored with the channel |
| GrowthRoute.UnparsedRecovery | src/app/api/growth-strategist/route.ts:118-150 | output that does not parse is answered with 200: the recovered object when it parses to non-null, else `{ raw }` |
| GrowthRoute.EmbeddedObjectRecovered | src/app/api/growth-strategist/route.ts:122-136 | JSON wrapped in prose is recovered when the span between its braces parses |
| GrowthRoute.DemoWithoutKey | src/app/api/growth-strategist/route.ts:24-84 | without a key the demo strategy is answered and stored with the channel |
| GrowthRoute.FailureIs500 | src/app/api/growth-strategist/route.ts:152-158 | a generator failure is answered with 500 and its details, and nothing is stored |
| GrowthRoute.EveryAnswerStored | src/app/api/growth-strategist/route.ts:87-150 | the handler escapes exactly when a key is set and the channel cannot be converted to a string; every answer has status 200 or 500, and every 200 answer is stored with the channel the prompt named and exactly the answered body |
| GrowthRoute.UnconvertibleChannelUnhandled | src/app/api/growth-strategist/route.ts:87-97 | with a key, a channelUrl that is an object with its own "toString" escapes the handler with nothing generated or stored; without a key the demo is answered |
| GrowthRoute.Handle | src/app/api/growth-strategist/route.ts:5-160 | the handler escapes exactly when a key is set and the channel cannot be converted; a prompt is sent exactly in the other keyed cases; any stored row names the channel used |
| ChatRoute.RoleOf | src/app/api/chat/route.ts:17 | a role is recognised exactly for "user", "assistant" and "system" |
| ChatRoute.Decode | src/app/api/chat/route.ts:14-18 | an entry is kept exactly when it is truthy, its content is a string and its role is recognised |
| ChatRoute.Keep | src/app/api/chat/route.ts:13-19 | the filtered list is never longer |
| ChatRoute.KeepConcat | src/app/api/chat/route.ts:13-19 | the filter distributes over concatenation, so kept messages keep their order |
| ChatRoute.KeepOne | src/app/api/chat/route.ts:14-18 | each entry is kept, as the message it stands for, exactly when it is well-formed |
| ChatRoute.KeepEncoded | src/app/api/chat/route.ts:13-19 | every message a client sends as `{ role, content }` passes the filter unchanged and in order |
| ChatRoute.DecodeToJson | src/app/api/chat/route.ts:14-18 | decoding a message's `{ role, content }` gives it back |
| ChatRoute.NonArrayGivesNoHistory | src/app/api/chat/route.ts:13-19 | a messages field that is not an array leaves no history |
| ChatRoute.LastUser | src/app/api/chat/route.ts:21 | None exactly when no kept message is the user's |
| ChatRoute.LastUserIsLast | src/app/api/chat/route.ts:21 | the content found is that of a user message after which no user message follows |
| ChatRoute.DemoReply | src/app/api/chat/route.ts:25-28 | a non-blank last user message is quoted trimmed; otherwise the greeting |
| ChatRoute.HistoryLine | src/app/api/chat/route.ts:34-37 | a transcript line ends with the message content |
| ChatRoute.HistoryEmptyIff | src/app/api/chat/route.ts:33-50 | the transcript is empty exactly when no message was kept |
| ChatRoute.TranscriptLines | src/app/api/chat/route.ts:33-39 | a transcript of single-line messages splits back into one line per message, in order |
| ChatRoute.HistoryOfOne | src/app/api/chat/route.ts:34-37 | a one-message transcript is "Speaker: content" |
| ChatRoute.HistorySnoc | src/app/api/chat/route.ts:33-39 | one more message adds its line after a line break |
| ChatRoute.TranscriptOfHistory | src/app/api/chat/route.ts:33-50 | the prompt embeds "(no prior messages)" exactly when no message was kept, and the non-empty transcript otherwise |
| ChatRoute.Handle | src/app/api/chat/route.ts:9-74 | the handler escapes only on a null body; every answer has status 200, 500 or 502, and 200 without a key |
| ChatRoute.ReplyTrimmedOr502 | src/app/api/chat/route.ts:54-65 | a blank generated reply is answered with 502, any other with its trimmed text |
| ChatRoute.FailureIs500 | src/app/api/chat/route.ts:66-72 | a generator failure is answered with 500 and its details |
| ChatRoute.DemoWithoutKey | src/app/api/chat/route.ts:10-31 | without a key, for any body but null (an unreadable one counts as `{}`), the canned reply for the last user message is answered, marked `demo: true` |
| SidebarNav.NavItemsShape | src/app/sidebar-nav.tsx:8-16 | six links; the first five lead into the dashboard with distinct tabs, the sixth is the library |
| SidebarNav.DashboardLinksNeedDashboard | src/app/sidebar-nav.tsx:26-32 | a dashboard link is highlighted only on /dashboard |
| SidebarNav.ActiveRule | src/app/sidebar-nav.tsx:21-33 | Dashboard exactly on /dashboard without a tab, a tab link exactly on /dashboard with its tab, Library exactly on /library |
| SidebarNav.IsActive | src/app/sidebar-nav.tsx:21-33 | a link is highlighted only on /dashboard or on its own page, and a dashboard tab link only when its tab is the current one |
| SidebarNav.AtMostOneActive | src/app/sidebar-nav.tsx:25-33 | at most one link is highlighted, whatever the page and tab |
| SidebarNav.UnknownTabHighlightsNothing | src/app/sidebar-nav.tsx:29-32 | a tab no link opens highlights nothing on the dashboard |
| SidebarNav.KnownTabHighlightsItsLink | src/app/sidebar-nav.tsx:29-32 | on the dashboard, no tab or a known tab highlights exactly its own link |
| DashboardFetch.FailureText | src/genz/components/Dashboard.tsx:489-496 | without error and details the message is the fallback; a given error (else the fallback) starts it in its `String()` form; without truthy details it is exactly that; truthy details end it after the separator |
| DashboardChat.TidyIffTrimmed | src/genz/components/Dashboard.tsx:499-500 | a shown content is tidy exactly when it is non-empty and `trim()` leaves it alone |
| DashboardChat.Settle | src/genz/components/Dashboard.tsx:489-512 | a send is answered exactly when the response is ok with a non-null body whose reply is a string or nullish, and the reply shown is tidy |
| DashboardChat.SettleReply | src/genz/components/Dashboard.tsx:499-500 | a missing reply or a blank one gives the fixed fallback, and any other string reply is shown trimmed |
| DashboardChat.RouteSeesWhatWasSent | src/genz/components/Dashboard.tsx:466-486 | every message the panel posts passes the chat route's filter in order, and the route's last user message is the one just typed |
| DashboardChat.AssistantChat.constructor | src/genz/components/Dashboard.tsx:64-74 | the panel starts with the welcome message, an empty input and no error |
| DashboardChat.AssistantChat.Type | src/genz/components/Dashboard.tsx:460 | typing changes only the input |
| DashboardChat.AssistantChat.BeginSend | src/genz/components/Dashboard.tsx:461-487 | a blank input or a send in flight changes nothing; otherwise the trimmed input is appended as "user-<now>", the input and error are cleared, sending starts, and the whole list is posted; the panel stays valid |
| DashboardChat.AssistantChat.FinishSend | src/genz/components/Dashboard.tsx:489-515 | an answer is appended as "assistant-<now>", and a failure sets the error message; sending stops and the panel stays valid |
| DashboardChat.SendRound | src/genz/components/Dashboard.tsx:461-517 | one round adds the user message and then the reply or the error, and leaves the panel idle |
| DashboardPersona.Merged | src/genz/components/Dashboard.tsx:854-874 | the merged persona is an object whose every field is the one the merge rule gives |
| DashboardPersona.MergeReplacesOnlyRequestedList | src/genz/components/Dashboard.tsx:857-862 | only the requested list is replaced, and only by an array; the other list keeps its value |
| DashboardPersona.MergeOverwritesDefinedScalars | src/genz/components/Dashboard.tsx:865-871 | a scalar field is overwritten exactly when the answer defines it, null included |
| DashboardPersona.MergeKeepsOtherFields | src/genz/components/Dashboard.tsx:855 | every other field of the persona is kept, and no other field of the answer is taken over |
| DashboardPersona.MergeOfObjectPersona | src/genz/components/Dashboard.tsx:855-874 | an object persona keeps every field, with its value unless the merge may overwrite it |
| DashboardPersona.MergeInto | src/genz/components/Dashboard.tsx:854-874 | the field-by-field updater computes the merged persona |
| DashboardPersona.SettleMore | src/genz/components/Dashboard.tsx:844-852 | a merge happens exactly for an ok response with a non-null body, which it merges; a null body makes the render throw; a failed object body without error or details gives the fixed message |
| DashboardPersona.InputError | src/genz/components/Dashboard.tsx:820-830 | no error exactly when the input of the current mode is not blank |
| DashboardPersona.PersonaPanel.constructor | src/genz/components/Dashboard.tsx:790-802 | the panel starts in video mode with empty inputs and no persona |
| DashboardPersona.PersonaPanel.BeginGenerateMore | src/genz/components/Dashboard.tsx:816-842 | the error is cleared or set by the input guard; only with valid input does loading start and a request go out |
| DashboardPersona.PersonaPanel.FinishGenerateMore | src/genz/components/Dashboard.tsx:844-881 | an answer is merged into the persona, a failure sets the error, and a null answer throws in render; loading stops |
| DashboardPersonaView.NonEmptyList | src/genz/components/Dashboard.tsx:970 | a list is found exactly when the persona holds a non-empty array under that key |
| DashboardPersonaView.ScriptIdeasSource | src/genz/components/Dashboard.tsx:969-976 | the persona's non-empty scriptIdeas array is shown as it is, else the defaults; never empty |
| DashboardPersonaView.CaptionOf | src/genz/components/Dashboard.tsx:979-992 | only a null entry fails to give a caption |
| DashboardPersonaView.StringCaption | src/genz/components/Dashboard.tsx:981-983 | a string caption keeps its text with score 95 |
| DashboardPersonaView.ObjectCaption | src/genz/components/Dashboard.tsx:984-991 | an object keeps a string text, else ""; its score is a numeric match, else a numeric score, else 95 |
| DashboardPersonaView.CaptionRoundTrip | src/genz/components/Dashboard.tsx:984-991 | a caption written as `{ text, match }` reads back as itself |
| DashboardPersonaView.CaptionSuggestions | src/genz/components/Dashboard.tsx:978-998 | the shown captions are never empty |
| DashboardPersonaView.CaptionSuggestionsSource | src/genz/components/Dashboard.tsx:978-998 | captions come entry by entry from the persona's non-empty list, else the defaults; only a null entry stops the render |
| DashboardNetwork.SentDraft | src/genz/components/Dashboard.tsx:1992-1998 | the draft names the selected creator and holds the text |
| DashboardNetwork.CreatorNetworkPanel.constructor | src/genz/components/Dashboard.tsx:1978-1981 | the panel starts with no message, no selection and the modal closed |
| DashboardNetwork.CreatorNetworkPanel.Compose | src/genz/components/Dashboard.tsx:2119-2120 | the creator is selected and the modal opened |
| DashboardNetwork.CreatorNetworkPanel.Type | src/genz/components/Dashboard.tsx:2236 | typing changes only the message |
| DashboardNetwork.CreatorNetworkPanel.SendMessage | src/genz/components/Dashboard.tsx:1983-2026 | a blank message or no selection changes nothing; otherwise the trimmed text is appended to the history as a sent creator-network message to the selected creator, and the panel is reset |
| DashboardNetwork.SentMessageReachesLibrary | src/genz/components/Dashboard.tsx:1992-1998 | the recorded message is well-formed and carries the fixed role, direction and source; with working storage it is the last record the Library loads |
| DashboardNetwork.CreatorNetworkPanel.Deliver | src/genz/components/Dashboard.tsx:1990-2025 | once the guard has passed, the history gains exactly the sent message and the panel is reset |
| DashboardNetwork.CreatorNetworkPanel.ReplyArrives | src/genz/components/Dashboard.tsx:2002-2017 | the timer callback appends the creator's fixed "received" answer to the history and leaves the panel alone |
| DashboardNetwork.ConversationReachesLibrary | src/genz/components/Dashboard.tsx:1992-2017 | after a send and its simulated answer, with working storage, the history ends with the sent message and then the answer, both addressed to the selected creator |

## Left out

- Lengths are counted in characters, but JavaScript counts UTF-16 code units. The two agree only inside the Basic Multilingual Plane, which matters for the 160-character preview.
- The prompts' wording is not modelled, only which prompt is sent and what it embeds.
- Generator calls, Supabase inserts, `console` output and toasts are left out. Generator calls are a parameter; inserts are modelled as the row handed over.
- The mirror insert of `syncMessageToSupabase` (`messageLibrary.ts:111-138`) is not modelled: it runs detached and swallows its failure, so it never reaches the caller or the local slot.
- `localStorage` text is represented by what `JSON.parse` makes of it. A save stores a value that parses back to itself, so the round trip of `JSON.stringify` and `JSON.parse` is assumed rather than modelled.
- The 400 ms timer of the creator-network panel is not modelled: its callback is the method `ReplyArrives`, and when it runs relative to other events is left to the caller.
- `handleAnalyzePersona` (`Dashboard.tsx:922-967`), the recent-personas effect and everything rendered are not modelled. They are fetch plumbing and layout.
- The sponsor-match and health routes and the other components are not part of this model.
- PersonaRoute.SourceTextPreview: a `textInput` object with a `length` property comparing above 160 has no callable `slice`, so the source throws there. The model keeps such an object as given, because comparing an arbitrary JSON value with 160 is not modelled. Strings and arrays are modelled.
- `String()` of a JSON number is its text as written in the value.
- `String()` is modelled for JSON values only (`ToStr`, `StringThrows`). An object gives "[object Object]" unless it has its own "toString", which makes the conversion throw. Every TypeError the engine throws carries the one message `engineMessage`, whatever its cause.
- The default caption list keeps the first caption's emoji as the mis-decoded characters the file spells it with. The demo persona of the route carries the proper emoji.
- DashboardPersona.PersonaPanel.FinishGenerateMore: a null answer makes React's state updater throw during render. The model leaves the state as it was and reports it as `threw` instead of modelling the crash.
- MessageLibrary.MessageStore.AppendMessage: requires that the id it is issued is not already in use. `crypto.randomUUID()` makes a collision negligible but not impossible.
