# kino writing assistant: the locked/active text session in Dafny

The assistant is a single page script (`script.js`). The user types into a
text area. After a pause, the part of the document that is not yet locked
(the *active text*) is meant to be sent to a completion service, with the
answer streaming into one suggestion element. As written, building that
request throws, so nothing is sent (see Findings); the model covers both
the code as written and the evident intent. Accepting the suggestion
merges it into the *locked text*, the part of the document treated as
final context. An edit that leaves the cursor at or before the lock's end,
and the document different from the lock, cuts the lock back to the start
of the paragraph holding the cursor. A quick action locks the whole
document and streams a rewrite of it. Every completed call is logged,
newest first.

This project models that session logic and proves what it promises:

- `text.dfy` (module `Text`): the JavaScript string operations the script
  relies on. These are `trim` with the full ECMAScript whitespace set,
  clamped `substring`, `lastIndexOf`/`indexOf` of the paragraph separator
  `"\n\n"`, and `split`/`join` on it.
- `lock.dfy` (module `Lock`): the expression-only rules. They cover where an
  edit moves the lock boundary, what the active text is and when no request
  is made, how an accepted suggestion merges into the lock, and which
  paragraphs the locked view shows.
- `stream.dfy` (module `Stream`): the frame handling inside
  `streamToElement`. Each chunk is split on separators, `data: ` lines are
  decoded, `[DONE]` is skipped, deltas grow the response and a usage report
  is recorded. This is a fold over lines (`Feed`), related to the events the
  lines yield and to reading chunk by chunk.
- `session.dfy` (module `Session`): the session state (text area, lock,
  locked view, suggestion element, debounce timer, abort controller, current
  call, call log). Every event is a function from state to state. The class
  `Session` keeps the same state in fields. Its handlers update those fields
  in place, and each is proved against its function and to keep the
  invariant `Inv`.
- `runs.dfy` (module `Runs`): what runs of events do. It covers aborted
  requests, reading a body chunk by chunk, a request from start to end, the
  log, and what accept can lock.

The abort controller is modelled as a generation counter. A request carries
the generation it was issued under. Every operation that swaps the
controller moves to a new generation. An aborted fetch or read rejects with
an `AbortError`, which the script ignores, so an event of another generation
changes nothing.

In these places the code behaves in ways a reader might not expect; the
model follows the code:

- Accept refuses only a blank suggestion (script.js:72), so the loading
  marker `...` can be accepted.
- A rewrite locks the suggestion trimmed, not verbatim (script.js:89).
- An append locks `lock + "\n\n" + suggestion` trimmed as a whole.
- When the merged text starts with whitespace, the trimmed lock is not a
  prefix of the new document. The active text then starts inside the
  locked text (`Lock.LeadingSpaceShiftsActiveText`).
- The edit rule (script.js:100) looks at where the cursor ends up, not at
  where the edit happened. Selecting the whole document "abc" (equal to the
  lock) and pasting "xyzw" leaves the cursor at 4, past the lock's end, so
  the lock "abc" stays although the document no longer starts with it. The
  next continuation sends that lock with the active text "w"
  (`Lock.PasteOverLockKeepsIt`).

## Model

| member | source | states |
|---|---|---|
| Text.Trim | script.js:89 | `trim`: the result starts and ends with no whitespace, is no longer than the input, and is empty exactly when the input is all whitespace |
| Text.TrimIsSlice | script.js:89 | `trim` keeps a middle slice of the input and removes only whitespace before and after it |
| Text.TrimIdempotent | script.js:104 | trimming twice is trimming once |
| Text.LastIndexOfSep | script.js:102 | `lastIndexOf("\n\n")` is -1 or the start of a separator, and no separator starts after it |
| Text.IndexOfSep | script.js:188 | `indexOf("\n\n")` is -1 or the start of a separator, and no separator starts before it |
| Text.Split | script.js:188 | `split("\n\n")` yields at least one piece; no piece holds a separator and no piece but the last ends with a line feed |
| Text.JoinSplit | script.js:188 | splitting loses nothing: joining the pieces with the separator gives back the string |
| Text.SplitJoin | script.js:188 | splitting the join of pieces without separators gives back the pieces |
| Text.SplitAround | script.js:220 | splitting `a + "\n\n" + b` is splitting `a` and `b` apart, when `a` does not end with a line feed |
| Lock.ParagraphStart | script.js:101-103 | the paragraph start is 0 or just after a separator, and no separator lies after it in the text before the cursor |
| Lock.TruncatedLock | script.js:101-104 | the cut-back lock is trimmed and no longer than the cursor, and it is empty when no separator precedes the cursor |
| Lock.EditedLock | script.js:99-105 | the lock survives an edit after its end or one leaving the document equal to it; otherwise it is cut back to a trimmed string no longer than the cursor; an edit never lengthens the lock |
| Lock.TruncationAtParagraphStart | script.js:101-104 | independent description: for any `p` that is 0 or just after a separator, with no separator between `p` and the cursor, the cut-back lock is `trim(doc[0..p))` |
| Lock.EditWithoutSeparatorEmptiesLock | script.js:100-104 | an edit inside the lock with no separator before the cursor empties the lock |
| Lock.TruncatedLockIsAlignedPrefix | script.js:101-104 | for a document not starting with whitespace, the cut-back lock is a prefix of it followed only by whitespace up to the cursor's paragraph |
| Lock.PasteOverLockKeepsIt | script.js:100 | replacing the document "abc" (the lock) by "xyzw" with the cursor at its end keeps the lock "abc", which the document no longer starts with, and leaves "w" as the active text |
| Lock.EditIdempotent | script.js:99-105 | re-applying the edit rule to its own result with the same document and cursor changes nothing |
| Lock.EditAfterFirstParagraph | script.js:100-104 | an edit inside the second paragraph cuts the lock back to the first paragraph |
| Lock.EditInsideSecondParagraph | script.js:100-104 | lock `"Para one.\n\nPara two."` edited inside the second paragraph becomes `"Para one."` |
| Lock.ActiveText | script.js:114 | no contract of its own: `Lock.ActiveTextShape` and `Lock.ActiveTextAfterLock` state what the active text is |
| Lock.ActiveTextShape | script.js:114 | the active text is trimmed, lies past the lock's length, and is empty exactly when only whitespace follows the lock's length |
| Lock.ActiveTextAfterLock | script.js:114 | when the lock is a prefix of the document, the active text is the rest, trimmed |
| Lock.Suppressed | script.js:117 | no contract of its own: `Lock.SuppressedIff` states when no request is made |
| Lock.SuppressedIff | script.js:117 | no request is made exactly when the lock is non-empty and only whitespace follows it; an empty lock always sends |
| Lock.MergedText | script.js:81-86 | no contract of its own: `Session.AcceptOutcome`, `Lock.AcceptRewriteReplaces`, `Lock.AcceptAppendGrows` and `Lock.AcceptAppendToEmpty` state what the merge yields |
| Lock.AcceptedLock | script.js:89 | no contract of its own: `Lock.AcceptedLockShape`, `Lock.AcceptRewriteReplaces`, `Lock.AcceptAppendGrows`, `Lock.AcceptAppendToEmpty` and `Lock.AcceptAppendTrimmed` state what is locked |
| Lock.AcceptedLockShape | script.js:81-89 | the lock after an accept is trimmed, and non-empty when the suggestion was not blank |
| Lock.AcceptRewriteReplaces | script.js:81-89 | a rewrite locks the suggestion trimmed; the old lock has no influence |
| Lock.AcceptAppendGrows | script.js:84-89 | an append keeps a trimmed non-empty lock in front, then one separator, then the suggestion without trailing whitespace |
| Lock.AcceptAppendToEmpty | script.js:85-89 | an append to an empty lock locks the suggestion alone, trimmed |
| Lock.AcceptAppendTrimmed | script.js:85-89 | appending trimmed text to a trimmed lock joins the two with one separator |
| Lock.AcceptAppendExample | script.js:84-89 | lock `"A."` with appended `"B."` becomes `"A.\n\nB."` |
| Lock.AcceptRewriteExample | script.js:82-89 | lock `"A. B. C."` with rewrite `"X."` becomes `"X."` |
| Lock.AcceptLeavesNothingActive | script.js:88-89 | after an accept of text not starting with whitespace, the active text is empty |
| Lock.LeadingSpaceShiftsActiveText | script.js:88-89 | accepting `" Hi"` locks `"Hi"`, and the active text is then `"i"`, not empty |
| Lock.NonBlank | script.js:221-222 | a piece is kept exactly when it is not all whitespace, and no pieces are added |
| Lock.NonBlankAppend | script.js:221-222 | filtering distributes over concatenation |
| Lock.Paragraphs | script.js:220-222 | no contract of its own: `Lock.ParagraphsShape`, `Lock.SingleParagraph` and `Lock.AcceptAppendKeepsParagraphs` state what the view shows |
| Lock.ParagraphsShape | script.js:220-222 | every rendered paragraph has some text and no separator |
| Lock.SingleParagraph | script.js:220-222 | a lock without separators renders as itself, or as nothing when blank |
| Lock.AcceptAppendKeepsParagraphs | script.js:89-90 | after an append accept, the rendered paragraphs are the old ones followed by those of the suggestion |
| Stream.EventOf | script.js:191-203 | a line yields an event only when it starts with `data: ` and is not `[DONE]`; a yielded delta is non-empty |
| Stream.EventFromFrame | script.js:194-203 | every event comes from its line's frame: a text delta is the content the frame decodes to, a usage report the usage it decodes to |
| Stream.Events | script.js:190-207 | a line yields at most one event |
| Stream.EventsAppend | script.js:190-207 | the events of consecutive lines are the events of each, in order |
| Stream.TextOfAppend | script.js:201 | the response of consecutive events is the concatenation of their tokens |
| Stream.LastUsageAppend | script.js:196-197 | the usage after consecutive events is the usage of the later ones, starting from the earlier ones' |
| Stream.LastUsageWithoutReport | script.js:196-197 | without a usage report, the recorded usage stays as it was |
| Stream.LastUsageIsLastReport | script.js:196-197 | with a usage report, the recorded usage is that of a report after which no other report follows |
| Stream.Feed | script.js:190-207 | no contract of its own: `Stream.FeedIsEvents`, `Stream.FeedAppend` and `Stream.ChunksAreLines` state what the read loop accumulates |
| Stream.FeedIsEvents | script.js:190-207 | the read loop's accumulator grows by the tokens of the lines' events in order and records the last usage reported |
| Stream.FeedAppend | script.js:190-207 | feeding two runs of lines one after the other is feeding their concatenation |
| Stream.Lines | script.js:184-188 | every chunk contributes at least one line |
| Stream.ChunksAreLines | script.js:184-207 | reading chunk by chunk is feeding all their lines at once |
| Stream.DataLine | script.js:191-192 | a `data: ` line starts with the prefix, and the text after the prefix is exactly the frame's data |
| Stream.DoneYieldsNothing | script.js:193 | the `[DONE]` line yields nothing, whatever the decoder |
| Stream.UnusableLineYieldsNothing | script.js:194-205 | a `data: ` frame that fails to decode, or decodes to a delta without content, yields nothing |
| Stream.DeltaLine | script.js:199-203 | a `data: ` line decoded to non-empty content yields that token |
| Stream.UsageLine | script.js:196-197 | a `data: ` line decoded to a usage report yields that report |
| Stream.StreamingExample | script.js:184-207 | a chunk with the deltas "Hel" and "lo", a usage report and `[DONE]` yields the response "Hello" with that usage |
| Stream.FrameSplitAcrossChunksIsLost | script.js:187-191 | a frame cut between two chunks contributes nothing, while the same frame in one chunk contributes its token |
| Session.RewritingText | script.js:158 | the quick-action placeholder quotes the action |
| Session.AfterEdit | script.js:98-110 | no contract of its own: `Session.EditKeepsInv`, `Runs.EditOrphansRequest` and `Lock.EditedLock` state what an edit does |
| Session.AfterFire | script.js:112-133 | no contract of its own: `Session.FireOutcome`, `Session.FireKeepsInv` and `Runs.FiredRequestIsLogged` state what the timer does |
| Session.AfterFireAsWritten | script.js:112-132 | no contract of its own: `Runs.FireAsWrittenStalls` and `Runs.FireAsWrittenExample` state what the timer does as written |
| Session.AfterAccept | script.js:70-96 | no contract of its own: `Session.AcceptIgnored`, `Session.AcceptOutcome`, `Session.AcceptKeepsInv` and `Runs.AcceptOrphansRequest` state what an accept does |
| Session.AfterQuickAction | script.js:135-161 | no contract of its own: `Session.QuickActionOutcome`, `Session.QuickActionKeepsInv` and `Runs.QuickActionOrphansRequest` state what a quick action does |
| Session.AfterResponse | script.js:169-180 | no contract of its own: `Runs.DeliverKeepsInv`, `Runs.StreamLeavesDocument`, `Runs.RejectedResponseIsNeverLogged` and `Runs.ExchangeIsLogged` state what a response does |
| Session.AfterChunk | script.js:184-207 | no contract of its own: `Runs.ReadingChunks` and `Runs.ReadingAccumulates` state what a chunk does |
| Session.AfterEnd | script.js:209 | no contract of its own: `Runs.AtMostOneLogEntry` and `Runs.ExchangeIsLogged` state what the end of a body does |
| Session.AfterFailure | script.js:210-215 | no contract of its own: `Runs.FailedRequestIsNeverLogged` and `Runs.StaleDeliveriesChangeNothing` state what a failure does |
| Session.Session.constructor | script.js:18-22 | the session starts with the initial state: empty text, lock and log, no suggestion, no timer, no call |
| Session.Session.OnEdit | script.js:98-110 | the fields become the state after an edit: lock moved by the edit rule, new generation, no call, timer armed; the invariant holds |
| Session.Session.OnDebounceFire | script.js:112-133 | the fields become the state after the timer and the request sent is the one the timer sends; the invariant holds |
| Session.Session.OnAccept | script.js:70-96 | the fields become the state after an accept; the invariant holds |
| Session.Session.OnQuickAction | script.js:135-161 | the fields become the state after a quick action and the request sent is the quick action's; the invariant holds |
| Session.Session.OnResponse | script.js:169-180 | the fields become the state after the response arrives; the invariant holds |
| Session.Session.OnChunk | script.js:184-207 | the loop over a chunk's lines leaves the fields as the fold over those lines describes; the invariant holds |
| Session.Session.OnStreamEnd | script.js:231-234 | the fields become the state after the end of the body: the call is logged in front, and the call is over |
| Session.Session.OnFailure | script.js:210-215 | the fields become the state after a failure that is not an abort; the invariant holds |
| Session.EditKeepsInv | script.js:98-110 | an edit keeps the invariant |
| Session.FireOutcome | script.js:112-133 | a continuation is sent exactly when the lock is empty or non-whitespace text follows it; it goes out under the current generation, carrying the lock and the active text, and is announced by "..."; otherwise the suggestion is gone and the call is as before; the document, lock, generation and log never change |
| Session.FireKeepsInv | script.js:112-133 | the timer keeps the invariant |
| Session.AcceptIgnored | script.js:72 | accept with no suggestion or a blank one changes nothing |
| Session.AcceptOutcome | script.js:77-95 | after an accept the document ends with the suggestion's text and a separator, with the cursor at its end, and an append keeps the old lock at its start; the new lock is trimmed and non-empty and is what the view shows; suggestion, timer and call are gone under a newer generation; the log is untouched |
| Session.AcceptKeepsInv | script.js:70-96 | accept keeps the invariant |
| Session.QuickActionOutcome | script.js:135-161 | a blank document changes nothing and sends nothing; otherwise the document stays, its trimmed text becomes a non-empty lock, a `rewrite` suggestion showing the placeholder that quotes the action is shown, and the request carrying the whole document and the action goes out under the newer generation the state moves to |
| Session.QuickActionKeepsInv | script.js:135-161 | a quick action keeps the invariant |
| Runs.DeliverKeepsInv | script.js:163-216 | a network event keeps the invariant |
| Runs.DeliverAllKeepsInv | script.js:163-216 | any run of network events keeps the invariant |
| Runs.StreamLeavesDocument | script.js:163-216 | network events never change the document, the lock, the locked view, the timer or the generation |
| Runs.StaleDeliveriesChangeNothing | script.js:210-215 | events of an aborted request change nothing |
| Runs.IdleIgnoresDeliveries | script.js:209-215 | once a call has ended, failed or been aborted, nothing it delivers later counts |
| Runs.AtMostOneLogEntry | script.js:231-234 | between user events at most one call is logged, in front of the log, and the rest of the log is unchanged |
| Runs.RejectedResponseIsNeverLogged | script.js:176-180 | a response that is not ok, has no body or has an undecodable header shows the error text, and that call is never logged |
| Runs.FailedRequestIsNeverLogged | script.js:210-215 | a failure other than an abort shows the error text, and that call is never logged |
| Runs.ReadingChunks | script.js:184-208 | the current body's chunks, delivered in order, leave the state the read loop's accumulator over all of them describes |
| Runs.ReadingAccumulates | script.js:184-208 | after the chunks, the response has grown by the tokens of all their events in order, the usage is the last reported, the element shows the response once it has grown, and the log is unchanged |
| Runs.ExchangeIsLogged | script.js:163-216 | a successful exchange, whatever system-prompt header it carries as long as it decodes, logs one entry, in front: the call data with the system prompt ("N/A" for an absent or empty header, the header URL-decoded otherwise) and the last usage, and the full response as output; the call is over |
| Runs.FiredRequestIsLogged | script.js:112-133 | a continuation the timer sends, answered successfully with any decodable system-prompt header, is logged with its payload (lock and active text), its model and that system prompt |
| Runs.EditOrphansRequest | script.js:106-107 | a continuation superseded by an edit is never heard from again, even after the next timer sends another |
| Runs.QuickActionOrphansRequest | script.js:147-148 | a quick action aborts the current request: its events change nothing |
| Runs.AcceptOrphansRequest | script.js:77-78 | an accept aborts the current request: its events change nothing |
| Runs.FireAsWrittenStalls | script.js:132 | as written, a timer that should send leaves "..." in the element with no call current, and no network event ever replaces it |
| Runs.FireAsWrittenExample | script.js:132 | typing "Hi" into the empty page: as written the element shows "..." and nothing is sent; corrected, the lock "" and the active text "Hi" are sent under generation 1 |
| Runs.LoadingMarkerCanBeLocked | script.js:72 | accepting right after the timer appends the loading marker "..." to the lock |
| Runs.ErrorTextCanBeLocked | script.js:213 | accepting after a failed continuation appends the error text to the lock |
| Runs.PlaceholderCanBeLocked | script.js:158 | accepting while a quick action is pending replaces the whole document by its placeholder |

## Left out

- The DOM and presentation are not modelled: element lookup and classes, the mobile and desktop setup, the tap animation, focus, the instruction text, the dropdown, the log modal and `renderLog`. The suggestion element is an optional (tag, text) pair. The locked view is the list of rendered paragraph strings.
- `setTimeout` is a flag (`timerArmed`). The timer firing is the `OnDebounceFire` event, which can happen only while the flag is set. The debounce delay is not modelled.
- `fetch` and the response body are events the caller delivers (`Delivery`). The request body is returned as a `Request`. `JSON.stringify` of the payload and the service URL are not modelled.
- `TextDecoder` is not modelled: chunks arrive as decoded strings. A multi-byte character cut across two reads is not modelled.
- `JSON.parse` and the field accesses after it are the parameter `decode`. `decodeURIComponent` is the parameter `decodeUri`.
- `new Date()` is the parameter `now`. The model switch is the parameter `large`.
- `alert` for a blank quick action, `console.error`, the error's status text, `downloadLog` and the modal are I/O and are not modelled. The state changes around them are modelled.
- The quick-action guards on the clicked element (its tag name) and `dataset.action` are not modelled. The action is a given string; an `undefined` action would be shown as the text "undefined".
- Concurrency is not modelled beyond the generation counter. Events are applied one at a time, in the order the caller gives.
- Lock.EditedLock, Lock.ActiveText and Session.Session.OnEdit: lengths, offsets and the cursor count Dafny characters (Unicode scalar values), while JavaScript's `length`, `selectionStart` and `substring` count UTF-16 code units. The two differ for characters outside the Basic Multilingual Plane: for the document "\U{1F600}x" with lock "ab" and the cursor after "x", the model's cursor is 2, so the edit rule cuts the lock back to "", while the page's cursor is 3 > 2, and the lock "ab" stays.
- Session.Session.OnDebounceFire: models the timer with the payload the code evidently intends (see Findings); the as-written behaviour is `Session.AfterFireAsWritten`.

## Findings

| source | as written | input that shows it | evidently intended | confidence | as-written member | corrected member |
|---|---|---|---|---|---|---|
| script.js:132 | the continuation payload names `lockedText`, which is declared nowhere in the file (the state is `lockedTextState`), so building it throws a ReferenceError before `fetch` | type "Hi" into the empty page and let the timer fire: the element shows "..." forever and no request is sent | send `{ lockedText: lockedTextState, activeText }` and stream the answer into the element | not executed; holds unless the page defines a global named `lockedText` (such as an element with that id), and the page's HTML is not part of this model | Runs.FireAsWrittenStalls | Runs.FiredRequestIsLogged |
