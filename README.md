# Cortex chat client — a verified model of its core

Cortex is a single-screen chat client for a hosted language model. This project models the logic
behind the screen:

- the submission of one turn: the guard, the user message, and the instruction sent for
  attachment-only turns;
- the stream loop that folds the response fragments into the answer message, deduplicates the web
  citations by URI, and honours the stop request;
- finishing the answer, or the single error message;
- saving, creating and loading sessions;
- turning a picked file into an attachment, and removing attachments;
- the service wrapper that replays a transcript as history, derives the chat configuration from
  the model table, and builds one turn's parts;
- the model table and the record types.

Each part is a Dafny module:

| module | file | what it holds |
|---|---|---|
| `Types` | types.dfy | roles, attachments, messages, sessions, model ids and configurations |
| `Seqs` | seqs.dfy | `filter`, `map`, `find` and `findIndex` of arrays, with their laws |
| `Text` | text.dfy | `trim`, `startsWith`, `endsWith`, `slice(0, n)` and `split` for the strings the client uses |
| `ModelSelector` | model_selector.dfy | the table of the three model variants |
| `Gemini` | gemini.dfy | `GeminiService`: history replay, chat configuration, re-initialisation, turn parts |
| `Attachments` | attachments.dfy | media-type and file-name dispatch, data-URL payload, removal by id |
| `Sessions` | sessions.dfy | session title, and the insert-or-replace of a saved session |
| `Streaming` | streaming.dfy | the stream accumulator, citation merging, and the per-fragment and final updates |
| `App` | app.dfy | the screen state (`ChatApp`) and its handlers; the transcript an accepted turn produces |

The screen's state is a class, `App.ChatApp`. It holds:

- the saved sessions and the current session id;
- the selected model variant;
- the transcript;
- the input text and the pending attachments;
- the in-flight flag and the stop flag;
- the service object, `Gemini.GeminiService`, whose own fields are the current remote chat and the
  remote model it was made for.

Each handler is a method that changes exactly the fields it names. Each method is specified by pure
functions:

- `TurnTranscript` gives the transcript after a turn;
- `TurnChat` gives the remote chat the turn re-creates;
- `Gemini.TurnParts` gives what is sent;
- `Sessions.Upserted` gives the session list after a save.

Lemmas about those functions state what the client promises. The stream loop
(`Streaming.StreamIntoTranscript`), the loop that builds a turn's parts (`Gemini.BuildTurnParts`)
and the array copy of the insert-or-replace (`Sessions.UpsertSession`) are imperative methods.
Each is proved equal to its specification function.

The surroundings are inputs:

- the remote service's stream is a sequence of deliveries, each taking a fragment together with the
  value the stop flag had when the loop took it, and a turn's outcome says whether the stream ended
  or raised an error after those deliveries;
- clock readings and the ids made from them are a `TurnClock` record;
- the result of reading a file is a `FileRead` value;
- the durable session record is a `StoredSessions` value.

## Model

| member | source | states |
|---|---|---|
| Types.RoleNameInjective | types.ts:1-4 | the two roles are different values, `user` and `model` |
| Types.ModelIdNameInjective | types.ts:36 | the three model ids are different values, `flash`, `reasoning` and `research` |
| Seqs.Find | App.tsx:98 | `find` returns an element exactly when one satisfies the predicate, and what it returns is the first element that satisfies it |
| Seqs.Filter | services/geminiService.ts:14 | `filter`: what it keeps satisfies the predicate, and is no longer than the input |
| Seqs.FilterMembers | services/geminiService.ts:14 | `filter` keeps exactly the elements that satisfy the predicate |
| Seqs.FilterAppend | services/geminiService.ts:14 | `filter` distributes over concatenation, so the kept elements stay in order |
| Seqs.Map | services/geminiService.ts:15 | `map` keeps the length and applies the function at every index |
| Seqs.FirstIndex | App.tsx:98 | the position of the first element satisfying the predicate, or the length when there is none |
| Seqs.FindIndex | App.tsx:101 | `findIndex` is -1 exactly when nothing matches; otherwise it is a matching index with no match before it |
| Types.IsSet | services/geminiService.ts:26 | an optional flag counts only when it is present and true (definition) |
| Types.ModelIdName | App.tsx:250 | the name recorded as `modelUsed` for each model id (definition) |
| Text.Trim | App.tsx:213-215 | `trim`: the leading and then the trailing white space removed (definition; see the lemmas below) |
| Text.TrimStart | App.tsx:215 | the leading white space removed: a suffix of the input |
| Text.TrimEnd | App.tsx:215 | the trailing white space removed: a prefix of the input |
| Text.TrimStartSpec | App.tsx:213-215 | leading trim drops only whitespace or line terminators, and what it keeps does not start with one |
| Text.TrimEndSpec | App.tsx:213-215 | trailing trim drops only whitespace or line terminators, and what it keeps does not end with one |
| Text.TrimEmptyIff | App.tsx:213 | the trimmed input is empty exactly when every character is whitespace or a line terminator |
| Text.TrimIdempotent | App.tsx:215 | trimmed text neither starts nor ends with whitespace, and trimming it again changes nothing |
| Text.TrimIsInfix | App.tsx:215 | the trimmed text is a contiguous piece of the input |
| Text.SliceTo | App.tsx:98 | `slice(0, n)` has length min(length, n) and is a prefix of the string |
| Text.StartsWith | App.tsx:144 | `startsWith` (definition) |
| Text.EndsWith | App.tsx:155 | `endsWith` (definition) |
| Text.Split | App.tsx:196 | `split` with a one-character separator: at least one piece, and no piece holds the separator |
| Text.IndexOf | App.tsx:196 | the position of the first separator, or the length when there is none |
| Text.SplitAt | App.tsx:196 | splitting gives the text before the first separator, then the pieces of what follows it |
| Text.SplitHead | App.tsx:196 | the first piece of a split is the text before the first separator |
| Text.SplitJoin | App.tsx:196 | the pieces of `split` hold no separator and, joined with it, give the string back |
| Text.SecondPiece | App.tsx:196 | `split(',')[1]` is absent exactly when the string has no comma; otherwise it is the text after the first comma, up to the next comma or the end |
| ModelSelector.Models | components/ModelSelector.tsx:5-25 | the table has an entry for each of the three ids, and each entry's id is its key |
| ModelSelector.OnlyResearchIsGrounded | components/ModelSelector.tsx:18-24 | only the research variant uses web grounding |
| ModelSelector.ApiModels | components/ModelSelector.tsx:10-22 | flash and research use `gemini-2.5-flash`; reasoning uses `gemini-3-pro-preview` |
| ModelSelector.ApiModelIsNotAKey | components/ModelSelector.tsx:10-22 | two variants share a remote model exactly when neither is reasoning, so the remote model does not identify the variant |
| Gemini.DisplayName | services/geminiService.ts:28 | a template literal renders an absent name as `undefined` (definition) |
| Gemini.AttachmentText | services/geminiService.ts:28 | the tagged text of a text attachment (definition) |
| Gemini.AttachmentPart | services/geminiService.ts:26-37 | the part one attachment is encoded as (definition; see `AttachmentPartEncoding`) |
| Gemini.AttachmentParts | services/geminiService.ts:24-38 | one part per attachment, in order (definition) |
| Gemini.TextParts | services/geminiService.ts:19-21 | the text part, present only for non-empty text (definition) |
| Gemini.HistoryEntry | services/geminiService.ts:15-45 | the history entry of one message (definition; see `HistoryEntryLeadingText` and `HistoryEntryAttachments`) |
| Gemini.NotError | services/geminiService.ts:14 | a message is replayed unless it is flagged as an error (definition) |
| Gemini.FormatHistory | services/geminiService.ts:12-46 | `formatHistory`: error messages dropped, the others encoded in order (definition; see `FormatHistoryShape`) |
| Gemini.NotWelcome | services/geminiService.ts:49 | a message is kept unless its id is `welcome` (definition) |
| Gemini.WithoutWelcome | services/geminiService.ts:49 | the transcript without the greeting (definition) |
| Gemini.AttachmentPartEncoding | services/geminiService.ts:25-38 | a text attachment becomes the text part `\n[Attachment: name]\ndata\n`; any other becomes inline data with its data and media type unchanged |
| Gemini.FormatHistoryShape | services/geminiService.ts:12-46 | the history has one entry per message that is not an error, in order, each with its message's role |
| Gemini.FormatHistoryAppend | services/geminiService.ts:12-46 | replaying a concatenation gives the concatenation of the two replays |
| Gemini.FormatHistorySkipsError | services/geminiService.ts:14 | an error message contributes nothing to the history, wherever it stands |
| Gemini.HistoryEntryLeadingText | services/geminiService.ts:19-21 | an entry opens with a text part holding the content exactly when the content is non-empty |
| Gemini.HistoryEntryAttachments | services/geminiService.ts:24-39 | attachment parts follow the text part, one per attachment in order, for user messages only |
| Gemini.ToolsFor | services/geminiService.ts:55-58 | the tools hold web search exactly when the configuration uses grounding, and are absent otherwise |
| Gemini.ThinkingBudgetFor | services/geminiService.ts:62-64 | the thinking budget is 16384 exactly for the reasoning variant, and absent otherwise |
| Gemini.ChatConfigFor | services/geminiService.ts:66-73 | the system instruction, the tools and the thinking budget of a configuration (definition) |
| Gemini.NeedsReinit | services/geminiService.ts:84 | the chat is re-created when there is none or the remote model differs (definition) |
| Gemini.TurnParts | services/geminiService.ts:93-110 | the text part, when the text is non-empty, then the attachment parts (definition; see `TurnPartsAsHistory`) |
| Gemini.TableChatConfigs | services/geminiService.ts:55-73 | over the table, only research gets tools and only reasoning gets a thinking budget |
| Gemini.FlashResearchSwitchKeepsChat | services/geminiService.ts:84-87 | switching between flash and research does not re-create the chat, although the two want different configurations |
| Gemini.TurnPartsAsHistory | services/geminiService.ts:93-110 | a turn's parts are encoded exactly as a user message with that text and those attachments is replayed |
| Gemini.BuildTurnParts | services/geminiService.ts:93-110 | the push loop builds the text part when the text is non-empty, then one part per attachment in order |
| Gemini.GeminiService.constructor | services/geminiService.ts:7-9 | a new service has no chat and no current remote model |
| Gemini.GeminiService.StartChat | services/geminiService.ts:48-75 | the service records the remote model, and the chat replays the messages without the greeting, with the configuration's tools and thinking budget |
| Gemini.GeminiService.SendMessageStream | services/geminiService.ts:77-114 | the chat is re-created with empty history exactly when there is none or it was made for another remote model; otherwise it is untouched; the parts go to the resulting chat |
| Attachments.IsImageType | App.tsx:144 | an `image/` media type (definition) |
| Attachments.DataUrlPayload | App.tsx:196 | the base64 payload of a data URL: the text after its first comma (see `Text.SecondPiece`) |
| Attachments.RouteFor | App.tsx:144-180 | images and PDFs are read as data URLs; Word documents and plain text are read as text; anything else is rejected; the media type is checked before the name |
| Attachments.MakeAttachment | App.tsx:141-186 | the attachment carries the given id and the file's name; it is a text attachment exactly when the file was read as text; an unsupported type or a failed read yields an error |
| Attachments.ImageAttachment | App.tsx:144-153 | an image becomes an `image` attachment holding the base64 payload, with its media type |
| Attachments.PdfAttachment | App.tsx:144-153 | a PDF becomes a binary `file` attachment |
| Attachments.TextAttachment | App.tsx:154-176 | a Word document or plain-text file becomes a text `file` attachment; an empty media type becomes the Word type |
| Attachments.MediaTypeBeforeName | App.tsx:144-158 | an image named `x.docx` is still an image; a name that ends in `.docx` selects extraction only when the media type does not |
| Attachments.NotesTxtExample | App.tsx:154-176 | a plain-text file `notes.txt` holding `hello` becomes a text attachment holding `hello` |
| Attachments.RemoveAttachment | App.tsx:204 | `filter(a => a.id !== id)` (definition; see the lemmas below) |
| Attachments.RemoveAttachmentSpec | App.tsx:203-205 | removal keeps exactly the attachments with another id |
| Attachments.RemoveAttachmentAppend | App.tsx:203-205 | removal distributes over concatenation, so the survivors keep their order |
| Attachments.RemoveAbsentAttachment | App.tsx:203-205 | removing an id nobody has changes nothing |
| Sessions.SessionTitle | App.tsx:98 | the title is the first user message's first 30 characters, or "New Chat" when there is no user message or its content is empty |
| Sessions.SessionTitleStable | App.tsx:98 | once a user message exists, later messages never change the title |
| Sessions.GreetingOnlyTitle | App.tsx:98 | a transcript holding only the greeting is titled "New Chat" |
| Sessions.SessionIndex | App.tsx:101 | the index of the session with the id, or -1 (definition; see `Seqs.FindIndex`) |
| Sessions.Upserted | App.tsx:100-116 | the list after a save: the same id overwritten in place, or the session put in front (definition; see the lemmas below) |
| Sessions.UpsertedPositions | App.tsx:100-116 | a known id is replaced at its index and the length is kept; a new id goes to index 0 and the others shift by one; distinct ids stay distinct |
| Sessions.UpsertedTwice | App.tsx:100-116 | saving the same session twice is saving it once |
| Sessions.UpsertSession | App.tsx:100-116 | the copy-and-assign or the prepend gives the specified list |
| Streaming.Citation | App.tsx:274-276 | a chunk gives a citation if and only if it has a web reference with a non-empty URI and a non-empty title, and the citation carries that title and URI |
| Streaming.GroundingChunksOf | App.tsx:272 | the grounding chunks of the first candidate, when it has grounding metadata (definition) |
| Streaming.HasUri | App.tsx:275 | some listed source has the URI (definition) |
| Streaming.AddCitation | App.tsx:274-278 | a chunk's citation is appended unless its URI is listed (definition) |
| Streaming.MergeCitations | App.tsx:273-279 | the chunks' citations added in order (definition; see `MergeCitationsSpec`) |
| Streaming.MergeCitationsAppend | App.tsx:273-279 | merging two batches of chunks one after the other is merging their concatenation |
| Streaming.MergeCitationsSpec | App.tsx:272-279 | merging keeps the listed sources in place, adds only citations of the chunks, keeps URIs unique, and lists the URI of every citation |
| Streaming.FirstTitleWins | App.tsx:275-276 | the first citation of a URI is the one listed, title included |
| Streaming.StopIndex | App.tsx:264-265 | the loop takes deliveries up to the first one seen with the stop flag set |
| Streaming.FragmentText | App.tsx:267-269 | the text a fragment contributes; an absent or empty text contributes nothing (definition) |
| Streaming.Fragments | App.tsx:264 | the fragments of the deliveries, in order (definition) |
| Streaming.Received | App.tsx:264-265 | the fragments taken before the first stop (definition; see `StopIndex`) |
| Streaming.StreamText | App.tsx:255-269 | the concatenated text of the fragments (definition) |
| Streaming.StreamSources | App.tsx:256-280 | the citations collected fragment by fragment (definition) |
| Streaming.StreamTextAppend | App.tsx:267-269 | the text is the concatenation of the fragments' texts, with no separator |
| Streaming.HelloExample | App.tsx:267-269 | fragments `Hel` and `lo` give `Hello` |
| Streaming.NoStopReceivesAll | App.tsx:264-265 | without a stop request every fragment is taken |
| Streaming.StopIgnoresRest | App.tsx:264-265 | the fragment taken with the stop flag set, and every later one, is ignored |
| Streaming.StoppedTextIsPrefix | App.tsx:255-269 | a stopped answer's text is a prefix of the text of the whole stream |
| Streaming.StreamSourcesFlat | App.tsx:256-280 | the sources collected fragment by fragment are the merge of all chunks in one pass |
| Streaming.DuplicateUriExample | App.tsx:275-276 | two citations of one URI with different titles leave one source with the first title |
| Streaming.StreamSourcesUnique | App.tsx:272-279 | the collected sources have unique URIs and cover every citation's URI |
| Streaming.WithStreamed | App.tsx:282-288 | the per-fragment update rewrites only the message with the response id, with the text and the sources so far; the length, ids and every other message are kept |
| Streaming.WithStreamedOverwrites | App.tsx:282-288 | a later per-fragment update overrides an earlier one completely |
| Streaming.WithFinished | App.tsx:294-300 | the final update sets only that message's streaming flag to false and its latency; the others are kept |
| Streaming.Streamed | App.tsx:264-289 | the transcript after the per-fragment updates of the received fragments (definition) |
| Streaming.StreamedMessage | App.tsx:282-288 | the answer after the stream: the received text and sources, or unchanged when nothing was received (definition) |
| Streaming.StreamedLast | App.tsx:282-288 | when the answer is the last message and its id is fresh, the stream changes only that message |
| Streaming.FinishedLast | App.tsx:294-300 | when the answer is the last message and its id is fresh, the final update changes only that message |
| Streaming.ReceiveOneMore | App.tsx:264-280 | taking one more fragment appends its text and merges its chunks |
| Streaming.MergeChunkCitations | App.tsx:273-279 | the `forEach` with `find` and `push` computes the specified merge |
| Streaming.TakeFragment | App.tsx:267-279 | one pass of the loop: the texts and the citations so far become those of one more delivery's fragment |
| Streaming.StreamIntoTranscript | App.tsx:255-289 | the stream loop's text, sources and transcript are those of the fragments taken before the first stop |
| App.WelcomeMessage | App.tsx:16-23 | the greeting with id `welcome` (definition) |
| App.AcceptsSubmission | App.tsx:213 | the submission guard (definition; see `AcceptsSubmissionIff`) |
| App.OutboundText | App.tsx:259 | the trimmed text, or "Analyze this attachment." when it is empty and attachments exist (definition) |
| App.UserMessage | App.tsx:223-229 | the user message with the trimmed text and the attachments taken (definition) |
| App.Placeholder | App.tsx:243-251 | the empty, streaming answer naming the variant (definition) |
| App.ErrorMessage | App.tsx:304-310 | the error message (definition) |
| App.FailureSurfaces | App.tsx:264-310 | the stream's error reaches the turn only when the loop did not stop first (definition) |
| App.TurnTranscript | App.tsx:222-310 | the transcript after an accepted turn (definition; see `TurnShape` and the lemmas below) |
| App.Answer | App.tsx:243-300 | the answer as the turn leaves it (definition) |
| App.AcceptsSubmissionIff | App.tsx:213 | a submission goes ahead exactly when no turn is in flight and there is an attachment or a character that is not whitespace |
| App.AcceptedTurnHasDirective | App.tsx:259 | an accepted turn sends the trimmed text when it is non-empty, and "Analyze this attachment." otherwise |
| App.AttachmentOnlyExample | App.tsx:259 | blank input with one attachment is accepted and sends the default instruction |
| App.TurnShape | App.tsx:222-310 | a turn keeps the earlier messages, then appends the user message, the answer and, on a failure, one error message |
| App.TurnFinishesAnswer | App.tsx:291-300 | a turn that ends normally, stopped or not, adds two messages; the answer stops streaming, holds the latency end minus start, the text and sources received and the variant name, and is not an error |
| App.TurnFailureAppendsError | App.tsx:302-310 | a failed turn appends exactly one error message and leaves the answer streaming, without latency |
| App.StopNeverFails | App.tsx:264-310 | once the stop flag is seen, a later stream error is never reached |
| App.TurnKeepsLatencyAfterStreaming | App.tsx:282-300 | a turn never leaves a message that is still streaming and carries a latency |
| App.FailedTurnErrorNotReplayed | services/geminiService.ts:14 | the error message of a failed turn adds nothing to what a later turn replays |
| App.TurnReplay | App.tsx:240 | the next turn replays this one as exactly two entries, the user's and the answer's text as received |
| App.AnswerEntry | services/geminiService.ts:15-45 | the answer replays as its received text under the model role |
| App.ReplayAppendsTwo | services/geminiService.ts:49-50 | two replayable messages followed by error messages add exactly their two entries |
| App.ErrorsReplayNothing | services/geminiService.ts:14 | error messages alone replay as nothing |
| App.AnswerTurn | App.tsx:222-310 | the transcript updates of a turn, in order, give the specified transcript |
| App.TurnChat | App.tsx:236-240 | the chat a turn or a session switch creates: the transcript without the greeting, replayed for the variant (definition) |
| App.ChatApp.CurrentSession | App.tsx:98-107 | the session the transcript is saved as, with its title (definition) |
| App.ChatApp.constructor | App.tsx:12-51 | the screen opens on the default session with flash, the greeting, and the saved sessions when the record could be read |
| App.ChatApp.SaveCurrentSession | App.tsx:94-117 | nothing is saved for at most one message; otherwise the current session is inserted or replaced |
| App.ChatApp.CreateNewSession | App.tsx:76-92 | the current session is saved, stamped with the save time, when it has more than the greeting; then a new id, the greeting stamped with the current time, and cleared input and attachments |
| App.ChatApp.LoadSession | App.tsx:119-133 | the current session is saved only when it has more than the greeting and another id; the opened transcript is shown and replayed for the selected variant |
| App.ChatApp.SelectFile | App.tsx:135-189 | only the first file is considered; its attachment is appended, or the error is reported and nothing changes |
| App.ChatApp.RemoveAttachment | App.tsx:203-205 | the pending attachments lose exactly the given id |
| App.ChatApp.StopGeneration | App.tsx:207-209 | the stop flag is raised |
| App.ChatApp.SetInputValue | App.tsx:491 | the input holds the typed text |
| App.ChatApp.SelectModel | App.tsx:382 | the selected variant changes |
| App.ChatApp.Submit | App.tsx:211-315 | a rejected submission changes nothing; an accepted one clears the input and the attachments, replaces the chat by the replay of the earlier transcript, sends the turn's parts, and leaves the specified transcript with both flags down |
| App.ChatApp.TakeTurn | App.tsx:215-233 | the accepted path takes the attachments and clears the input, then leaves the answered turn |
| App.ChatApp.AcceptTurn | App.tsx:235-315 | the chat is re-created from the earlier transcript, the turn is sent, and the transcript is updated; input and attachments are untouched |
| App.ChatApp.FinishTurn | App.tsx:255-314 | the transcript becomes the specified one, and both flags end down |
| App.ChatApp.ReplayAndSend | App.tsx:236-262 | the chat replays the transcript without the greeting for the selected variant, and the send keeps that chat |

## Left out

- Rendering is not modelled: the JSX, the styles, scrolling, textarea sizing, the sidebar toggle, the message bubbles and the typing indicator.
- The model-selector dropdown component is not modelled. Only its `onSelect` is, as `SelectModel`.
- The durable store is not modelled. Reading and parsing the saved sessions becomes a `StoredSessions` input, and a parse failure leaves the list empty. The effect that writes the list back when it is non-empty (App.tsx:53-57) is not modelled, as it is output only.
- The message timestamps of stored sessions are not rehydrated into dates. Timestamps and `Date.now()` readings are integers given in a `TurnClock` or as parameters.
- Reading files is an input (`FileRead`). This covers the data-URL reader, `file.text()` and the Word-document text extractor. Resetting the file input element is presentation.
- `App.ChatApp.SelectFile`: an unsupported type shows an alert; a failed read logs an error and shows an alert. The model reports both as an error value instead, and the alerts and the log are output only.
- `Attachments.DataUrlPayload`: a data URL without a comma would give `undefined` in the client. The model assumes the data URL contains a comma, and treats one without a comma as a failed read.
- The remote service is not modelled. The chat is a handle that records the model, the history and the configuration it was made with. The stream is a given finite sequence of fragments.
- Creating a remote chat is taken not to fail, as it makes no request.
- A failing stream is modelled as raising its error after its deliveries, which covers a failure before the first fragment.
- Errors logged to the console are not modelled, as they are output only.
- Turns run one after another. Interleavings of the asynchronous handlers and of batched React state updates are not modelled. The stop flag is the value the loop sees at each fragment.
- In the client, every per-fragment update stores the same citation array, which later pushes keep growing. The model stores a copy of the list as it stands after each fragment. Aliasing is not modelled.
- `Gemini.GeminiService.SendMessageStream`: the branch that sends a lone string part cannot be reached, as every part built is an object. It is not modelled.
- Strings are sequences of Unicode characters, not UTF-16 code units. `trim` uses the ECMAScript white-space and line-terminator set.
- In `Answer`, on a failed stream the answer message keeps `isStreaming` and gets no latency. Only a separate error message is appended. This follows App.tsx:302-310.
- The "clear conversation" button (App.tsx:388-391) is not modelled, as it is wiring in the view.
