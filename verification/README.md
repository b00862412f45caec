# A verified model of the adapter's stream and config cores

The adapter sits between clients and model providers. This project models the parts of it that are
hardest to get right and proves what they promise, for every input.

- **Usage in a stream.** The usage parser reads a server-sent-event stream byte by byte, without
  lookahead and with bounded buffers, and picks token counters out of JSON payloads as they pass.
  It is proved to compute what the simple description says: split the stream into lines and events
  (sections 9.2.5 and 9.2.6 of the WHATWG HTML standard), join the data, parse the JSON (RFC 8259),
  look up four counters and the type. `json_text` has the grammar, `json_machine` a push-down
  machine proved sound and complete for it, `json_readout`, `json_frames` and `json_core` the lookup
  while the tree is unfinished, `usage_json_parser` the parser with its arrays, `event_stream` and
  `sse_usage_parser` the stream. `json_alphabet`, `json_counters` and `json_spelling` say byte by
  byte what is accepted and read, and `usage_round_trip` takes counters written out as a stream
  back to themselves.
- **The Responses protocol.** `responses_protocol` gives the writer as functions on an ordered item
  list and a list of frames, `responses_collector` the non-streaming form. Streaming and collecting
  are proved equal exactly on the event lists a watch accepts (`responses_agreement`,
  `responses_agreement_laws`), which is then said of positions in the list
  (`responses_agreement_form`), every run is proved to have its shape (`responses_numbering`), and a
  strict client is proved to rebuild the terminal snapshot exactly when no reasoning item is reopened
  (`responses_client`, `responses_reopening`, `responses_rebuild`). What the events say is conserved:
  no text, name or argument is lost, doubled or reordered (`responses_conservation`,
  `responses_conserved_runs`). `responses_writer` is the object
  with the scattered fields and a sink that refuses any pattern of frames, proved against the
  functions; `responses_dispatch` takes it through a whole response; `responses_output` is the
  collecting loop.
- **Forwarding and compaction.** `passthrough_copy` is the copy loop with the usage parser in it,
  `passthrough_forward` the forward over every upstream behaviour, `native_compaction` the claim
  and settlement of a recovery.
- **Smaller cores.** The context tracker, the catalog fingerprint text, the config change
  classifier, JSON unwrapping, and the list and retention normalisers.

Class methods are tied to pure functions of their old state; the laws are lemmas about those
functions. `dafny verify dfyconfig.toml` verifies everything.

Where code and comment differ, the model follows the code: the comment above
`ClassifyConfigChange` lists `mitm.Drift` as hot, but `blankHotFields` does not blank it. Five
promises hold only under a condition, which is stated on the input and proved exact, with an input
on which they fail: streaming agrees with collecting (`DocumentedAgreesIff`,
`CompatibleAgreesIff`), a client can rebuild the output from the frames (`ClientRebuildsIff`),
unwrapping is idempotent (`IdempotentIff`), a detour is no cheaper
(`DetourIsNoCheaperIff`), and normalised thresholds are in range and increasing (`InRangeIff`,
`IncreasingIff`: NaN passes the range test). One behaviour may surprise: in JSON mode the capture
row of a first attempt that coerces well holds the coerced body, which is what the client got
(`ReadThenReply`), not the bytes the upstream sent.

## Model

| member | source | states |
|---|---|---|
| `JsonSoundness.StepSound` | internal/adapter/passthrough_sse_usage.go:296-332 | Every byte the reference machine takes keeps its invariant: the text read so far is exactly the rendering of the unfinished tree it holds, and every finished part is well formed, nested within 64 and has usable counters |
| `JsonSoundness.AcceptedIsPayload` | internal/adapter/passthrough_sse_usage.go:952-967 | An accepted text is the rendering of the tree the machine has built: nothing outside the grammar of RFC 8259 section 2, deeper than 64 or with an unusable counter is accepted |
| `JsonCompleteness.ValueRuns` | internal/adapter/passthrough_sse_usage.go:296-332 | From any point where a value may start, the bytes of any well-formed value that fits the depth and has usable counters bring the machine to the point after it, with the value in place |
| `JsonCompleteness.PayloadIsAccepted` | internal/adapter/passthrough_sse_usage.go:952-967 | Every JSON text nested at most 64 deep with usable counters is accepted, whatever white space surrounds it |
| `JsonCompleteness.AcceptsIffPayload` | internal/adapter/passthrough_sse_usage.go:296-332 | Accepted if and only if the bytes are one JSON text within the limits; the document is then unique |
| `JsonReadout.LeaveReads` | internal/adapter/passthrough_sse_usage.go:717-736 | Closing a container and plugging it into its parent changes no lookup: what was read while it was open is what a lookup in the larger tree gives |
| `JsonReadout.StartReads` | internal/adapter/passthrough_sse_usage.go:828-850 | When a value starts, the lookup in the unfinished tree loses exactly what an earlier duplicate at that position had contributed |
| `JsonReadout.PlugReads` | internal/adapter/passthrough_sse_usage.go:852-860 | When a scalar completes, the lookup changes exactly at a counter position, to its value, or at the root type, to its terminal kind |
| `JsonAlphabet.SpaceBefore` | internal/adapter/passthrough_sse_usage.go:334-341 | Before a value may stand exactly the bytes 09, 0A, 0D and 20 |
| `JsonAlphabet.SpaceAfter` | internal/adapter/passthrough_sse_usage.go:334-341 | After a value may stand exactly the same four bytes |
| `JsonAlphabet.PlainBytesOfStrings` | internal/adapter/passthrough_sse_usage.go:359-394 | A byte stands for itself in a string exactly from 20 on, quote and backslash apart |
| `JsonAlphabet.EscapesOfStrings` | internal/adapter/passthrough_sse_usage.go:400-407 | A backslash may be followed by exactly the eight bytes of RFC 8259 section 7, the unicode escape apart |
| `JsonAlphabet.HexDigitsOfStrings` | internal/adapter/passthrough_sse_usage.go:396-398 | A unicode escape is accepted exactly with four hexadecimal digits, of either case |
| `JsonAlphabet.OneDigit` | internal/adapter/passthrough_sse_usage.go:438-460 | A text of one byte is accepted exactly if it is a decimal digit |
| `JsonAlphabet.TwoNumberBytes` | internal/adapter/passthrough_sse_usage.go:489-511 | Before a last digit may stand exactly a minus sign, white space, or a digit other than a leading zero |
| `JsonAlphabet.ThreeNumberBytes` | internal/adapter/passthrough_sse_usage.go:513-532 | Between two digits may stand exactly a point, an exponent mark of either case, or a digit unless a zero leads |
| `JsonAlphabet.ExponentBytes` | internal/adapter/passthrough_sse_usage.go:544-567 | Between an exponent mark and a digit may stand exactly a sign or a digit |
| `JsonAlphabet.EmptyArrays` | internal/adapter/passthrough_sse_usage.go:717-743 | An opened array is closed by exactly one byte |
| `JsonAlphabet.EmptyObjects` | internal/adapter/passthrough_sse_usage.go:717-743 | An opened object is closed by exactly one byte |
| `JsonAlphabet.Words` | internal/adapter/passthrough_sse_usage.go:667-680 | A run of small letters is accepted exactly if it spells one of the three words, letter by letter |
| `JsonAlphabet.NestingLimit` | internal/adapter/passthrough_sse_usage.go:682-715 | For every n: n opening and n closing brackets are accepted exactly for n from 1 to 64 |
| `JsonCounters.NumberAtPath` | internal/adapter/passthrough_sse_usage.go:596-618 | For every path of names and every number: objects nested along the path around the number are accepted exactly if the path has at most 64 names, passes through no counter, and the number fits in a signed 64-bit int where the path spells one of the four counters |
| `JsonSpelling.LastMemberCounts` | internal/adapter/passthrough_sse_usage.go:870-879 | Of several members of one name the last is the one that is read |
| `JsonFrames.KeyForName` | internal/adapter/passthrough_sse_usage.go:805-826 | The key recognised for a raw spelling is the one that spells exactly those bytes; every other spelling is unknown |
| `JsonFrames.PathPlaces` | internal/adapter/passthrough_sse_usage.go:596-618 | Where the frame stack says a value is a usage counter, it is one of the four counter positions of the tree, and the other way round |
| `JsonCore.AdvanceFollows` | internal/adapter/passthrough_sse_usage.go:489-567 | The number state takes a byte exactly when it extends a partial number of RFC 8259 section 6, and tells which digits belong to its integer part |
| `UsageJson.AccumulateAllCorrect` | internal/adapter/passthrough_sse_usage.go:573-581 | For every digit sequence the fit flag holds exactly when the value is at most the largest int, and then the number is that value; no step leaves the range |
| `UsageJson.UsageJsonParser.ClearSupersededStructuralUsage` | internal/adapter/passthrough_sse_usage.go:870-879 | A second response, usage or details value clears exactly what the first contributed |
| `UsageJson.UsageJsonParser.BeginValue` | internal/adapter/passthrough_sse_usage.go:828-850 | A value may start exactly where the grammar allows one; the root and every frame move on accordingly |
| `UsageJson.UsageJsonParser.CompleteScalar` | internal/adapter/passthrough_sse_usage.go:852-860 | The frame on top awaits a separator; the rest of the stack is untouched |
| `UsageJson.UsageJsonParser.RecordUsageNumber` | internal/adapter/passthrough_sse_usage.go:914-950 | A number is recorded in the counter of its position and nowhere else |
| `UsageJson.UsageJsonParser.EnterContainer` | internal/adapter/passthrough_sse_usage.go:682-715 | The stack grows by one frame as in the reference, or the text becomes invalid: exactly when no value may start or the depth is 64 |
| `UsageJson.UsageJsonParser.LeaveContainer` | internal/adapter/passthrough_sse_usage.go:717-736 | Closing succeeds exactly when the bracket fits the top frame and nothing is missing before it |
| `UsageJson.UsageJsonParser.ConsumeComma` | internal/adapter/passthrough_sse_usage.go:745-764 | A comma is taken exactly after a complete element or member |
| `UsageJson.UsageJsonParser.ConsumeColon` | internal/adapter/passthrough_sse_usage.go:766-777 | A colon is taken exactly after a key |
| `UsageJson.UsageJsonParser.BeginString` | internal/adapter/passthrough_sse_usage.go:343-357 | The string is a key exactly when the top frame expects one; otherwise a value starts |
| `UsageJson.UsageJsonParser.AppendStringByte` | internal/adapter/passthrough_sse_usage.go:409-416 | The buffer holds the text as long as it fits; the too-long flag is set exactly when it does not; no write leaves the buffer |
| `UsageJson.UsageJsonParser.SetObjectKey` | internal/adapter/passthrough_sse_usage.go:788-796 | A key is taken exactly where one is expected, and is the key its raw spelling names |
| `UsageJson.UsageJsonParser.FinishString` | internal/adapter/passthrough_sse_usage.go:418-436 | A finished string is a key or a scalar; only the root type string sets the terminal kind, by its raw spelling |
| `UsageJson.UsageJsonParser.AppendNumberDigit` | internal/adapter/passthrough_sse_usage.go:573-581 | One digit more without leaving the range of int |
| `UsageJson.UsageJsonParser.BeginNumber` | internal/adapter/passthrough_sse_usage.go:438-460 | The number starts in the state its first byte calls for, with the value of that byte |
| `UsageJson.UsageJsonParser.FinishNumber` | internal/adapter/passthrough_sse_usage.go:583-594 | A number ends well exactly when it is complete; at a counter position it must be a plain count that fits, and is recorded |
| `UsageJson.UsageJsonParser.AppendLiteralByte` | internal/adapter/passthrough_sse_usage.go:658-665 | The word buffer holds the word; a word longer than any JSON word makes the text invalid; no write leaves the buffer |
| `UsageJson.UsageJsonParser.BeginLiteral` | internal/adapter/passthrough_sse_usage.go:635-646 | A word starts with the byte read where a value may start |
| `UsageJson.UsageJsonParser.FinishLiteral` | internal/adapter/passthrough_sse_usage.go:667-680 | The word must be true, false or null, and not stand at a counter position |
| `UsageJson.UsageJsonParser.ConsumeNormalByte` | internal/adapter/passthrough_sse_usage.go:310-332 | Between tokens, one byte moves the parser as it moves the reference machine |
| `UsageJson.UsageJsonParser.ConsumeStringByte` | internal/adapter/passthrough_sse_usage.go:359-394 | Inside a string, one byte moves the parser as it moves the reference machine, escapes and unicode digits included |
| `UsageJson.UsageJsonParser.ConsumeNumberByte` | internal/adapter/passthrough_sse_usage.go:462-487 | Inside a number, one byte moves the parser as it moves the reference machine; a delimiter ends the number and is read again |
| `UsageJson.UsageJsonParser.ConsumeLiteralByte` | internal/adapter/passthrough_sse_usage.go:648-656 | Inside a word, one byte moves the parser as it moves the reference machine |
| `UsageJson.UsageJsonParser.ConsumeByte` | internal/adapter/passthrough_sse_usage.go:296-308 | For every byte: the parser stands where the reference machine stands after all bytes fed, every array access is in range, and invalid stays set |
| `UsageJson.UsageJsonParser.Finish` | internal/adapter/passthrough_sse_usage.go:952-963 | The end of the text closes an open number or word and makes an open string invalid |
| `UsageJson.UsageJsonParser.Valid` | internal/adapter/passthrough_sse_usage.go:965-967 | Valid if and only if the bytes fed are one JSON text within the limits; then usage and terminal kind are the last-duplicate-wins lookups in its tree |
| `UsageJson.UsageJsonParser.Reset` | internal/adapter/passthrough_sse_usage.go:969-992 | After a reset the parser is as new, whatever it read before |
| `SseUsage.SseUsageParser.ResetLine` | internal/adapter/passthrough_sse_usage.go:174-182 | The parser has read nothing of the line |
| `SseUsage.SseUsageParser.ConsumeLineNameByte` | internal/adapter/passthrough_sse_usage.go:89-101 | One more byte of a field name: the name buffer holds the name while it fits and its too-long flag tells when it does not |
| `SseUsage.SseUsageParser.ConsumeEventNameByte` | internal/adapter/passthrough_sse_usage.go:133-140 | One more byte of an event name, bounded in the same way |
| `SseUsage.SseUsageParser.ConsumeLineValueByte` | internal/adapter/passthrough_sse_usage.go:117-131 | One more byte of a value, less one leading space, goes to the JSON parser for data lines and to the event name for event lines |
| `SseUsage.SseUsageParser.FinishEvent` | internal/adapter/passthrough_sse_usage.go:165-172 | A blank line dispatches the event: its usage is taken exactly when its data is a payload whose type agrees with its name |
| `SseUsage.SseUsageParser.FinishLine` | internal/adapter/passthrough_sse_usage.go:142-163 | A finished line has the effect on the event log that its field name calls for |
| `SseUsage.SseUsageParser.ConsumeByte` | internal/adapter/passthrough_sse_usage.go:66-87 | One byte after the byte order mark: lines are split at LF, CR and CRLF |
| `SseUsage.SseUsageParser.ResolveStreamPrefix` | internal/adapter/passthrough_sse_usage.go:53-64 | A byte order mark at the start is dropped, anything else is read as text |
| `SseUsage.SseUsageParser.ConsumeStreamByte` | internal/adapter/passthrough_sse_usage.go:41-51 | For every byte, the parser stands where splitting all bytes so far into lines and events puts it |
| `SseUsage.SseUsageParser.Write` | internal/adapter/passthrough_sse_usage.go:35-39 | A chunk has the effect of its bytes, before and after the usage was asked for: only the concatenation of the chunks matters |
| `SseUsage.SseUsageParser.Usage` | internal/adapter/passthrough_sse_usage.go:184-193 | The usage is that of the last event whose data is one JSON text within the limits and whose name and type are the same terminal kind; asking ends the line and the event in progress, the stream goes on as if their ends had been in it, and asking again gives the same |
| `SseUsage.NewSseUsageParser` | internal/adapter/passthrough_sse_usage.go:29-33 | A new parser has read nothing |
| `EventStream.ReportOf` | internal/adapter/passthrough_sse_usage.go:165-172 | The payload of a reporting event, chosen by its meaning: terminal name, JSON text, same terminal type |
| `EventStreamLaws.PayloadIsUnique` | internal/adapter/passthrough_sse_usage.go:165-172 | A text has at most one parse, so that the reported usage is well defined |
| `EventStreamLaws.LastUsageIsLast` | internal/adapter/passthrough_sse_usage.go:165-172 | An event that reports usage decides the result if no later event does; events that do not match never erase it |
| `EventStreamLaws.NoReportNoUsage` | internal/adapter/passthrough_sse_usage.go:184-193 | Without a matching event there is no usage |
| `EventStreamLaws.FedReports` | internal/adapter/passthrough_sse_usage.go:142-163 | Ending every data line with a line feed, as the parser does, reports the same usage as joining the lines by line feeds, as section 9.2.6 of the HTML standard does |
| `EventStreamLaws.EndActsAsTwoFeeds` | internal/adapter/passthrough_sse_usage.go:184-193 | The end of a stream acts as two appended line feeds |
| `EventStreamLaws.EndedKeepsUsage` | internal/adapter/passthrough_sse_usage.go:184-193 | The ends that asking puts into the stream report nothing more |
| `EventStreamLaws.SplitUndoesEncode` | internal/adapter/passthrough_sse_usage.go:66-87 | Splitting gives back the lines that were written, for any mixture of LF, CR and CRLF endings that is not ambiguous |
| `EventStreamLaws.EndingsDoNotMatter` | internal/adapter/passthrough_sse_usage.go:66-87 | The usage does not depend on how the lines are ended |
| `UsageRoundTrip.LineEffects` | internal/adapter/passthrough_sse_usage.go:103-163 | A blank line ends the event; any other line is a name and, after a colon and one optional space, a value, which exactly the names data and event take in |
| `UsageRoundTrip.EventComesBack` | internal/adapter/passthrough_sse_usage.go:66-163 | An event written out as lines with any unambiguous endings is read back, name and data lines, and nothing else is |
| `UsageRoundTrip.ReportsIff` | internal/adapter/passthrough_sse_types.go:26-35 | An event reports usage if and only if it is named response.completed or response.incomplete, its data is a payload, and the payload's last root type is that very name without escapes |
| `UsageRoundTrip.UsageComesBack` | internal/adapter/passthrough_sse_usage.go:165-193 | For every event name and all counters that fit: a stream spelled out letter by letter gives exactly those counters, each in its own field, if the name is one of the two, and nothing under any other name |
| `UsageRoundTrip.MarkIsSkipped` | internal/adapter/passthrough_sse_usage.go:53-64 | One byte order mark at the start of a stream does not change its usage |
| `ResponsesSteps.ReopenedReasoning` | internal/adapter/responses_writer.go:334-342 | In compatibility mode reopened reasoning carries the old text to a new position and leaves the old one vacant |
| `ResponsesSteps.NewMessageItem` | internal/adapter/responses_writer.go:438-458 | The first text closes open reasoning on the documented contract and puts the message at the next position |
| `ResponsesSteps.NewTool` | internal/adapter/responses_writer.go:525-562 | A call with a new index closes open reasoning on the documented contract and puts the tool at the next position with its first arguments |
| `ResponsesSteps.KnownTool` | internal/adapter/responses_writer.go:525-562 | A call with a known index renames the tool if it names it, appends its arguments and leaves reasoning as it is |
| `ResponsesInvariants.AlwaysAccounted` | internal/adapter/responses_writer.go:230-251 | In every state of every run each position is held by the message, one reasoning item or one tool, vacant only in compatibility mode; exactly the open items are in progress; tool order and tool map agree |
| `ResponsesInvariants.IdsDistinct` | internal/adapter/responses_writer.go:111-123 | Item ids are pairwise distinct |
| `ResponsesInvariants.CallIdsDistinct` | internal/adapter/responses_writer.go:583-585 | Two tools with equal call ids are the same tool, so that a client can answer each |
| `ResponsesInvariants.CloseAllSettles` | internal/adapter/responses_writer.go:273-281 | Closing everything gives the final status to exactly the items in progress and changes nothing else |
| `ResponsesConservedRuns.WriterHolds` | internal/adapter/responses_writer.go:230-251 | Conservation, for every event list and both contracts: the items hold exactly what was said, reasoning and message text in order, and for each tool its name and its arguments joined, tools in the order they were first called |
| `ResponsesConservedRuns.OutputHolds` | internal/adapter/responses_writer.go:263-291 | The output of every finished run holds exactly what the events said, however it ends |
| `ResponsesConservedRuns.CollectorHolds` | internal/adapter/responses_writer.go:742-797 | The collected output holds exactly what the events said, in both modes |
| `ResponsesConservedRuns.SilentEvents` | internal/adapter/responses_writer.go:230-251 | An event that says nothing at most begins the stream |
| `ResponsesAgreement.EventsAgree` | internal/adapter/responses_writer.go:742-797 | After every event list the writer and the collector hold the same items up to status, or have parted for good, exactly as a watch over the events alone tells |
| `ResponsesAgreementLaws.StreamAgreesIff` | internal/adapter/responses_writer.go:263-291 | For every event list, both contracts and both terminal statuses: the terminal snapshot equals the collected output if and only if the watch says so |
| `ResponsesAgreementForm.DocumentedAgreesIff` | internal/adapter/responses_writer.go:438-444 | On the documented contract streaming agrees with collecting if and only if reasoning never resumes after an interruption that began no item and, in an incomplete response, no reasoning item was closed by the next item alone |
| `ResponsesAgreementLaws.DisciplinedAgrees` | internal/adapter/responses_writer.go:263-291 | On the documented contract, if every reasoning segment is ended by ReasoningFinished before the next non-empty text or refusal or any tool delta, streaming agrees with collecting item for item |
| `ResponsesAgreementLaws.CompatibleAgreesIff` | internal/adapter/responses_writer.go:334-342 | In compatibility mode streaming agrees with collecting if and only if no non-empty reasoning delta follows the ReasoningFinished that closed the item |
| `ResponsesAgreementLaws.ReopenedReasoningDisagrees` | internal/adapter/responses_writer.go:334-342 | Reasoning reopened in compatibility mode: an input on which streaming and collecting differ |
| `ResponsesAgreementLaws.InterleavedReasoningDisagrees` | internal/adapter/responses_writer.go:438-444 | With the message already open, text ends the collector's reasoning segment but not the writer's: an input on which they differ |
| `ResponsesAgreementLaws.InterruptedReasoningDisagrees` | internal/adapter/responses_writer.go:431-436 | An incomplete stream whose reasoning is interrupted by text: the writer has completed the item, the collector has not |
| `ResponsesNumbering.AlwaysRunning` | internal/adapter/responses_writer.go:210-251 | During every run the frames are numbered 0, 1, 2 and so on, created and in_progress come first and once, and no other envelope has been sent |
| `ResponsesNumbering.FinishEnds` | internal/adapter/responses_writer.go:263-291 | A finished run ends in exactly one terminal envelope, last: failed if the documented contract misses a usage detail, else incomplete or completed by the finish reason |
| `ResponsesNumbering.FailEnds` | internal/adapter/responses_writer.go:301-313 | A failed run ends in exactly one failed envelope, last |
| `ResponsesClient.AnnouncedOnce` | internal/adapter/responses_writer.go:836-841 | In any frame sequence a strict client can follow, each position is added once and done at most once |
| `ResponsesClient.TextsAreDeltas` | internal/adapter/responses_writer.go:315-332 | In any frame sequence a strict client can follow, every text is the concatenation of its deltas |
| `ResponsesRebuild.AlwaysFollowed` | internal/adapter/responses_writer.go:230-251 | Unless compatibility mode reopens reasoning, a strict client, which demands each done frame in its place with the text shown, can follow every prefix of every run and holds the writer's items, tool names possibly late |
| `ResponsesReopening.EventKeepsVacant` | internal/adapter/responses_writer.go:334-342 | A position once vacant stays vacant whatever event comes |
| `ResponsesReopening.ReopeningVacates` | internal/adapter/responses_writer.go:334-342 | A run whose events reopen reasoning in compatibility mode has a vacant position |
| `ResponsesRebuild.ClientRebuildsIff` | internal/adapter/responses_writer.go:263-291 | A strict client follows a finished run to its end if and only if the contract is documented or no event reopens reasoning, and has then rebuilt exactly the terminal output, every item done |
| `ResponsesRebuild.ReopenedRunIsRefused` | internal/adapter/responses_writer.go:334-342 | Reasoning reopened in compatibility mode: a run no client can follow to its end |
| `ResponsesRebuild.OneFrameEach` | internal/adapter/responses_writer.go:263-291 | In every finished run of the documented contract, and in every compatibility run that never reopens reasoning, each output item has one added and one done frame, and its done texts are its deltas, joined |
| `ResponsesFields.Partition` | internal/adapter/responses_writer.go:660-692 | Without a vacant position the message index, the finished reasoning indexes, the current reasoning index and the tool indexes partition the positions below nextOutputIndex |
| `ResponsesFields.ReachablePartition` | internal/adapter/responses_writer.go:660-692 | In every reachable state of the documented contract these indexes partition the positions |
| `ResponsesWriter.ResponsesStreamWriter.constructor` | internal/adapter/responses_writer.go:146-183 | A new writer has sent nothing and holds nothing, over a sink with any pattern of refusals |
| `ResponsesWriter.ResponsesStreamWriter.Send` | internal/adapter/responses_writer.go:191-205 | A try uses up its number; it succeeds exactly if the sink takes it, and then the frame is the next in the sink |
| `ResponsesWriter.ResponsesStreamWriter.StartNextReasoningItem` | internal/adapter/responses_writer.go:111-123 | On the documented contract the finished item is put aside and the next id is numbered; otherwise nothing changes |
| `ResponsesWriter.ResponsesStreamWriter.EmitReasoningSummaryPart` | internal/adapter/responses_writer.go:78-91 | Summary part frames are tried on the documented contract only |
| `ResponsesWriter.ResponsesStreamWriter.OpenReasoning` | internal/adapter/responses_writer.go:334-351 | The scattered fields hold the new item list. It succeeds exactly if no try was refused; otherwise it stops at the first refused try with the sink a proper start of what was due and the fields still consistent. The same holds for every method below that tries to send |
| `ResponsesWriter.ResponsesStreamWriter.HandleReasoningDelta` | internal/adapter/responses_writer.go:315-332 | A non-empty delta ends up in the open reasoning item, opened for it if need be; the message is untouched |
| `ResponsesWriter.ResponsesStreamWriter.CloseReasoning` | internal/adapter/responses_writer.go:353-379 | The open item gets its status and its done frames carry its whole text, in order; after a refused try the item is closed all the same |
| `ResponsesWriter.ResponsesStreamWriter.CloseReasoningBeforeNextItem` | internal/adapter/responses_writer.go:431-436 | Completes open reasoning on the documented contract and leaves it open otherwise |
| `ResponsesWriter.ResponsesStreamWriter.OpenMessage` | internal/adapter/responses_writer.go:438-458 | An open message is left alone, reasoning included; otherwise reasoning is closed first and the message takes the next position, with the parts of a message closed before if there was one |
| `ResponsesWriter.ResponsesStreamWriter.OpenMessageContentPart` | internal/adapter/responses_writer.go:460-480 | The part that receives the text is the last one, new exactly when the kind changes |
| `ResponsesWriter.ResponsesStreamWriter.HandleText` | internal/adapter/responses_writer.go:381-426 | Text and refusals go to the last part of the open message, opened for them if need be |
| `ResponsesWriter.ResponsesStreamWriter.CloseMessage` | internal/adapter/responses_writer.go:482-523 | Every part gets its two done frames in order before the item's; the content sent is the message's |
| `ResponsesWriter.ResponsesStreamWriter.GetOrCreateTool` | internal/adapter/responses_writer.go:564-581 | A new index takes the next position, under the item id and the call id that its base and index spell; a known one changes nothing |
| `ResponsesWriter.ResponsesStreamWriter.HandleToolCalls` | internal/adapter/responses_writer.go:525-562 | The calls are taken one after the other, up to the first refused try |
| `ResponsesWriter.ResponsesStreamWriter.CloseTools` | internal/adapter/responses_writer.go:587-612 | Every tool gets its two done frames in the order the tools came, although each status is set only after its frames are out |
| `ResponsesWriter.ResponsesStreamWriter.OrderedOutput` | internal/adapter/responses_writer.go:660-692 | Placing message, finished reasoning, current reasoning and tools at their indexes gives exactly the protocol's item list, vacant positions included, with every index in range |
| `ResponsesWriter.ResponsesStreamWriter.Begin` | internal/adapter/responses_writer.go:210-226 | The two opening envelopes, once |
| `ResponsesWriter.ResponsesStreamWriter.WriteEvent` | internal/adapter/responses_writer.go:230-251 | For every event in every state, also after a finish: the protocol's step, exactly if no try was refused; otherwise a proper start of its frames |
| `ResponsesWriter.ResponsesStreamWriter.Fail` | internal/adapter/responses_writer.go:301-313 | The failed envelope with the items as they stand, exactly if no try was refused |
| `ResponsesWriter.ResponsesStreamWriter.Finish` | internal/adapter/responses_writer.go:263-291 | The closing frames and the terminal envelope, exactly if no try was refused; otherwise a proper start of them |
| `ResponsesDispatch.BeganEarly` | internal/adapter/server_responses.go:542-549 | Beginning before the provider runs makes no difference to any run |
| `ResponsesDispatch.FollowsPrefix` | internal/adapter/server_responses.go:524-580 | A client that can follow a stream can follow every start of it |
| `ResponsesDispatch.FullRunIsFollowed` | internal/adapter/server_responses.go:524-580 | Unless compatibility mode reopens reasoning, every full stream can be followed, finished or failed |
| `ResponsesDispatch.FullRunTellsOutcome` | internal/adapter/server_responses.go:561-580 | The last frame of a full stream, and no frame between the opening two and it, is an envelope: failed if the provider broke off or the documented contract misses a usage detail, else incomplete or completed by the finish reason, with the items as they stand |
| `ResponsesDispatch.FullRunHolds` | internal/adapter/server_responses.go:524-580 | Whatever the outcome, the items of a full stream hold exactly what the events said |
| `ResponsesDispatch.WriteEvents` | internal/adapter/server_responses.go:559-559 | Every event reaches the sink exactly if no try was refused; otherwise the sink has a proper start of what all events would send |
| `ResponsesDispatch.ReportFailure` | internal/adapter/server_responses.go:561-571 | The failed envelope arrives, as the next frame with the next number and listing the items as they stand, exactly if the sink takes that try; a client that could follow can follow still |
| `ResponsesDispatch.DispatchStream` | internal/adapter/server_responses.go:524-580 | For every pattern of refusals: the whole stream arrives if and only if the sink takes as many tries as the stream has frames, and its last frame is then the envelope the outcome calls for, with the items as they stand; otherwise the client has exactly the frames before the first refused try and, exactly if that try belonged to an event and the next one is taken, a failed envelope listing the items as they stand at the refused try; unless compatibility mode reopens reasoning a strict client can follow what it has in every case |
| `ResponsesOutput.ItemBase` | internal/adapter/responses_writer.go:187-189 | The prefix comes off if it is there |
| `ResponsesOutput.CollectedReasoning.Finish` | internal/adapter/responses_writer.go:704-708 | A segment ends only if there is one |
| `ResponsesOutput.CollectedReasoning.AppendDelta` | internal/adapter/responses_writer.go:710-738 | The delta extends the current item or starts the next one, as the collector step says |
| `ResponsesOutput.AppendCollectedMessagePart` | internal/adapter/responses_writer.go:799-829 | The text goes to the last part of the message or a new one, as the collector step says |
| `ResponsesOutput.CollectToolCalls` | internal/adapter/responses_writer.go:774-795 | The calls of a delta are collected one after the other |
| `ResponsesOutput.ResponsesOutputFromEvents` | internal/adapter/responses_writer.go:742-797 | The loop over local variables computes the collected output |
| `PassthroughCopy.CappedBuffer.Write` | internal/mitm/capture/exchange.go:29-42 | The buffer keeps the first bytes up to its limit and counts all of them; the flag tells that bytes were dropped, or that an empty write met a full buffer |
| `PassthroughCopy.JoinConcatenates` | internal/adapter/server_passthrough_override.go:218-245 | A body is its reads one after the other: joining sends concatenation to concatenation |
| `PassthroughCopy.CopiesInOrder` | internal/adapter/server_passthrough_override.go:218-245 | The client gets a prefix of what was read, everything unless it refuses a write, and nothing after the refusal |
| `PassthroughCopy.PatientClientGetsAll` | internal/adapter/server_passthrough_override.go:218-245 | However the answer is cut into reads, a client that takes every write gets all of it |
| `PassthroughCopy.WritePassthroughChunk` | internal/adapter/server_passthrough_override.go:247-260 | Capture buffer and usage parser see exactly the bytes read, also when the client refuses them |
| `PassthroughCopy.StreamCaptureResult` | internal/adapter/server_passthrough_override.go:262-267 | The captured body is the start of what was read and the usage is that of the stream read |
| `PassthroughCopy.CopyPassthroughResponse` | internal/adapter/server_passthrough_override.go:218-245 | For every sequence of reads, read error and client: the usage is the stream usage of the bytes read, however chunked; truncated tells a capped, refused or broken copy; success tells that everything was copied |
| `PassthroughForward.Attempts` | internal/adapter/server_passthrough_override.go:575-632 | At most two attempts are sent; the second exactly in JSON mode after a complete 200 that was not copied through and failed coercion |
| `PassthroughForward.Forwarder.Open` | internal/adapter/server_passthrough_override.go:191-205 | A request that cannot be built is not an attempt; one that fails on the way is recorded at once; an answered one awaits its row |
| `PassthroughForward.Forwarder.RecordAnswer` | internal/adapter/passthrough_egress_capture.go:21-41 | Recording the latest answer makes the rows match the attempts one to one |
| `PassthroughForward.Forwarder.RespondRejected` | internal/adapter/passthrough_rejected_response.go:12-30 | A rejected answer is recorded once, with the body read, cut off or not, and ends the forward with one failed event |
| `PassthroughForward.Forwarder.RespondRetryFailure` | internal/adapter/passthrough_retry_failure.go:22-48 | A failed second attempt ends the forward with one failed event |
| `PassthroughForward.Forwarder.Retry` | internal/adapter/server_passthrough_override.go:607-632 | The first attempt is recorded with its body before the second is sent; the second is recorded with its body, or empty when there is no answer; only a complete 200 succeeds |
| `PassthroughForward.Forwarder.CoerceOrRetry` | internal/adapter/server_passthrough_override.go:575-632 | The body is the coerced first, the first, the coerced second or the second, as coercion, encoding and the second answer decide; on a retry both rows hold the bodies the upstream sent |
| `PassthroughForward.Forwarder.CopyThrough` | internal/adapter/server_passthrough_override.go:151-163 | A stream copied through is recorded once, with the start of what was read up to the limit and its usage, and ends in one event: finished with the stream's usage, or failed |
| `PassthroughForward.Forwarder.ReadThenReply` | internal/adapter/server_passthrough_override.go:164-188 | A whole answer is recorded once per attempt, with the body replied or, when it breaks off or is retried, the body sent; it ends in one event, finished with the usage of the body replied with |
| `PassthroughForward.Forwarder.Forward` | internal/adapter/server_passthrough_override.go:109-189 | For every upstream and client: one started event first, a stream-opened event exactly after a 2xx that streams, one terminal event last, finished with the usage of what was replied exactly when the forward completes, else failed with the blame; the reply is exactly the stream, the body or the refusal; at most two attempts; when recording is on exactly one row for each attempt sent, with its status and what was captured of it as the five lemmas below spell out, and none otherwise |
| `PassthroughForward.RejectedRow` | internal/adapter/passthrough_rejected_response.go:12-30 | The only row of an answer of 300 or more holds the body read, its length, whether it broke off and the usage in it |
| `PassthroughForward.RepliedRow` | internal/adapter/server_passthrough_override.go:164-188 | The only row of an answer read whole and replied holds exactly the body the client got, its length and its usage |
| `PassthroughForward.RetriedRows` | internal/adapter/server_passthrough_override.go:607-632 | The two rows of a retried forward hold the bodies as the upstream sent them, the second empty where there was no answer |
| `PassthroughForward.StreamedRow` | internal/adapter/server_passthrough_override.go:262-267 | The only row of a stream holds its start up to the limit, the number of bytes read, the stream usage of all of them, and is truncated exactly if the stream was longer, refused or broken |
| `PassthroughForward.CompletedCopyIsWhole` | internal/adapter/server_passthrough_override.go:151-163 | A stream that completes reached the client whole, and the usage told is that of the whole stream |
| `NativeCompaction.PrepareSecond` | internal/adapter/server_responses_zstd.go:80-100 | A plan comes out exactly when there is one and its body can be sent; an unchanged body goes out as it came |
| `NativeCompaction.Prepare` | internal/adapter/server_responses_zstd.go:46-78 | At most one of transformer, plan and recovery comes out; a claim that cannot go out is released at once; without any of them the request is unchanged |
| `NativeCompaction.Dispatch` | internal/adapter/server_responses.go:290-363 | A recovery is settled exactly once, completed if and only if the answer came through whole with a 2xx and was changed; a plan is armed or released at most once; the lifecycle events are exactly began, opened where the answer streams, and one end that tells failure |
| `NativeCompaction.PrepareAndDispatch` | internal/adapter/server_responses.go:225-227 | From claim to settlement: every claimed recovery is settled exactly once on every path, and the lifecycle events are exactly those of the dispatch |
| `ContextTracker.TurnStep` | internal/adapter/context_tracker.go:38-67 | The stored state is always the latest prompt, the completions since the last reset, and their sum |
| `ContextTracker.CarriesOverIff` | internal/adapter/context_tracker.go:69-83 | A turn starts afresh exactly if its prompt is less than half of the last one or its total less than half of the last total; otherwise it carries the completions since the last fresh start |
| `ContextTracker.SinceResetIsTail` | internal/adapter/context_tracker.go:38-67 | The turns carried over are a tail of the turns, of which the first resets unless it is the first of all, and no later one does |
| `ContextTracker.RolledIsBounded` | internal/adapter/context_tracker.go:69-83 | With non-negative usages, a turn with a positive total carries over at most twice that total |
| `ContextTracker.OtherKeysDoNotMatter` | internal/adapter/context_tracker.go:38-67 | Two histories that agree on the turns under a key, however these are interleaved with turns under others, give that key the same state and every next turn the same rollover |
| `ContextTracker.ContextUsageTracker.Track` | internal/adapter/context_tracker.go:38-67 | For every sequence of turns: the surfaced prompt is the raw prompt plus the completions of that key since its last reset, and the total is that plus the completion; a blank key is not tracked |
| `CatalogFingerprint.MapRoundTrip` | internal/adapter/model_catalog_fingerprint.go:81-93 | Decoding the length-prefixed text gives back the map, for every map |
| `CatalogFingerprint.MapTextInjective` | internal/adapter/model_catalog_fingerprint.go:81-93 | Distinct maps never share a text |
| `CatalogFingerprint.SortedStringMap` | internal/adapter/model_catalog_fingerprint.go:81-93 | The text depends on the map alone, not on the order its keys are visited in |
| `CatalogFingerprint.SortedTransportLimits` | internal/adapter/model_catalog_fingerprint.go:95-102 | The text depends on the limits alone, not on the order they are visited in |
| `CatalogFingerprint.ModelCatalogText` | internal/adapter/model_catalog_fingerprint.go:32-79 | The loops compute the text that is hashed: one row per model, sorted by alias |
| `CatalogLines.RowIsLine` | internal/adapter/model_catalog_fingerprint.go:58-76 | The row of a model is its fifteen fields in order between tabs, ended by a line feed |
| `CatalogLines.CatalogSpelled` | internal/adapter/model_catalog_fingerprint.go:32-79 | The text that is hashed is one line per model, arranged by alias |
| `CatalogLines.ListSpelled` | internal/adapter/model_catalog_fingerprint.go:104-111 | A list of names is written sorted, with commas between |
| `CatalogLines.LimitsSpelled` | internal/adapter/model_catalog_fingerprint.go:95-102 | The limits are written as transport, equals sign and number, each once, sorted |
| `Ordering.TextLeIff` | internal/adapter/model_catalog_fingerprint.go:53-55 | The order of texts: a start of the other, or smaller at the first place where they differ |
| `CatalogFingerprint.CatalogTextForgetsOrder` | internal/adapter/model_catalog_fingerprint.go:32-79 | The text is unchanged by any permutation of models with distinct aliases and of each model's efforts and thinking modes |
| `CatalogReading.CatalogTextTellsModels` | internal/adapter/model_catalog_fingerprint.go:32-79 | Conversely, where no field holds a separator, catalogs with the same text have the same models up to order |
| `CatalogReading.EmptyEffortIsLost` | internal/adapter/model_catalog_fingerprint.go:104-111 | A list with one empty effort and a list with none give the same row: why names must not be empty for the converse |
| `CatalogSharing.RowSharedIff` | internal/adapter/model_catalog_fingerprint.go:34-51 | Two models share a row if and only if their other fields are equal and their efforts, modes and limits, sorted, have the same pieces between commas |
| `CatalogSharing.LineSharedIff` | internal/adapter/model_catalog_fingerprint.go:58-76 | Two rows share a line if and only if their cells have the same pieces between tabs |
| `ConfigChange.HotApplyIff` | internal/config/change_class.go:130-157 | Hot apply if and only if the configs differ and agree once the hot fields are blanked |
| `ConfigChange.RouteIff` | internal/config/change_class.go:56-91 | A restart exactly if the daemon address, the adapter or the MITM default changes; else a rebind exactly if an address, a port or a listener place does; hot apply exactly if the configs differ and taking over seven named fields makes them equal |
| `ConfigChange.UnmovedIsSame` | internal/config/change_class.go:94-108 | Equal size and one-way containment of the listener maps mean the same listeners at the same addresses |
| `ConfigChange.ClassifyIsSymmetric` | internal/config/change_class.go:56-78 | The route does not depend on the direction of the change |
| `ConfigChange.DetourIsNoCheaperIff` | internal/config/change_class.go:56-78 | The straight route is at most the worse of two legs, except exactly when the detour returns to its start by hot fields alone |
| `ConfigChange.DetourIsNoCheaper` | internal/config/change_class.go:56-78 | For two different configs the straight route is at most the more disruptive of the two legs |
| `ConfigChange.HotRoundTrip` | internal/config/change_class.go:56-78 | Changing the default model and back: both legs are hot, the unchanged config reloads; an input on which the detour is cheaper |
| `CoerceJson.IndexOfFirstJsonDelim` | internal/adapter/jsonschema.go:128-135 | The first opening delimiter, or none |
| `CoerceJson.IndexOfLastJsonDelim` | internal/adapter/jsonschema.go:137-145 | The last closing delimiter, or none |
| `CoerceJson.CoerceJson` | internal/adapter/jsonschema.go:102-126 | Trimming, unfencing and cutting at the delimiters, as the three laws below say |
| `CoerceJson.FenceIsRemoved` | internal/adapter/jsonschema.go:108-117 | Delimited JSON comes out of a json, JSON or plain code fence with any blanks around |
| `CoerceJson.ProseIsRemoved` | internal/adapter/jsonschema.go:118-125 | Delimited JSON comes out of unfenced prose without an opening delimiter before it or a closing one after it |
| `CoerceJson.CoercedIsPart` | internal/adapter/jsonschema.go:102-126 | The result is a contiguous part of the text |
| `TextSpaces.SpacesSpelled` | internal/adapter/jsonschema.go:102-107 | The characters trimmed, by code point: Unicode White_Space |
| `CoerceJson.IdempotentIff` | internal/adapter/jsonschema.go:102-126 | Doing it twice changes nothing, except exactly on text whose outer fence holds a text that starts with a fence again and has no opening delimiter |
| `CoerceJson.OpenedResultIsStable` | internal/adapter/jsonschema.go:102-126 | A result that starts with an opening delimiter is stable |
| `CoerceJson.NestedFence` | internal/adapter/jsonschema.go:108-117 | A fence inside a fence: an input on which doing it twice changes the result |
| `ProviderList.ParseProviders` | internal/config/load.go:860-897 | An error exactly for an invalid name or all mixed with others; else all alone, or the names given, each once, valid and sorted |
| `ProviderList.ParseIsIdempotent` | internal/config/load.go:860-897 | Normalising again changes nothing |
| `ProviderList.FieldsSplit` | internal/config/load.go:899-903 | Comma, space, tab, line feed and carriage return part a list anywhere, and leave no empty names |
| `ProviderList.OneFieldSpelled` | internal/config/load.go:899-903 | Text without any of these is one name |
| `ProviderList.NamesSpelled` | internal/config/load.go:909-927 | The characters of a name, one by one, lower-casing applied before |
| `ProviderList.AllSpelled` | internal/config/load.go:885-894 | Nothing named, or the word all any number of times, is all |
| `UsageThresholds.Compact` | internal/config/load.go:953-963 | Compacting a sorted array in place keeps every NaN, and after them each number once, in order |
| `UsageThresholds.NormalizeThresholds` | internal/config/load.go:941-963 | An error exactly if some value is at most 0 or at least 100, which NaN is not; else every NaN of the input and after them its numbers, each once, increasing |
| `UsageThresholds.RefusedIff` | internal/config/load.go:946-950 | Refused if and only if some value is a number at most 0 or at least 100, or an infinity |
| `UsageThresholds.InRangeIff` | internal/config/load.go:945-950 | Every value that comes out lies between 0 and 100 if and only if no NaN went in |
| `UsageThresholds.IncreasingIff` | internal/config/load.go:953-963 | The result is strictly increasing if and only if no NaN went in or the input has one element |
| `UsageThresholds.NanComesThrough` | internal/config/load.go:945-963 | Two NaN come out as two NaN: an input on which the range and the order fail |
| `UsageThresholds.ThresholdsAreIdempotent` | internal/config/load.go:941-963 | Normalising again changes nothing, NaN or not |
| `CaptureRetention.CaptureStoreConfig.ApplyDefaults` | internal/config/mitm_retention.go:33-60 | Defaults fill only zeros that the config left out, once; the verdict is that of the filled settings |
| `CaptureRetention.ApplyTwice` | internal/config/load.go:225-236 | The loader applies the defaults twice: the second time changes nothing and gives the same verdict |
| `CaptureRetention.ExplicitZeroSurvives` | internal/config/mitm_retention.go:33-60 | A zero that the config spells out survives, any other becomes the default, for age, bytes and interval alike; filling again changes nothing |
| `CaptureRetention.DefaultsSpelled` | internal/config/mitm_retention.go:37-45 | A default is seven days, five billion bytes or one second, and replaces a zero only; nothing else changes |

## Left out

- HTTP, zstd, JSON marshalling, SSE framing of outgoing frames, logging, clocks, headers and correlation: emission is appending to a sequence, and outcomes of library calls are parameters.
- The sha256 digest of the catalog text, and the terminal and error class tables, which would only add easy members.
- `BuildResponsesResponse`, the finish reason table and the usage detail test: the terminal status and a missing detail are parameters of `Finish`.
- Compaction planners, transformers and the recovery registry: what they find in a request, and whether a transformer changed an answer, are parameters; an injection that changes nothing claims nothing, and whether the registry still had a reservation when it was settled is not modelled.
- UTF-8 validation in JSON strings, which the parser does not do either.
- ResponsesWriter.ResponsesStreamWriter.Finish: logprobs, annotations, roles and the echo of request parameters are not part of the items.
- ResponsesDispatch.DispatchStream: the provider is the events it emits and how it ends; it stops at the first event that cannot be sent.
- PassthroughForward.Forwarder.Forward: one object stands for one forward; redaction and the request side of a capture row are not modelled.
- ContextTracker.ContextUsageTracker.Track: integers are unbounded, so that overflow of a 64-bit sum is not modelled; the lock makes every interleaving a sequence of calls.
- CatalogFingerprint.ModelCatalogText: with repeated aliases the code's sort may order them either way; the model takes one of the orders.
- ConfigChange.HotApplyIff: fields that are only compared as a whole stand as one optional text each.
- CoerceJson.CoerceJson: text is a sequence of characters; ill-formed UTF-8 is not modelled.
- ProviderList.ParseProviders: lower-casing is a parameter, a mapping of characters; the entries of all lists are visited in one loop.
- The rest of config loading: `normalizeMITMCaptureDir` strips one trailing directory per call and is not idempotent; only the listed normalisers are claimed to be.
