# Verification model of the OpenSpace core state machines

This project models, in Dafny, the parts of the repository whose correctness is
about sequences of calls: the streaming stack of the AI providers, the settings
store with its watcher thread, the keychain secret store, the key binding
grammar, the migration runner, the write-transaction retry loop, the agent
loop's budget, and the theme store with its per-window cache. `dafny verify
dfyconfig.toml` checks all of it.

Each operation that updates an object in place is a method of a class with the
same fields, proved equal to a specification function of the old state; the
properties the repository promises are then proved about that function, over
every input, run or interleaving. JSON, TOML and lossy UTF-8 decoding, the
database's SQL, a mutator, and every failure of a backend are parameters:
nothing is assumed of them unless a lemma says so.

| file | models |
|---|---|
| `Accumulator.dfy` | the tool-call reassembler, its buffer and resumable brace scanner |
| `JsonText.dfy` | RFC 8259 object texts and what the scanner makes of them |
| `Sse.dfy` | the server-sent-events line and event parser |
| `AiEvents.dfy`, `ChatStream.dfy` | the pump of the chat-completions adapter |
| `ChatContent.dfy` | what a consumer of that stream is told, against the payloads themselves |
| `JsonNl.dfy` | the alternative adapter's newline-delimited stream |
| `SettingsProtocol.dfy` | edits, watcher and external writers as interleaved steps |
| `SettingsStore.dfy` | the settings store's methods, each equal to a run of that protocol |
| `SortedStrings.dfy`, `Keyring.dfy` | the keychain store and its index |
| `KeyBinding.dfy` | the key binding parser and printer |
| `Migration.dfy` | discovery and application of numbered migrations |
| `RetryLoop.dfy` | the busy-retry loop of write transactions |
| `Budget.dfy` | saturating usage totals and budget exhaustion |
| `Themes.dfy`, `Windows.dfy` | theme reload events, and the windows that live off them |
| `Prelude.dfy` | options, results, bytes, 32-bit integers, trimming, decimal |

## Where the code and its documentation differ

The model follows the code. For each difference a lemma gives a run or an input
that shows it, and where a promise is concerned another gives the exact condition
under which it holds.

- `provider.rs:519-520` says nothing is emitted after an error. Events decoded
  from the same chunk ahead of the malformed payload are emitted after it
  (`ChatStream.EventAfterError`); the promise holds exactly when there are none
  (`ChatStream.ErrorIsLastExactlyWhen`). What every stream brings, whatever its
  chunking, is `ChatStream.EveryStream`.
- `sse.rs:22-24` says payloads are joined "per the spec". An empty first payload is
  dropped together with its line break, so `data:` then `data: a` gives `a`
  (`Sse.EmptyFirstPayloadIsDropped`), a lone `data:` gives no event, and a line that
  is just `data` counts for nothing. The result is the standard's exactly when no
  line is a bare `data` and the first payload is not empty
  (`Sse.JoinsAsTheStandardExactlyWhen`).
- `accumulator.rs:246-249`: the scanner resumes only after a successful take; one
  whose payload fails to parse leaves the rest of the buffer unscanned until the
  next append (`Accumulator.ParseErrorHidesNextCall`,
  `Accumulator.ResumesExactlyWhenParsed`); an append of nothing after each take
  recovers everything (`Accumulator.NothingIsLost`).
- The scanner's depth saturates at 2^32 - 1. An object is extracted at its own
  closing brace exactly when it nests no deeper (`JsonText.CompletesAtOwnBrace`);
  `JsonText.DeepObjectIsCut` builds texts that are cut.
- `settings_store.rs`: an external write between an edit's rename and its publish
  leaves snapshot and file apart with nothing pending
  (`SettingsStore.WriteInTheWindowIsMissed`), and a reload that read an old file
  and publishes late makes the next edit drop an earlier one
  (`SettingsStore.LateReloadLosesAnEdit`). Exact conditions:
  `SettingsProtocol.AgreesExactlyWhenNoticed` and
  `SettingsProtocol.DraftsFromDiskExactlyUnlessLate`. Besides the window write,
  snapshot and file also stay apart after a write between loading and watching
  (`SettingsStore.WriteBeforeWatchingIsMissed`), and after a read that fails
  although the file exists (`SettingsStore.FailedReadIsMissed`).
- `keyring_secret_store.rs:296-297` says the index never advertises a key whose
  value is gone. It does after a failed index write
  (`Keyring.DeleteCanAdvertiseInVain`); `Keyring.DriftsExactlyWhen` gives the
  condition on the failing backend calls, and `Keyring.DriftIsExactly` the
  disagreeing keys after any run. The matching remark on `set` (`:258-260`) is true
  (`Keyring.SetNeverAdvertisesInVain`).
- `migration.rs:21-22` speaks of positive version numbers; zero and negative ones are
  accepted. A fresh database is refused when all versions are negative; otherwise
  it is migrated and the scripts of version zero or less are passed over in silence
  (`Migration.FreshDatabase`).
- `theme/src/lib.rs:667-669`: a reload that creates the active theme sends no
  active-theme event, so windows keep the old look
  (`Windows.CreatedActiveThemeIsMissed`, `Windows.CatchesUpExactlyWhen`).
- `keybinding.rs`: a directly built binding whose literal character is upper-case,
  blank or `+` does not survive printing and parsing
  (`KeyBinding.RoundTripsExactly`, `KeyBinding.UpperCaseIsFolded`);
  parser-produced ones always do. The documentation of `Key` (`:183-186`) says that
  printing `Key::Char('A')` emits `a`; the code emits `A`, and it is the parser that
  folds it.
- `sql.rs:82-93` strips the marker of a "not found" or "conflict" error
  repeatedly, so a message that itself starts with the marker is shortened
  (`RetryLoop.MarkedErrorsArriveExactlyWhen`, `RetryLoop.StutteredMarkerIsLost`).

## Model

| member | source | states |
|---|---|---|
| Accumulator.ToolCallAccumulator.Append | crates/ai-providers/src/accumulator.rs:211-214 | appending a fragment resumes the scan: every field afterwards is that of scanning the longer buffer from the saved position; with the invariant that `object_start` is set exactly inside an object, so the scanner's `expect` cannot fire |
| Accumulator.ToolCallAccumulator.IsComplete | crates/ai-providers/src/accumulator.rs:220-222 | complete exactly when an object is queued |
| Accumulator.ToolCallAccumulator.TakeFinished | crates/ai-providers/src/accumulator.rs:241-252 | hands out the queued object's validated call or error, cuts the buffer behind it, and rescans only after a successful parse |
| Accumulator.ToolCallAccumulator.Advance | crates/ai-providers/src/accumulator.rs:254-313 | the resumable scanning loop stops at the first completed object or the end of the buffer, and is idle while one is queued |
| Accumulator.ToolCallAccumulator.ScanNext | crates/ai-providers/src/accumulator.rs:262-312 | one character's transition, keeping the field invariant |
| Accumulator.AppendIsAdditive | crates/ai-providers/src/accumulator.rs:211-214 | two appends leave every field as one append of the joined text, also while a call is queued |
| Accumulator.Conservation | crates/ai-providers/src/accumulator.rs:211-313 | over every schedule of appends and takes: raws taken, object queued and text still to scan together make up the one-shot extraction of all input |
| Accumulator.TakenIsPrefix | crates/ai-providers/src/accumulator.rs:211-313 | the raws taken and queued, invalid ones included, are always a prefix of the one-shot extraction |
| Accumulator.OutcomesMatchRaws | crates/ai-providers/src/accumulator.rs:241-252 | the takes report, in order, exactly the validation of the raws taken |
| Accumulator.TakeAnswers | crates/ai-providers/src/accumulator.rs:241-252 | a take of a queued payload succeeds if and only if it decodes with a non-empty id and a non-empty name, and the call then has the payload's id, name and arguments; otherwise the reason is the first of these that failed, and not complete with nothing queued |
| Accumulator.NothingWithheld | crates/ai-providers/src/accumulator.rs:241-313 | if every object of the input parses, then at every point a call is queued or all objects have been taken |
| Accumulator.TakesDrain | crates/ai-providers/src/accumulator.rs:241-313 | enough further takes hand out every object of the input |
| Accumulator.NothingIsLost | crates/ai-providers/src/accumulator.rs:211-252 | for arbitrary payloads, parsing or not, from any point of any schedule: an append of nothing after each take makes enough takes hand out the whole one-shot extraction in order |
| Accumulator.ResumesExactlyWhenParsed | crates/ai-providers/src/accumulator.rs:241-252 | after a take, a following complete object is queued if and only if the taken payload parsed |
| Accumulator.ParseErrorHidesNextCall | crates/ai-providers/src/accumulator.rs:246-249 | with any decoder that rejects the first of two objects, the second stays hidden behind it |
| JsonText.CompletesAtOwnBrace | crates/ai-providers/src/accumulator.rs:262-312 | a well-formed object text is extracted at its own closing brace, whatever its strings and escapes hold, if and only if at most 2^32 - 1 objects nest |
| JsonText.DeepObjectIsCut | crates/ai-providers/src/accumulator.rs:273-277 | every chain of 2^32 or more nested objects is cut off inside |
| JsonText.NeverEarlier | crates/ai-providers/src/accumulator.rs:262-312 | no proper prefix of such a text completes anything |
| JsonText.ValuePasses | crates/ai-providers/src/accumulator.rs:272-308 | any value met inside an object is absorbed and restores the tracked depth up to saturation |
| JsonText.StringPasses | crates/ai-providers/src/accumulator.rs:297-308 | a string literal with any braces, quotes and escapes leaves the depth alone |
| JsonText.ValueBreaks | crates/ai-providers/src/accumulator.rs:273-291 | a value that nests 2^32 - 1 objects or more ends the surrounding object inside it |
| JsonText.StreamExtracts | crates/ai-providers/src/accumulator.rs:262-312 | prose without braces and well-formed objects in turn yield exactly the objects |
| JsonText.SchedulesTakeTheObjects | crates/ai-providers/src/accumulator.rs:211-313 | for every such stream, fragmentation and schedule the raws taken are the objects in order, none withheld |
| JsonText.SchedulesHandOutTheCalls | crates/ai-providers/src/accumulator.rs:330-346 | and the calls handed out are, in order, those in the objects, each with its own id, name and arguments |
| Sse.SseParser.Feed | crates/ai-providers/src/openai_compatible/sse.rs:74-113 | the byte loop with its deferred CR equals feeding byte by byte, across chunk borders |
| Sse.SseParser.NextEvent | crates/ai-providers/src/openai_compatible/sse.rs:118-120 | first in, first out |
| Sse.SseParser.FlushLineBuffer | crates/ai-providers/src/openai_compatible/sse.rs:124-164 | one line's effect on the pending payload and the event queue |
| Sse.FeedConcat | crates/ai-providers/src/openai_compatible/sse.rs:74-113 | feeding two chunks is feeding their concatenation |
| Sse.BlankStutters | crates/ai-providers/src/openai_compatible/sse.rs:90-96 | with nothing pending an extra blank line, as flushed on CR CR LF, is not observable |
| Sse.FeedSimulates | crates/ai-providers/src/openai_compatible/sse.rs:74-164 | from any reachable state the parser queues what splitting and grouping the rest of the input would yield, up to that stutter |
| Sse.ParsesTheReference | crates/ai-providers/src/openai_compatible/sse.rs:74-164 | under every chunking and every schedule of feed and next_event, events handed out and queued are those of the reference that splits the whole input at CRLF, LF or CR and interprets line by line |
| Sse.ParsesTheBlocks | crates/ai-providers/src/openai_compatible/sse.rs:74-164 | and so they are those of a second reference that knows no state: split into lines, cut into blocks at blank lines, one event per block by the joining rule |
| Sse.BlockGivesItsEvent | crates/ai-providers/src/openai_compatible/sse.rs:129-159 | a block's event is its `data:` payloads joined by LF less the empty ones at the front, or none if nothing is left |
| Sse.DataLinesAre | crates/ai-providers/src/openai_compatible/sse.rs:141-159 | a line's payload is the value behind `data:`, with or without one space between them, and other lines have none |
| Sse.JoinsAsTheStandardExactlyWhen | crates/ai-providers/src/openai_compatible/sse.rs:153-159 | the block yields what section 9.2.6 of the standard yields if and only if no line is a bare `data` and the first payload, if any, is not empty |
| Sse.EmptyFirstPayloadIsDropped | crates/ai-providers/src/openai_compatible/sse.rs:155-158 | an input on which the two differ |
| Sse.SplitRecovers | crates/ai-providers/src/openai_compatible/sse.rs:76-111 | that reference gives back the lines of any text written with any mix of the three terminators |
| ChatStream.StreamState.PumpOnce | crates/ai-providers/src/openai_compatible/provider.rs:502-536 | one pump returns the item and successor state of the pump function, and terminates |
| ChatStream.StreamState.ReadChunk | crates/ai-providers/src/openai_compatible/provider.rs:516-525 | feeding and draining one chunk; a malformed payload sets both terminal flags |
| ChatStream.StreamState.DrainEvents | crates/ai-providers/src/openai_compatible/provider.rs:542-578 | drains payloads up to `[DONE]`, an error or the end, queueing exactly the decoded events |
| ChatStream.StreamState.DecodePayload | crates/ai-providers/src/openai_compatible/provider.rs:544-552 | the three outcomes of one payload |
| ChatStream.StreamState.PushChunk | crates/ai-providers/src/openai_compatible/provider.rs:553-575 | choices first, then the usage report |
| ChatStream.StreamState.PushChoices | crates/ai-providers/src/openai_compatible/provider.rs:553-564 | text before tool-call deltas, choice by choice |
| ChatStream.StreamState.PushFragments | crates/ai-providers/src/openai_compatible/provider.rs:559-563 | fragments in order, each updating the id table |
| ChatStream.StreamState.FragmentToEvent | crates/ai-providers/src/openai_compatible/provider.rs:586-617 | id from the fragment, else the cached one, else synthesised; no event for an empty fragment |
| ChatStream.RunFromStart | crates/ai-providers/src/openai_compatible/provider.rs:502-536 | a consumer that keeps pumping receives a function of the upstream alone |
| ChatStream.ExactlyOneTerminal | crates/ai-providers/src/openai_compatible/provider.rs:502-536 | in every run, malformed payloads and transport errors included, exactly one `Done` or error is produced |
| ChatStream.ChunkingIsIrrelevant | crates/ai-providers/src/openai_compatible/provider.rs:502-578 | with no malformed payload before `[DONE]`, every chunking yields the decoded events up to `[DONE]` and one `Done`, or one transport error last |
| ChatStream.EveryStream | crates/ai-providers/src/openai_compatible/provider.rs:502-578 | every stream, malformed payloads and transport errors included: the consumer receives exactly the events up to `[DONE]`, the first malformed payload or the end, in order, and one terminal item they decide, which stands after the events of the chunks before the one with the malformed payload, or last |
| ChatStream.ErrorIsLastExactlyWhen | crates/ai-providers/src/openai_compatible/provider.rs:503-523 | nothing follows an error if and only if the malformed payload's chunk queued no event ahead of it |
| ChatStream.EventAfterError | crates/ai-providers/src/openai_compatible/provider.rs:503-523 | for any good and any malformed payload, each written as a data line and a blank line in one chunk: the error comes out first and the good payload's events after it |
| ChatStream.SlotArrivesUnderItsId | crates/ai-providers/src/openai_compatible/provider.rs:586-617 | argument deltas queued under an id concatenate to the text sent for a slot whenever exactly that slot's fragments resolve to the id, be it sent, cached or synthesised |
| ChatStream.OwnIdExactlyWhen | crates/ai-providers/src/openai_compatible/provider.rs:593-604 | the condition on the fragments themselves: the slot's first fragment resolves to the id and none of its others carries another; no other slot's first resolves to it and none of theirs carries it |
| ChatStream.AllUnderExactlyWhen | crates/ai-providers/src/openai_compatible/provider.rs:593-604 | all of a slot's fragments are under one id if and only if its first one is and none carries another |
| ChatStream.SilentSlotIsSynthesised | crates/ai-providers/src/openai_compatible/provider.rs:587-603 | a slot for which no id is ever sent keeps one synthesised id throughout |
| ChatStream.TextArrivesInEveryChunking | crates/ai-providers/src/openai_compatible/provider.rs:502-617 | for every id and every stream, malformed ones included, the deltas the consumer receives under the id concatenate to the text of the fragments that resolve to it, however the bytes are chunked |
| ChatStream.SlotArrivesInEveryChunking | crates/ai-providers/src/openai_compatible/provider.rs:502-617 | which is the slot's text whenever exactly the slot's fragments resolve to the id |
| ChatContent.ConsumerIsTold | crates/ai-providers/src/openai_compatible/provider.rs:542-617 | every stream in every chunking, malformed ones included: the texts, tool-call deltas and usages the consumer receives are, each in order, the non-empty contents, the fragments with a name or some argument text, and the token counts of the payloads ahead of `[DONE]` or the first malformed one, stated on the payloads' own fields |
| ChatContent.ConsumerIsToldTheEnd | crates/ai-providers/src/openai_compatible/provider.rs:502-552 | and the one terminal item is `Done` at `[DONE]` or the end of the bytes, the decoder's complaint at a malformed payload, or the transport's error |
| ChatContent.DrainStops | crates/ai-providers/src/openai_compatible/provider.rs:542-552 | draining takes payloads up to the first that is `[DONE]` between blanks or malformed, reports that one, and leaves what follows queued |
| ChatContent.DecodedAreTheFirst | crates/ai-providers/src/openai_compatible/provider.rs:542-552 | the payloads ahead of it are exactly those that are neither, decoded |
| ChatContent.PayloadInOrder | crates/ai-providers/src/openai_compatible/provider.rs:553-575 | within a payload the choices keep their order, each with its text ahead of its deltas, and the usage report comes behind them |
| ChatContent.FragmentsTell | crates/ai-providers/src/openai_compatible/provider.rs:586-617 | the deltas are those of the fragments under the id their slot's latest fragment came with, else `call_` and the slot's number, without any table |
| JsonNl.JsonNlParser.Feed | crates/ai-providers/src/anthropic.rs:685-701 | returns the non-blank terminated lines of buffer and chunk, keeps the unterminated rest |
| JsonNl.JsonNlParser.TakeLine | crates/ai-providers/src/anthropic.rs:688-695 | drains the first terminated line and returns its text |
| JsonNl.JsonNlParser.LineText | crates/ai-providers/src/anthropic.rs:690-695 | the line without LF and an optional CR, decoded |
| JsonNl.JsonNlParser.Flush | crates/ai-providers/src/anthropic.rs:706-714 | empties the buffer and returns it unless blank |
| JsonNl.ChatStream | crates/ai-providers/src/anthropic.rs:392-430 | the generator's whole output as a function of the upstream |
| JsonNl.EmitLines | crates/ai-providers/src/anthropic.rs:398-411 | emissions of a run of lines, stopping at the first error or `Done` |
| JsonNl.ChunkingIsIrrelevant | crates/ai-providers/src/anthropic.rs:392-430 | the output depends only on the concatenated bytes: the events of the non-blank lines, trailing partial line included, and one ending; after a transport error, those of the lines completed before it |
| JsonNl.OneEndingAndItIsLast | crates/ai-providers/src/anthropic.rs:392-430 | every stream has exactly one `Done` or error, and nothing after it |
| JsonNl.MapHoldsOpenCalls | crates/ai-providers/src/anthropic.rs:825-894 | the index map holds at each index the latest tool-use start not yet stopped |
| JsonNl.EmitTracksHistory | crates/ai-providers/src/anthropic.rs:398-411 | the stream's map is the one of the events it decoded |
| JsonNl.FragmentGoesToOpenCall | crates/ai-providers/src/anthropic.rs:825-894 | an argument fragment is emitted under that start's id, and ends the stream with an error exactly when there is none |
| JsonNl.LineAdds | crates/ai-providers/src/anthropic.rs:825-894 | after any lines that did not end the stream, what each other kind of line adds: a text its delta, a tool-use start its id and name, a usage its counts, `message_stop` one `Done` and the end, an undecodable line one error and the end, the rest nothing |
| JsonNl.LinesComeBack | crates/ai-providers/src/anthropic.rs:685-714 | the payloads of a text are its lines with something to see in them, each terminated by LF or CR LF, the last one also by nothing |
| SettingsProtocol.TargetIsAlwaysComplete | crates/persistence/src/settings_store.rs:126-191 | at every point of every run written only by edits, crashes and failures included, the file is the complete text of the latest renamed edit or its initial content |
| SettingsProtocol.FailedEditChangesNothing | crates/persistence/src/settings_store.rs:554-583 | in every interleaving in which edits start but none renames, file, snapshot, events, broadcasts and watcher end up as if no edit had been attempted |
| SettingsProtocol.OnlySeenIsPublished | crates/persistence/src/settings_store.rs:288-344 | in every interleaving each snapshot and broadcast value was loaded or was on disk earlier |
| SettingsProtocol.StaleExactlyWhenUnnoticed | crates/persistence/src/settings_store.rs:288-344 | at every point, the snapshot is stale with no reload certain to follow exactly when the run holds an unnoticed change |
| SettingsProtocol.AgreesExactlyWhenNoticed | crates/persistence/src/settings_store.rs:722-768 | whenever no edit is in flight, the watcher idle and no event pending, snapshot and parseable file agree if and only if the run holds no unnoticed change |
| SettingsProtocol.WellTimedIsNoticed | crates/persistence/src/settings_store.rs:554-583 | runs without a write before watching or in the rename-publish window, and without a failed read of an existing file, hold none |
| SettingsProtocol.SnapshotConverges | crates/persistence/src/settings_store.rs:722-768 | the store's promise for such runs, in every interleaving |
| SettingsProtocol.DraftsFromDiskExactlyUnlessLate | crates/persistence/src/settings_store.rs:554-583 | written only by edits, the snapshot an edit drafts from differs from the file exactly when a late reload published it |
| SettingsProtocol.DiskIsTheFold | crates/persistence/src/settings_store.rs:554-583 | while no edit renames a draft taken from a late reload, the file holds the successful mutators applied in lock order |
| SettingsProtocol.EditsAloneAreTheFold | crates/persistence/src/settings_store.rs:554-583 | without a watcher or external writers the file is always that fold |
| SettingsStore.SettingsStore.Load | crates/persistence/src/settings_store.rs:436-490 | fails exactly for an existing file that cannot be read or parsed, or a watcher that cannot start; otherwise starts in an initial protocol state, on the default when the file is absent |
| SettingsStore.SettingsStore.Edit | crates/persistence/src/settings_store.rs:554-583 | one uninterrupted edit is a run of the protocol: success replaces file and snapshot by the draft, failure at any step leaves both |
| SettingsStore.SettingsStore.WriteAtomically | crates/persistence/src/settings_store.rs:126-191 | the target changes only by the rename of a complete temp file |
| SettingsStore.SettingsStore.PerformReload | crates/persistence/src/settings_store.rs:288-344 | read, compare, publish, broadcast as protocol steps |
| SettingsStore.WindowOutcome | crates/persistence/src/settings_store.rs:733-762 | a debounce window takes events off the front of all that were there or arrive during it, in order and losing none, and remembers whether any it took names the file |
| SettingsStore.SettingsStore.DrainWindow | crates/persistence/src/settings_store.rs:733-762 | the draining loop is that window, for any batches of events arriving between its receives |
| SettingsStore.SettingsStore.ReceiveOne | crates/persistence/src/settings_store.rs:749-761 | one receive of it |
| SettingsStore.SettingsStore.DriverTurn | crates/persistence/src/settings_store.rs:730-767 | one turn of the driver coalesces the events of a window, those arriving during it included, into at most one reload |
| SettingsStore.WriteInTheWindowIsMissed | crates/persistence/src/settings_store.rs:569-580 | a run after which snapshot and file differ with nothing pending, for any external write between rename and publish |
| SettingsStore.WriteBeforeWatchingIsMissed | crates/persistence/src/settings_store.rs:442-480 | any differing write between loading and watching leaves snapshot and file apart with nothing pending |
| SettingsStore.FailedReadIsMissed | crates/persistence/src/settings_store.rs:293-306 | a failed read of a changed file leaves them apart with nothing pending, although the comment expects a retry |
| SettingsStore.UnseenWriteIsOverwritten | crates/persistence/src/settings_store.rs:558-580 | an edit that drafts before an external write is reloaded overwrites it, whatever was written |
| SettingsStore.LateReloadLosesAnEdit | crates/persistence/src/settings_store.rs:334-338 | a run after which the file shows only the second of two successful edits |
| Keyring.KeyringSecretStore.ReadIndex | crates/ai-providers/src/keyring_secret_store.rs:199-213 | an absent index is empty, an undecodable one an error |
| Keyring.KeyringSecretStore.WriteIndex | crates/ai-providers/src/keyring_secret_store.rs:217-226 | overwrites the index entry or fails without effect |
| Keyring.KeyringSecretStore.Set | crates/ai-providers/src/keyring_secret_store.rs:247-276 | value, then index read, then sorted index write, each call possibly failing |
| Keyring.KeyringSecretStore.Get | crates/ai-providers/src/keyring_secret_store.rs:278-287 | the stored value, the reserved key refused |
| Keyring.KeyringSecretStore.Delete | crates/ai-providers/src/keyring_secret_store.rs:289-309 | value deleted first, then the index rewritten if it listed the key |
| Keyring.KeyringSecretStore.ListKeys | crates/ai-providers/src/keyring_secret_store.rs:311-313 | the index as stored |
| Keyring.SetEffect | crates/ai-providers/src/keyring_secret_store.rs:247-276 | a set changes only its key; success means stored and listed; the index stays sorted and duplicate-free |
| SortedStrings.BeforeExactlyWhen | crates/ai-providers/src/keyring_secret_store.rs:265-273 | the order of the index: at the first place where two keys differ, the smaller has ended or has the smaller character |
| Keyring.DeleteEffect | crates/ai-providers/src/keyring_secret_store.rs:289-309 | a delete changes only its key; success means gone and unlisted; failure leaves the index as it was |
| Keyring.RefinesOrderedMap | crates/ai-providers/src/in_memory_secret_store.rs:61-96 | on a fault-free backend every response of every run equals the ordered map's, key order included |
| Keyring.ReservedKeyIsRefused | crates/ai-providers/src/keyring_secret_store.rs:252-256 | every operation on the reserved key fails and changes nothing |
| Keyring.GetAnswers | crates/ai-providers/src/keyring_secret_store.rs:278-287 | for every keychain: a lookup reports an unreachable keychain as unavailable and any other failure as a backend error, with its reason; otherwise it returns the stored value or none |
| Keyring.ListingAnswers | crates/ai-providers/src/keyring_secret_store.rs:199-213 | a listing likewise; otherwise the decoded index, empty when there is none, and a backend error when it does not decode |
| Keyring.SetAnswers | crates/ai-providers/src/keyring_secret_store.rs:247-276 | a set reports the first of its calls that fails - value, index read, and index write unless the key is listed already - or the undecodable index, else success |
| Keyring.DeleteAnswers | crates/ai-providers/src/keyring_secret_store.rs:289-309 | a delete likewise, with the index write only if the key was listed |
| Keyring.WritesItsValue | crates/ai-providers/src/keyring_secret_store.rs:261-300 | whatever else fails, the value is stored or removed exactly when its own call goes through |
| Keyring.DriftIsBounded | crates/ai-providers/src/keyring_secret_store.rs:247-309 | over every run with failing calls, index and values disagree only on keys whose latest set or delete failed |
| Keyring.SuccessReconciles | crates/ai-providers/src/keyring_secret_store.rs:247-309 | a successful set or delete brings its key back in step and disturbs no other |
| Keyring.DriftsExactlyWhen | crates/ai-providers/src/keyring_secret_store.rs:247-309 | from any sound state a write leaves its key in disagreement if and only if its value call fails on a key already in disagreement, or the index has to change and the index read or write fails |
| Keyring.DriftIsExactly | crates/ai-providers/src/keyring_secret_store.rs:247-309 | over every run with any failing calls, the disagreeing keys are exactly those whose latest write met such faults, and the index stays sorted and duplicate-free |
| Keyring.OthersKeepTheirAgreement | crates/ai-providers/src/keyring_secret_store.rs:247-309 | no operation, failing or not, touches the agreement of another key |
| Keyring.SetNeverAdvertisesInVain | crates/ai-providers/src/keyring_secret_store.rs:258-260 | a set, failed or not, never newly lists a key without a value |
| Keyring.DeleteCanAdvertiseInVain | crates/ai-providers/src/keyring_secret_store.rs:296-297 | a failed index write during delete does |
| KeyBinding.ParseBinding | crates/shared/src/keybinding.rs:450-514 | the parser with its order of error checks |
| KeyBinding.ParseModifiers | crates/shared/src/keybinding.rs:489-511 | the modifier loop with its unknown and duplicate errors |
| KeyBinding.AcceptsExactly | crates/shared/src/keybinding.rs:450-514 | parsing succeeds if and only if no token is blank, the last is a key and no modifier name, and the others name pairwise distinct flags; it yields that key with those flags |
| KeyBinding.RejectsWith | crates/shared/src/keybinding.rs:450-511 | the error of every rejected input: blank, a blank token, a modifier in the key's place, no key there, or the first modifier token that names none or one named before |
| KeyBinding.ModifierSpellings | crates/shared/src/keybinding.rs:490-496 | exactly the spellings of each modifier |
| KeyBinding.KeySpellings | crates/shared/src/keybinding.rs:601-641 | exactly the spellings of each key: its names, `f` with a number from 1 to 24 in any zero padding, or any single character |
| KeyBinding.LettersFold | crates/shared/src/keybinding.rs:467-490 | exactly the ASCII letters are folded |
| KeyBinding.KeysPrint | crates/shared/src/keybinding.rs:275-317 | the name printed for each key |
| KeyBinding.ModifiersPrint | crates/shared/src/keybinding.rs:522-537 | modifiers are printed in the order ctrl, shift, alt, cmd |
| KeyBinding.OnlyKeyAndFlagsMatter | crates/shared/src/keybinding.rs:573-592 | permuting modifier tokens, swapping aliases and changing ASCII case leave the result the same |
| KeyBinding.TokensOfPadded | crates/shared/src/keybinding.rs:451-465 | whatever whitespace stands around the tokens, blank tokens included, the same tokens come out |
| Prelude.WhitespaceIs | crates/shared/src/keybinding.rs:451-463 | the twenty-five characters that trimming removes |
| KeyBinding.PrintedParses | crates/shared/src/keybinding.rs:517-537 | printing a canonical binding and parsing gives it back |
| KeyBinding.ParsedIsCanonical | crates/shared/src/keybinding.rs:601-641 | whatever the parser accepts is canonical |
| KeyBinding.RoundTripsExactly | crates/shared/src/keybinding.rs:275-317 | a binding survives printing and parsing if and only if it is canonical |
| KeyBinding.UpperCaseIsFolded | crates/shared/src/keybinding.rs:275-317 | a directly built upper-case letter comes back as the lower-case one, under any modifiers |
| KeyBinding.CanonicalStringsDecide | crates/shared/src/keybinding.rs:517-537 | accepted inputs round-trip, and parse equal exactly when their canonical strings are equal |
| Migration.NumberedFileParses | crates/persistence/src/migration.rs:274-286 | a file named by any zero padding, a number below 2^63, an underscore and anything has that number as its version |
| Migration.EntryIsRead | crates/persistence/src/migration.rs:218-252 | a numbered file gives its version, name and text; files of another kind give nothing; one that cannot be opened or read, or has no number ahead of its first underscore, is an error |
| Migration.SqlFilesAre | crates/persistence/src/migration.rs:226-228 | a file counts exactly when something precedes its `.sql` |
| Migration.SignedNumberParses | crates/persistence/src/migration.rs:281-285 | digits with an optional sign are the number they denote if and only if it fits in 64 bits |
| Migration.OnlySignedNumbersParse | crates/persistence/src/migration.rs:281-285 | and nothing else parses |
| Migration.CollectTakesAll | crates/persistence/src/migration.rs:218-252 | reading the directory fails with its first problem, else takes every script in order |
| Migration.DiscoverMigrations | crates/persistence/src/migration.rs:210-271 | the discovery loop and the adjacent-duplicate check, first error wins |
| Migration.DiscoveryIsSound | crates/persistence/src/migration.rs:210-271 | discovery yields every script exactly once in strictly ascending order, and refuses, as a failed migration, exactly the directories in which two scripts share a version |
| Migration.Connection.EnsureMeta | crates/persistence/src/migration.rs:295-321 | creates and seeds the version table, refuses more than one row, any call may fail |
| Migration.Connection.Apply | crates/persistence/src/migration.rs:343-371 | script and version update commit together or not at all |
| Migration.MigrationRunner.CurrentVersion | crates/persistence/src/migration.rs:177-204 | the stored version, or the error of a database newer than the directory |
| Migration.MigrationRunner.Run | crates/persistence/src/migration.rs:164-174 | the loop over the scripts above the stored version |
| Migration.MigrationRunner.PendingMigrations | crates/persistence/src/migration.rs:185-193 | version and file name of every script above the stored version |
| Migration.RunsApplyAPrefix | crates/persistence/src/migration.rs:164-174 | over any number of runs with any calls failing, the scripts applied are a prefix of those pending at the start, the schema is that prefix's, and the stored version its last |
| Migration.AppliedAscends | crates/persistence/src/migration.rs:343-371 | the applied list is strictly increasing, so nothing is applied twice, and the stored version never decreases |
| Migration.UndisturbedRun | crates/persistence/src/migration.rs:164-174 | without failing calls a run succeeds if and only if the version table has at most one row and the stored version is not above every script's, or above 0 without scripts |
| Migration.RefusedExactlyWhen | crates/persistence/src/migration.rs:164-204 | a run without failing calls is refused if and only if the stored version is above every script's, or above 0 without scripts, with an error that names the stored version and a version no other exceeds; otherwise exactly the scripts above the stored version are applied in order and the last one's version is stored |
| Migration.VersionIsRead | crates/persistence/src/migration.rs:177-204 | for any failing calls: which call's failure is reported, busy and locked databases as locked and others as failed migrations, a table of several rows as corrupt; nothing but the version table is touched |
| Migration.MigrationReports | crates/persistence/src/migration.rs:343-371 | which of a migration's four calls failed is what it reports, with the file name unless no transaction could be opened |
| Migration.MigrationIsAtomic | crates/persistence/src/migration.rs:343-371 | the database is as before unless all four calls went through, and then script, version and history are in |
| Migration.FirstSuccessIsOneRun | crates/persistence/src/migration.rs:164-174 | the first successful run leaves the database one uninterrupted run would have left |
| Migration.RunIsIdempotent | crates/persistence/src/migration.rs:159-174 | running again after a success changes nothing |
| Migration.FreshDatabase | crates/persistence/src/migration.rs:164-204 | without failing calls a fresh database is refused if and only if every version is negative; any other run applies exactly the scripts of positive version |
| RetryLoop.TryOnce | crates/persistence/src/sql.rs:53-60 | one transaction: all of its effect or none |
| RetryLoop.WriteTransaction | crates/persistence/src/sql.rs:40-72 | at most 24 pauses; retried exactly while busy within the budget; on success the operation was committed once, on the state its last attempt found, and on failure never |
| RetryLoop.RetriedExactlyWhen | crates/persistence/src/sql.rs:62-71 | another attempt follows if and only if one met a busy or locked database and ended within five seconds, counting pauses of 10, 20, 40, 80, 160 and from then on 250 milliseconds |
| RetryLoop.FirstFailureDecides | crates/persistence/src/sql.rs:53-60 | an attempt succeeds if and only if beginning, operation and commit do, and fails with the first that does not |
| RetryLoop.FoundIsTheirWork | crates/persistence/src/sql.rs:49-60 | each attempt finds what the other writers have made of the start |
| RetryLoop.ErrorsAre | crates/persistence/src/sql.rs:82-110 | what every database error is for the caller, code by code, and marked messages without any of their leading markers |
| RetryLoop.PausesAreBounded | crates/persistence/src/sql.rs:11-13 | an attempt that ends within the budget is at most the 24th, whatever attempts and overruns take |
| RetryLoop.BoundIsTight | crates/persistence/src/sql.rs:49-71 | against an always busy database with instant attempts exactly 24 pauses happen |
| RetryLoop.MarkedErrorsArriveExactlyWhen | crates/persistence/src/sql.rs:28-38 | marked errors keep their message if and only if it does not start with the marker |
| RetryLoop.StutteredMarkerIsLost | crates/persistence/src/sql.rs:82-93 | a message that starts with the marker loses it on the way to the caller |
| Budget.AccumulatedUsage.StartedAt | crates/shared/src/agent.rs:293-301 | both timestamps at the start, all counters zero |
| Budget.AccumulatedUsage.AddUsage | crates/shared/src/agent.rs:305-318 | each token component is added with saturation, the clock bumped |
| Budget.AccumulatedUsage.RecordTurn | crates/shared/src/agent.rs:321-324 | one more turn, saturating |
| Budget.AccumulatedUsage.RecordToolCall | crates/shared/src/agent.rs:327-330 | one more tool call, saturating |
| Budget.TotalIsTheCappedSum | crates/shared/src/agent.rs:359-369 | after any reports the total is min(2^32 - 1, true sum), although each component saturates separately |
| Budget.VerdictIsIdeal | crates/shared/src/agent.rs:160-182 | after any run of updates the check reports what it would on unbounded counters: saturation is never observable |
| Budget.ExhaustionLasts | crates/shared/src/agent.rs:150-182 | with a clock that does not go back an exhausted budget stays exhausted, the dimension only moving towards Turns |
| Budget.ExhaustionEndsExactlyWhen | crates/shared/src/agent.rs:160-182 | for any clock: an update ends exhaustion if and only if only the wall clock was exhausted, old counts plus what it adds stay below every cap, and its timestamp falls back inside a non-zero limit |
| Themes.ThemeStore.SetActiveTheme | crates/theme/src/lib.rs:507-513 | sets the active id and announces it |
| Themes.ThemeStore.List | crates/theme/src/lib.rs:528-538 | bundled themes overlaid by custom ones, in id order |
| Themes.ThemeStore.ReloadThemes | crates/theme/src/lib.rs:648-699 | replaces the custom table, clears a deleted active theme, and broadcasts exactly the reload's events in order |
| Themes.ThemeStore.SendCreated | crates/theme/src/lib.rs:667-669 | one Created per new id, and no active-theme event |
| Themes.ThemeStore.SendReloaded | crates/theme/src/lib.rs:670-683 | Reloaded per changed id, followed by an active-theme event for the active one |
| Themes.ThemeStore.SendDeleted | crates/theme/src/lib.rs:684-698 | Deleted per missing id; the active one is cleared and announced |
| Themes.ListingAgreesWithGet | crates/theme/src/lib.rs:528-547 | the listing holds exactly the themes a lookup by id finds |
| Themes.LoadedIsKeyed | crates/theme/src/lib.rs:566-591 | the custom table is keyed by the id inside each theme, whatever files are found |
| Themes.LoadingExactly | crates/theme/src/lib.rs:566-591 | under every id the theme of the last file with that id, and a diagnostic for every broken file, in order |
| Themes.CustomHidesBundled | crates/theme/src/lib.rs:540-547 | a lookup finds the custom theme with the id, else the bundled one, else none |
| Themes.ReloadSays | crates/theme/src/lib.rs:648-699 | an event is sent if and only if its id appeared, changed or disappeared, and the active theme is announced if and only if its custom file changed or disappeared |
| Themes.ReloadInOrder | crates/theme/src/lib.rs:665-698 | one Created per new id, then one Reloaded per changed id, then one Deleted per missing id, each group in id order, every active-theme event directly behind the event that caused it |
| Themes.ReplayGivesTheNewIds | crates/theme/src/lib.rs:665-698 | replaying a reload's events turns the old id set into the new one |
| Windows.WindowThemeState.FromStore | crates/theme/src/iced_bridge.rs:51-57 | a new window starts on the store's look |
| Windows.WindowThemeState.ApplyThemeChange | crates/theme/src/iced_bridge.rs:64-74 | recomputes only on an active-theme event; returns true exactly when the cache changed |
| Windows.LookIs | crates/theme/src/iced_bridge.rs:76-103 | the look of the store, colour by colour, and the id and name that go with it |
| Windows.SameLookExactlyWhen | crates/theme/src/iced_bridge.rs:86-103 | two themes look the same if and only if they agree on id, name and the rendered tokens |
| Windows.SilentChangeExactlyWhenMissed | crates/theme/src/lib.rs:667-698 | a reload changes the active look unannounced if and only if it puts a differently rendered custom theme under the active id |
| Windows.CatchesUpExactlyWhen | crates/theme/src/iced_bridge.rs:64-84 | after any run of reloads and active-theme changes with all events handled, in any interleaving, the cache equals the store's look if and only if no such reload is still owed a refresh |
| Windows.CatchesUp | crates/theme/src/iced_bridge.rs:64-84 | hence always, when no reload creates the active id |
| Windows.CreatedActiveThemeIsMissed | crates/theme/src/lib.rs:667-669 | a concrete run that leaves a window on the fallback |

## Left out

- Byte offsets: the accumulator's buffer positions count characters, not UTF-8 bytes; all structural characters are ASCII, and no property depends on the width of the others.
- JSON, TOML and lossy UTF-8 decoding are parameters; only the settings and keyring codecs are required to decode what they encoded, where a lemma says `Lawful`.
- `JsonText.Json` accepts more scalar tokens than RFC 8259 has numbers and literals; the lemmas therefore cover every RFC text and some others. Prose between objects excludes `{`, which the scanner cannot tell from an object.
- Error texts are shortened where they only interpolate names and causes (keyring, migration, SQL, I/O), and the provider id inside provider errors is omitted.
- Scripts that themselves write the version table or commit are not modelled.
- `migration.rs` file names that are not UTF-8, and a directory that cannot be opened, are not told apart from other unreadable entries.
- Settings: fsync and power loss (the rename is atomic and durable), temp file names and leftovers of earlier failures, and lagging subscribers. Rename and external write each raise one event, which may be consumed before the writer continues; further events may arrive at any time. The debounce window is nondeterministic: it may take in any number of events.
- Cancellation: a caller that drops an `edit` future while its blocking write still runs (settings_store.rs:558-573) releases the write lock before the rename; in the model the lock is held until the write has ended.
- Concurrent callers of one keychain store, which takes no lock (two `set` calls can lose an index entry), and of two migration runners on one database, which read the version outside the migration's transaction: operations run one at a time.
- Settings actions that are not enabled leave the state unchanged, so every sequence of actions is a run, and stopping anywhere stands for a crash there.
- SettingsProtocol.SnapshotConverges: needs, besides the window condition, that nothing writes the file between loading and watching and that no read of an existing file fails, because the code recovers from neither; `AgreesExactlyWhenNoticed` states the exact condition without these.
- SettingsStore.SettingsStore.DriverTurn: models a turn no edit interleaves with; those interleavings are those of `SettingsProtocol`. Thread shutdown and event errors are left out (an errored event is an irrelevant one).
- Key names F1 to F24 are one constructor with a number from 1 to 24.
- RetryLoop: a commit either takes effect or fails without effect, the operation is a function of the database it is given, and time is what the attempts and pauses take. `IoError` texts of SQL errors are those of the error itself.
- Budget: timestamps are integers of one unit, so sub-unit rounding and chrono's range are not modelled.
- Themes: colour and theme parsing, diagnostics' message texts, the conversion of colours to floats (it is injective on bytes), the watcher thread and its debounce, and broadcast lag. Runs are sequential: a reload and its events are one step, and the window handles events between steps.
- The HTTP clients, request building, catalogues, capability checks and error maps, the SQL repositories, the sandbox, tool and agent registries, redaction, logging and the UI crates: thin wrappers, tables and I/O that would only add easy members.
