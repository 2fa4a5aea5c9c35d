# Verified models of the agent's hard cores

A Dafny model of five parts of the repository, each with proofs about all of its inputs, runs or interleavings.

- **OAuth** (`OAuthRefresh`, `Coalescer`, `DeviceLogin`). The refresh protocol as a step relation: any number of calls
  in any number of processes share a token file, a lock and a server that rotates refresh tokens. A history variable
  records disturbances (a reply lost after the server accepted, a request that arrives late, a crash or failed save
  after the exchange, a lock broken under its holder, a login or logout during a refresh); the safety theorems hold
  for runs without them, and a witness run shows that each exclusion is needed. The in-process coalescer and the polling loop of the device
  login are classes proved against step functions.
- **Bytes, lines and paths** (`Lines`, `Utf8`, `TextFile`, `Glob`). Chunked line reading through a reused buffer, the
  backward tail scan, the line-ending flags, the streaming UTF-8 automaton and the lookahead decoder refine plain
  descriptions on the whole file; the glob walk on a directory graph with cycles yields exactly the selected paths.
- **Streamed messages** (`Sequences`, `Generate`). The assembler with one pending part and an index map equals one
  buffer per tool call, and loses no character and no signature.
- **The ACP adapter** (`AcpSession`, `AcpReplay`). A prompt's event stream against one buffer per wire-level call, as a
  client that applies REPLACE updates sees it, and the replay of a stored history under failing pushes.
- **Provider configuration** (`CredentialSlot`, `ProviderConfig`, `ProviderRuns`, `ModelRefresh`, `RegistryRefresh`) and the
  remote command line (`ShellCommand`). Edits in place against an alias-by-alias description, sequences of edits,
  refreshes, the agreement of the credential slot between login and runtime, and the quoting round trip.

Code that works by changing fields, buffers or loop variables is a class or a method here, proved against functions
on values; the theorems are lemmas about those functions. The network, clocks, files and other processes are
parameters: a chunking of the file, a script of answers and clock readings, a list of steps in any order, a function
that says which pushes succeed. `dafny verify dfyconfig.toml` checks everything.

Five promises turn out not to hold on all inputs. For each the model says on which inputs it holds, and shows one on
which it does not:

- an always-thinking default loses thinking after a managed refresh (`ModelRefresh.ManagedThinkingLostIff`,
  `ModelRefresh.RepeatedIdLosesThinking`) or an open-platform refresh (`ModelRefresh.OpenThinkingLostIff`,
  `ModelRefresh.FirstOpenRefreshLosesThinking`);
- a client is shown another turn's arguments when a raw tool-call id returns to an earlier turn
  (`AcpSession.ClientIsExactIff`, `AcpSession.BackwardTurnShowsOtherText`);
- a replayed result goes out without its card when the CREATE before it failed (`AcpReplay.UpdateLacksCardIff`,
  `AcpReplay.LostCreateLeavesResult`);
- the runtime misses the slot of a login whose host normalises differently the second time
  (`CredentialSlot.SlotAgreesIffSettled`, `CredentialSlot.SettledIff`, `CredentialSlot.UnsettledHostMovesSlot`), or whose
  request contradicts the environment (`CredentialSlot.SlotAgreesIffRequestIsEnvironment`,
  `CredentialSlot.ContraryRequestMovesSlot`);
- adding a platform leaves the default dangling when the selected model is not in its catalogue
  (`ProviderRuns.AddPlatformWellFormedIff`, `ProviderRuns.UnlistedSelectionDangles`).

## Model

| member | source | states |
|---|---|---|
| OAuthRefresh.RefreshIsSafe | packages/oauth/src/oauth-manager.ts:284-398 | In every interleaving of any number of `doEnsureFresh` calls without disturbance: one call in the critical section; the stored refresh token is the server's live one except between exchange and save; a tombstone only after a server-side revocation; no spent token is ever presented |
| OAuthRefresh.TombstonePersists | packages/oauth/src/oauth-manager.ts:284-398 | A stored tombstone is left byte for byte by every run until a login or logout, whatever else goes wrong in it |
| OAuthRefresh.OneForcedExchangePerSnapshot | packages/oauth/src/oauth-manager.ts:316-354 | A forced call presents only its pre-lock snapshot, and of all forced calls with one snapshot at most one exchange is accepted |
| OAuthRefresh.LateForcedCallReturnsStoredToken | packages/oauth/src/oauth-manager.ts:316-354 | A forced call whose snapshot has been spent releases the lock with the stored access token (or as unauthorized on a tombstone) and never goes to the server |
| OAuthRefresh.ReturnedTokenIsIssuedOrRead | packages/oauth/src/oauth-manager.ts:284-398 | In every run, disturbed or not, a call that returns a token returns the access token issued to this very call, which it saved, or, without an exchange, that of the token file at its last read |
| OAuthRefresh.FailureIsExplained | packages/oauth/src/oauth-manager.ts:284-398 | A call is unauthorized only if it read no token or a tombstone, had no refresh token to show, or was rejected and recorded that with scope and type kept; it fails otherwise only by a failed lock, request, read or write |
| OAuthRefresh.StartDecides | packages/oauth/src/oauth-manager.ts:284-306 | A call waits for the lock exactly when there is a token and it is forced or neither five minutes nor half the token's life are left |
| OAuthRefresh.RecheckDecides | packages/oauth/src/oauth-manager.ts:316-361 | Under the lock: a forced call exchanges its own snapshot or nothing, an unforced one the stored token if it is not fresh enough, and a missing file falls back to the snapshot |
| OAuthRefresh.RecoverDecides | packages/oauth/src/oauth-manager.ts:371-392 | After a rejection another token found on disk is returned, and otherwise the rejection is recorded |
| OAuthRefresh.ExchangeIsRecorded | packages/oauth/src/oauth-manager.ts:363-366 | The history of what was shown to the server: an exchange is accepted exactly when the server rotated away the live token |
| OAuthRefresh.LoginAndLogout | packages/oauth/src/oauth-manager.ts:246-248 | A login stores its token and retires the server's; a logout only removes the file |
| OAuthRefresh.StoredTokenIs | packages/oauth/src/token-state.ts:28-34 | A stored token is missing, a tombstone if its access token is empty, or valid |
| OAuthRefresh.ProcStepKeepsInv | packages/oauth/src/oauth-manager.ts:284-398 | Every step of every call, one `await` at a time, keeps the protocol's invariant |
| OAuthRefresh.RunKeepsInv | packages/oauth/src/oauth-manager.ts:284-398 | The invariant holds after every finite run from an initial state as long as nothing disturbed it |
| OAuthRefresh.LostReplyBreaksSafety | packages/oauth/src/oauth-manager.ts:363-396 | Needed exclusion: with a lost reply a spent token is presented and a tombstone written without a revocation |
| OAuthRefresh.LateArrivalBreaksSafety | packages/oauth/src/oauth-manager.ts:363-396 | Needed exclusion: with a request that reaches the server after its call has given up, a spent token is presented |
| OAuthRefresh.CrashBeforeSaveBreaksSafety | packages/oauth/src/oauth-manager.ts:363-396 | Needed exclusion: with a crash between exchange and save a spent token is presented |
| OAuthRefresh.FailedSaveBreaksSafety | packages/oauth/src/oauth-manager.ts:363-396 | Needed exclusion: with a failed save a spent token is presented |
| OAuthRefresh.BrokenLockBreaksSafety | packages/oauth/src/oauth-manager.ts:316-354 | Needed exclusion: with a lock broken under its holder a spent token is presented |
| OAuthRefresh.LoginRaceLosesNewLogin | packages/oauth/src/oauth-manager.ts:316-334 | Needed exclusion: a login racing with a refresh can end with its token spent |
| OAuthRefresh.LogoutRaceRestoresToken | packages/oauth/src/oauth-manager.ts:316-334 | Needed exclusion: a logout racing with a refresh can be undone, because a missing token falls back to the snapshot |
| Coalescer.Manager.EnsureFresh | packages/oauth/src/oauth-manager.ts:254-282 | A call joins the run in the slot, queues behind it when it is forced and the run is not, or starts a run and takes the slot |
| Coalescer.Manager.Finally | packages/oauth/src/oauth-manager.ts:272-279 | A settled run leaves the slot empty and wakes exactly the calls queued behind it; the guard never finds another run there |
| Coalescer.CallDecides | packages/oauth/src/oauth-manager.ts:254-281 | A call starts a run if there is none, joins the run there is if it may, and queues behind it exactly when it is forced and the run is not |
| Coalescer.SettlementDecides | packages/oauth/src/oauth-manager.ts:264-279 | A run that settles leaves none in flight and wakes exactly the calls behind it |
| Coalescer.SingleFlight | packages/oauth/src/oauth-manager.ts:254-282 | In every order of calls and settlements: at most one run in flight, named by the slot; a forced call only shares forced runs; nobody waits for a run that is gone |
| Coalescer.WokenShareOneRun | packages/oauth/src/oauth-manager.ts:264-281 | However many forced calls queued behind a run, one new forced run serves them all |
| Coalescer.QueuedCallGetsLaterRun | packages/oauth/src/oauth-manager.ts:264-270 | A queued forced call is only ever answered by a forced run that started after the call was made |
| DeviceLogin.Manager.Login | packages/oauth/src/oauth-manager.ts:406-457 | The outer loop asks for codes until one settles the login, and the token is stored exactly on success |
| DeviceLogin.PollOneCode | packages/oauth/src/oauth-manager.ts:418-450 | The inner loop polls one code, with a longer pause each time the server asks for it |
| DeviceLogin.CodeFollowsScript | packages/oauth/src/oauth-manager.ts:418-450 | Polling with one code asks once in each turn, until an answer that is not pending, an abort or the deadline, and ends in the way of whichever came first |
| DeviceLogin.LoginFollowsCodes | packages/oauth/src/oauth-manager.ts:410-457 | A login goes on to another code exactly when the last one expired before the deadline, and ends as its last code did |
| DeviceLogin.StartIntervalIsMaximum | packages/oauth/src/oauth-manager.ts:416-416 | The first interval is the larger of the code's own and one second |
| DeviceLogin.TimeoutIsRoundedUp | packages/oauth/src/oauth-manager.ts:407-408 | The timeout is rounded up to whole seconds |
| DeviceLogin.PollsAreTimely | packages/oauth/src/oauth-manager.ts:406-450 | Every poll starts strictly before the deadline; the pause after a pending answer is max(interval, 1) plus 5 per `slow_down` so far on that code (section 3.5 of RFC 8628) |
| DeviceLogin.PendingPollsAreBounded | packages/oauth/src/oauth-manager.ts:406-450 | With a clock that advances by every sleep, pending polls number at most the timeout in seconds |
| DeviceLogin.SlowDownPollsFit | packages/oauth/src/oauth-manager.ts:418-449 | If every answer on a code is `slow_down`, n polls need (n-1)I + 5n(n-1)/2 to be less than the timeout |
| Lines.LineSplitIsUnique | packages/kaos/src/local.ts:771-783 | The terminated pieces of a sequence are its lines: there is exactly one such split |
| Lines.LineCount | packages/kaos/src/local.ts:490-526 | The number of lines is the number of line feeds, and one more for an unterminated rest |
| Utf8.CharLenIsGrammar | packages/kaos/src/internal.ts:7-82 | The decoder's byte ranges are those of one character in section 4 of RFC 3629 |
| Utf8.DecodeChar | packages/kaos/src/internal.ts:7-82 | A character of the grammar decodes to a scalar value that encodes to the same bytes |
| Utf8.EncodeIsChar | packages/kaos/src/internal.ts:7-82 | Every scalar value encodes to one character of the grammar, which decodes to it |
| Utf8.RecogniseAt | packages/kaos/src/internal.ts:7-82 | The lookahead finds the length of the character at an offset, or none |
| Utf8.DecodeUtf8Ignore | packages/kaos/src/internal.ts:7-82 | The index-driven loop computes the dropping decoder |
| Utf8.DecodeUndoesEncode | packages/kaos/src/internal.ts:7-82 | Decoding inverts encoding on every sequence of scalar values |
| Utf8.EncodedIsOctets | packages/kaos/src/local.ts:811-862 | Every encoded text is in the grammar, and the validator accepts it |
| Utf8.DropsNothingIffOctets | packages/kaos/src/internal.ts:7-82 | Re-encoding the decoded text returns the input if and only if the input is in the grammar |
| Utf8.DecodeSplitsAtLineFeed | packages/kaos/src/internal.ts:7-82 | Decoding distributes over a split just after a line feed, on malformed input too |
| Utf8.DecodeLineByLine | packages/kaos/src/local.ts:616-638 | Decoding the byte-lines one by one and joining is decoding the whole file |
| Utf8.ValidatorIsGrammar | packages/kaos/src/local.ts:811-862 | The validator's automaton accepts exactly the byte sequences of the grammar |
| Utf8.Utf8Validator.Write | packages/kaos/src/local.ts:815-853 | One chunk advances the automaton over exactly its bytes, or throws when no continuation can be valid |
| Utf8.Utf8Validator.End | packages/kaos/src/local.ts:855-861 | The end is accepted if and only if all bytes written form a text of the grammar |
| Utf8.RejectedIsNotOctets | packages/kaos/src/local.ts:815-853 | A rejected prefix has no valid continuation |
| TextFile.ReadUtf8Lines | packages/kaos/src/local.ts:588-643 | However the file is cut into chunks in the one reused buffer, the lines handed to the decoder are the byte-lines of the file in the asked range, each with its true offset |
| TextFile.ReadUtf8Text | packages/kaos/src/local.ts:588-643 | With any decoder the reader yields the texts of those lines, told for each whether it starts the file, up to the first that the decoder rejects |
| TextFile.LineReader.TakeChunk | packages/kaos/src/local.ts:607-631 | One chunk extends what was read by its bytes, with the incomplete line copied out of the buffer, or the asked range is complete |
| TextFile.LineReader.Finish | packages/kaos/src/local.ts:634-639 | At the end of file the rest, if any, is the last line |
| TextFile.LineEndingFlags.Update | packages/kaos/src/local.ts:785-809 | Across chunk boundaries the flags say whether CRLF, a bare LF, and a CR followed by something else have occurred |
| TextFile.LoneCrIs | packages/kaos/src/local.ts:490-526 | A lone CR is a CR before another byte, or a CR at the end of the file |
| TextFile.ScanTextFile | packages/kaos/src/local.ts:490-526 | The scan succeeds exactly on valid text; its line count is the number of lines and its flags are exact for the whole file |
| TextFile.ScanBlock | packages/kaos/src/local.ts:558-577 | Scanning a block backwards counts its line feeds from the right and stops at the wanted one |
| TextFile.TailOffset | packages/kaos/src/local.ts:552-579 | For every block size the backward scan finds a start that leaves the wanted number of line feeds |
| TextFile.TailStartBeginsLastLines | packages/kaos/src/local.ts:540-586 | From that start the file holds exactly its last min(n, total) byte-lines, terminated or not |
| TextFile.SplitLinesKeepingTerminator | packages/kaos/src/local.ts:771-783 | The text splitter yields the lines of the text |
| TextFile.TextLinesAreDecodedLines | packages/kaos/src/local.ts:580-582 | The lines of the decoded text are the decoded byte-lines, except that an empty one is dropped |
| TextFile.ReadTailLines | packages/kaos/src/local.ts:540-586 | With any decoder the tail reader decodes exactly the bytes of the last lines, told whether they are the whole file, and splits the text again; an error of the decoder is passed on |
| TextFile.IgnoringTailIsDecodedLines | packages/kaos/src/local.ts:580-582 | In the dropping mode those are the decoded last byte-lines without an empty one |
| TextFile.UndecodableLastLine | packages/kaos/src/local.ts:540-586 | The two readers differ: an unterminated last line that decodes to nothing is dropped by the tail reader and is an empty line for the other |
| Glob.EnterShrinks | packages/kaos/src/local.ts:391-441 | Entering a directory with a fresh key uses up one of the finitely many keys, so symlink cycles end |
| Glob.WalkYieldsSelected | packages/kaos/src/local.ts:331-445 | From a root the walk yields exactly the paths that match the pattern and descend through directories no two of which agree in device and nonzero inode |
| Glob.WalkIsDistinct | packages/kaos/src/local.ts:331-445 | With at most one `**` and distinct names in each directory no path is yielded twice |
| Glob.TwoStarsRepeat | packages/kaos/src/local.ts:331-445 | With two `**` a path can be yielded twice |
| Glob.LocalWalkIsSshWalk | packages/kaos/src/ssh.ts:634-705 | On link-free trees the walk with visited keys yields, in order, what the walk without them yields |
| Glob.SshWalkSkipsDots | packages/kaos/src/ssh.ts:660-705 | The SSH walk takes no notice of `.` and `..` in its listings |
| Glob.GlobAgreesWithSsh | packages/kaos/src/local.ts:294-329 | So both globs agree on such trees, from the root on, whether or not the listings hold the dots |
| Glob.GlobWalk | packages/kaos/src/local.ts:331-445 | The recursive generator with its loops yields the specified walk |
| Glob.GlobFrom | packages/kaos/src/local.ts:294-329 | A glob yields exactly those paths |
| Generate.ToolCallsAreBuffers | packages/kosong/src/generate.ts:144-177 | For every stream the final tool calls are those of a machine with one buffer per header |
| Generate.EachCallGetsItsDeltas | packages/kosong/src/generate.ts:144-177 | The call of every header of every stream is at the header's position with its id, name and extras, and its arguments are the header's text followed by the text of the deltas that belong to it, in order: those of its index until another header takes it over, and unannounced ones while only deltas have followed it; null if there never was any text |
| Generate.CallsAreCounted | packages/kosong/src/generate.ts:168-195 | There are as many tool calls as headers |
| Generate.IndexedCallGetsItsDeltas | packages/kosong/src/generate.ts:144-163 | Where every delta is announced and the index is not taken over, its arguments are the header's text and the text of the deltas of its own index |
| Generate.ReorderingDeltasChangesNothing | packages/kosong/src/generate.ts:144-163 | Exchanging neighbouring deltas of different announced indices never changes the assembled message |
| Generate.FeedCommutes | packages/kosong/src/generate.ts:144-163 | Two such deltas commute in every reachable state of the loop |
| Generate.MergeKeepsAtoms | packages/kosong/src/message.ts:141-172 | A merge keeps every character and signature in order and never extends a signed think block |
| Generate.ContentIsConserved | packages/kosong/src/generate.ts:168-195 | For every stream the assembled content carries exactly the streamed characters, media and signatures, in order |
| Generate.ContentIsBlocks | packages/kosong/src/generate.ts:168-195 | The content is cut into exactly these parts: text continues text and thinking continues unsigned thinking, unless a header or an unannounced delta came between |
| Generate.TextIsConserved | packages/kosong/src/message.ts:180-188 | For every stream the text of the assembled content is all streamed text |
| Generate.StreamDecides | packages/kosong/src/generate.ts:189-229 | Whether the message is empty or only thinking can be read off the stream |
| Generate.Run | packages/kosong/src/generate.ts:125-229 | The loop with its pending part and index map assembles the specified message; it fails exactly on streams of bare deltas, and on thinking without text or calls |
| Generate.FlushedCallTakesItsDelta | packages/kosong/src/generate.ts:295-320 | A flushed call is found again: whatever is flushed later or pending, until its index is announced again, a delta of that index is appended to this call and changes nothing else |
| AcpSession.WireInjective | packages/acp-adapter/src/events-map.ts:87-89 | Two calls have the same wire id only if turn and raw id are the same, whatever the raw ids contain |
| AcpSession.WireFormat | packages/acp-adapter/src/events-map.ts:87-89 | A wire id is the turn in decimal, a colon, and the raw id |
| AcpSession.TurnBody.Handle | packages/acp-adapter/src/session.ts:924-1178 | Each event, or the rejection of the starting call, changes the prompt's variables and sends notifications as specified |
| AcpSession.TurnBody.ToolCallStarted | packages/acp-adapter/src/session.ts:1000-1058 | A start creates the card or upgrades it, resets the accumulator, and sends a plan for a todo display |
| AcpSession.TurnBody.ToolCallDelta | packages/acp-adapter/src/session.ts:1059-1101 | A first delta creates the card; a later one sends the accumulated text |
| AcpSession.SettlesAtMostOnce | packages/acp-adapter/src/session.ts:887-1180 | The promise settles at most once, and nothing is sent or changed afterwards |
| AcpSession.FirstSettlingInputDecides | packages/acp-adapter/src/session.ts:948-1178 | A prompt is pending until the first turn end of the main agent, rejection of the starting call, or busy error before a turn of its own; completed and failed turns stop with `end_turn`, cancelled ones with `cancelled`, filtered ones with `refusal`, a failure for authentication asks for it, and a busy error is passed on with its message |
| AcpSession.BusyOnlyBeforeOwnTurn | packages/acp-adapter/src/session.ts:924-969 | A busy error rejects a pending prompt if and only if no turn of its own has started |
| AcpSession.CreatedOnceAndFirst | packages/acp-adapter/src/session.ts:1000-1101 | In every run each wire id has at most one CREATE, and every delta or start-upgrade update follows its CREATE |
| AcpSession.ClientIsExactIff | packages/acp-adapter/src/session.ts:1000-1101 | A client folding REPLACE updates shows every call's own buffer after every input, if and only if no delta continues a call whose raw id another turn has used since with different text |
| AcpSession.ForwardTurnsAreShownExactly | packages/acp-adapter/src/session.ts:1000-1101 | If the turns of each raw id never go backwards, the client shows exactly what each call accumulated |
| AcpSession.BackwardTurnShowsOtherText | packages/acp-adapter/src/session.ts:1059-1101 | Otherwise three deltas suffice to show one turn's text on another turn's card |
| AcpSession.CallGainsItsParts | packages/acp-adapter/src/events-map.ts:197-218 | Until it is started again a call gains exactly its own delta parts, in order |
| AcpSession.StartedCallHolds | packages/acp-adapter/src/events-map.ts:197-218 | A started call holds its canonical arguments followed by its later parts, and its card ends with that text until a result replaces it |
| AcpSession.StartedCardSays | packages/acp-adapter/src/events-map.ts:152-183 | A started card has the description or name as its title, the kind of its tool, its arguments as text and raw input, and the diff of its display first |
| AcpSession.DeltaCardSays | packages/acp-adapter/src/events-map.ts:197-262 | A first delta opens a pending card named after the tool; a later one puts it in progress and shows the accumulated text |
| AcpSession.LaterCardSays | packages/acp-adapter/src/events-map.ts:325-390 | A status with a text changes only the title; a result replaces status, content and raw output |
| AcpSession.EverythingHeardIsSaid | packages/acp-adapter/src/session.ts:970-999 | The client is sent exactly the main agent's texts, thoughts and todo lists that the prompt hears, in order and each once |
| AcpSession.CurrentTurnIsLatest | packages/acp-adapter/src/session.ts:934-947 | While the prompt is pending the current turn is the one the main agent's latest event named; a settling event forgets it, the rejection of the starting call does not |
| AcpReplay.Replay.ReplayHistory | packages/acp-adapter/src/session.ts:519-565 | The replay of a history, with the turn counter, the bookkeeping map and the pushes as specified |
| AcpReplay.ReplayIsTranscript | packages/acp-adapter/src/session.ts:519-690 | When no push fails the client is sent exactly the transcript: each nonempty text and thought, each call under the number of its assistant message, each result under the turn of the latest earlier call |
| AcpReplay.Replay.ReplayAssistant | packages/acp-adapter/src/session.ts:599-609 | An assistant message is pushed part by part and call by call until a push fails |
| AcpReplay.Replay.ReplayTool | packages/acp-adapter/src/session.ts:610-639 | A tool message without an id or without an earlier call pushes nothing |
| AcpReplay.ResultFindsItsCall | packages/acp-adapter/src/session.ts:610-639 | For every history and every pattern of failing pushes a tool message updates the latest earlier call with its raw id, and is skipped exactly when there is none |
| AcpReplay.UpdateLacksCardIff | packages/acp-adapter/src/session.ts:519-643 | Under any push failures an update targets the latest earlier call with its raw id, and the client lacks the card exactly when the CREATE of that call failed and was the first for its wire id |
| AcpReplay.ReplayedUpdatesFollowTheirCalls | packages/acp-adapter/src/session.ts:519-643 | When every earlier CREATE went through, every update finds the card of the latest earlier call with its raw id, whatever other pushes fail |
| AcpReplay.LostCreateLeavesResult | packages/acp-adapter/src/session.ts:605-608 | With a failing push a result can be delivered whose CREATE was not, because the call is recorded first |
| CredentialSlot.SpacesAre | packages/oauth/src/managed-kimi-code.ts:229-231 | What trimming takes off: tab to carriage return, the Unicode spaces, the separators and the byte order mark |
| CredentialSlot.SpaceFreeIsSettled | packages/oauth/src/managed-kimi-code.ts:229-231 | For a host without white space normalising twice is normalising once |
| CredentialSlot.NormalizingTakesSpacesAndSlashes | packages/oauth/src/managed-kimi-code.ts:229-231 | A normal form is the host without the white space around it and the slashes then at its end, and without anything else taken off |
| CredentialSlot.DefaultsKeepDefaultKey | packages/oauth/src/managed-kimi-code.ts:320-338 | The default host and base URL keep the default key; any other pair has the prefix and its digest |
| CredentialSlot.ManagedRefSays | packages/oauth/src/managed-kimi-code.ts:233-259 | A reference keeps key and storage, and leaves the default host of the default key out |
| CredentialSlot.ConfiguredRefSays | packages/oauth/src/managed-kimi-code.ts:261-272 | A stored reference without a key is none; any other is read as it stands |
| CredentialSlot.LoginPrecedence | packages/oauth/src/managed-kimi-code.ts:382-415 | A login goes by the request before the environment, and by the environment before what is configured |
| CredentialSlot.LoginUsesConfigured | packages/oauth/src/managed-kimi-code.ts:404-415 | Without overrides the configured reference is used exactly when its key is that of its own environment |
| CredentialSlot.RuntimePrecedence | packages/oauth/src/managed-kimi-code.ts:360-380 | The runtime goes by the environment if it says anything, and else by what is configured |
| CredentialSlot.SettledIff | packages/oauth/src/managed-kimi-code.ts:229-231 | Normalising once is enough exactly when the normal form does not end in white space |
| CredentialSlot.LoginSlotIsRuntimeSlot | packages/oauth/src/managed-kimi-code.ts:320-415 | For every configuration and every environment or request override, not both: login, provisioning and runtime resolution give one key, and the runtime talks to the host the token came from |
| CredentialSlot.SlotAgreesIffSettled | packages/oauth/src/managed-kimi-code.ts:360-380 | Without environment overrides and digest collisions the slots agree exactly when the host is a fixed point of normalising after one round |
| CredentialSlot.UnsettledHostMovesSlot | packages/oauth/src/managed-kimi-code.ts:229-231 | The host `"a /"` logs in under one key and is looked up under another |
| CredentialSlot.SlotAgreesIffRequestIsEnvironment | packages/oauth/src/managed-kimi-code.ts:360-415 | With environment overrides they agree exactly when the request names nothing but the environment's host and base URL |
| CredentialSlot.ContraryRequestMovesSlot | packages/oauth/src/managed-kimi-code.ts:382-415 | A request for another host than the environment names logs in under one key and is looked up under another |
| CredentialSlot.SecondLoginKeepsSlot | packages/oauth/src/toolkit.ts:146-155 | A second login from the provisioned configuration uses the same slot, with or without an environment override |
| CredentialSlot.KeyInjective | packages/oauth/src/managed-kimi-code.ts:320-338 | Without digest collisions, different hosts or base URLs have different keys |
| CredentialSlot.SlotsSeparateEnvironments | packages/oauth/src/toolkit.ts:422-441 | Every resolved key names storage, and two environments share it only if they are the same |
| CredentialSlot.StorageNameSays | packages/oauth/src/toolkit.ts:422-441 | Which keys and providers have a storage name, and which one |
| CredentialSlot.UniqueRefs | packages/oauth/src/managed-kimi-code.ts:295-302 | The loop keeps of equal references the first |
| CredentialSlot.UniqueKeeps | packages/oauth/src/managed-kimi-code.ts:295-310 | The list without repetitions keeps its head, loses nothing, adds nothing and has nothing twice |
| CredentialSlot.UniqueGrows | packages/oauth/src/managed-kimi-code.ts:295-302 | The references that stay, stay in order |
| CredentialSlot.SameRefSays | packages/oauth/src/managed-kimi-code.ts:304-310 | References are the same when storage, key and host are, a missing host being like an empty one |
| CredentialSlot.OAuthPool | packages/oauth/src/managed-kimi-code.ts:274-293 | The pool is built from the new reference and the configured ones of the existing provider |
| CredentialSlot.PoolKeepsCredentials | packages/oauth/src/managed-kimi-code.ts:274-293 | The new reference leads, every stored one is kept, none is there twice, none is added |
| CredentialSlot.RefreshKeepsSlot | packages/oauth/src/managed-kimi-code.ts:360-380 | Resolving, storing and resolving again gives the same key: a refresh does not move the slot |
| ProviderConfig.Store.ApplyManagedConfig | packages/oauth/src/managed-kimi-code.ts:513-602 | Applying a catalogue edits providers, models, default and services as specified, or throws before changing anything |
| ProviderConfig.ManagedApplySays | packages/oauth/src/managed-kimi-code.ts:549-583 | Each alias after a managed login, field by field: model, context and capabilities of the last listing, efforts and name of the last that declares them or as before, the anthropic flags; the provider's others gone, everyone else's untouched |
| ProviderConfig.ManagedDefaultSays | packages/oauth/src/managed-kimi-code.ts:637-692 | The default is kept if it may be, and is else the first model; its thinking is what its declaration forces, or else what the configuration or the model says |
| ProviderConfig.LoginRefSays | packages/oauth/src/managed-kimi-code.ts:530-535 | The stored credential is the login's own key, or that of its environment |
| ProviderConfig.ServicesSay | packages/oauth/src/managed-kimi-code.ts:585-597 | Search and fetch live below the base URL and use the login's credential |
| ProviderConfig.Store.ChooseDefault | packages/oauth/src/managed-kimi-code.ts:646-692 | The default is kept or replaced by the first model, with the thinking its declaration forces |
| ProviderConfig.Store.ClearManagedConfig | packages/oauth/src/managed-kimi-code.ts:694-736 | Clearing removes the provider, exactly its aliases and its services, and reports what it removed |
| ProviderConfig.Store.RemoveProvider | packages/oauth/src/custom-registry.ts:333-353 | Removing a provider drops it, exactly its aliases, and the defaults that named them; platform removal does the same |
| ProviderConfig.Store.LogOutManaged | packages/oauth/src/managed-kimi-code.ts:604-631 | Logging out removes the managed provider like any other, and its services; an empty services section goes too |
| ProviderConfig.EntryHoldsLogin | packages/oauth/src/managed-kimi-code.ts:532-547 | The managed entry leads with the login's own credential and forgets none that was stored, primary or fallback |
| ProviderConfig.Store.ApplyOpenConfig | packages/oauth/src/open-platform.ts:150-197 | Applying a platform's catalogue edits the configuration as specified |
| ProviderConfig.OpenApplySays | packages/oauth/src/open-platform.ts:150-197 | Each alias after adding a platform, field by field, with its protocol fields as before; the selected default and thinking |
| ProviderConfig.Store.ApplyRegistryProvider | packages/oauth/src/custom-registry.ts:283-326 | Applying a registry entry edits the configuration as specified |
| ProviderConfig.RegistryApplySays | packages/oauth/src/custom-registry.ts:283-326 | The provider after applying a registry entry, and each alias, field by field |
| ProviderConfig.RegistryCapabilitiesSay | packages/oauth/src/custom-registry.ts:237-273 | A registry model's capabilities are the declared ones, or tool use if nothing is declared |
| ProviderConfig.Store.ImportRegistry | packages/oauth/src/custom-registry.ts:377-402 | A re-import drops the registry's orphans, then removes and applies each entry |
| ProviderConfig.PatchAllAt | packages/oauth/src/managed-kimi-code.ts:560-583 | Whatever the order and repetitions in a catalogue, each alias ends as the old one with a single combined patch |
| ProviderConfig.ReplaceAt | packages/oauth/src/managed-kimi-code.ts:549-583 | After a catalogue each listed alias is patched, the provider's others are gone, everyone else's are untouched |
| ProviderConfig.CapabilitiesSay | packages/oauth/src/managed-kimi-code.ts:197-219 | The capabilities list exactly what the model is declared to do, each once; the three-state thinking declaration wins over the older flag |
| ProviderRuns.EditsKeepWellFormed | packages/oauth/src/managed-kimi-code.ts:513-736 | Every finite sequence of managed login, logout and clear, platform add and remove, registry import and remove keeps every alias on an existing provider and the default unset or existing |
| ProviderRuns.AddPlatformWellFormedIff | packages/oauth/src/open-platform.ts:150-197 | Adding a platform keeps the configuration well formed exactly when the selected model is in the catalogue or its key is an alias of another provider |
| ProviderRuns.UnlistedSelectionDangles | packages/oauth/src/open-platform.ts:150-197 | A platform added with a selected model outside its catalogue leaves the default dangling |
| ProviderRuns.ReimportLeavesImported | packages/oauth/src/custom-registry.ts:377-402 | After a re-import the providers carrying the registry's URL are exactly the imported ids, and no other provider is lost |
| ModelRefresh.RefreshManagedProvider | packages/oauth/src/refreshProviderModels.ts:356-418 | The managed branch resolves its credential from the configuration and computes the specified configuration and report; without a credential or a usable catalogue it writes nothing |
| ModelRefresh.RefreshOpenPlatform | packages/oauth/src/refreshProviderModels.ts:432-492 | The open-platform branch computes the specified configuration and report; an empty catalogue is skipped |
| ModelRefresh.RefreshKeepsCredential | packages/oauth/src/refreshProviderModels.ts:364-384 | After a managed refresh the runtime resolves the credential that the refresh used |
| ModelRefresh.LoginIsFoundAgain | packages/oauth/src/toolkit.ts:146-190 | The configuration a login provisions leads the runtime to the credential the login wrote |
| ModelRefresh.PickDefaultModel | packages/oauth/src/refreshProviderModels.ts:307-327 | The selected model is the default's model if the catalogue still has it, else the first |
| ModelRefresh.PickedDefaultSays | packages/oauth/src/refreshProviderModels.ts:307-327 | The picked model is the first listing of the one the default stands for, if the default is this provider's, and else the first of all |
| ModelRefresh.ComputeChanges | packages/oauth/src/refreshProviderModels.ts:171-181 | The counts are those of the two differences, and they balance the sizes |
| ModelRefresh.ReportChange | packages/oauth/src/refreshProviderModels.ts:193-224 | No change is reported exactly when the provider's refreshed aliases are equal up to the order of capabilities |
| ModelRefresh.ModelIdsSay | packages/oauth/src/refreshProviderModels.ts:134-146 | The ids that are counted are the nonempty model ids of the refreshed aliases |
| ModelRefresh.ManagedRefreshModels | packages/oauth/src/refreshProviderModels.ts:370-393 | After a managed refresh, alias by alias: the listed ones field by field as the catalogue says, the other generated ones gone, all else (the user's own) unchanged; the default is the previous one if that survives, and else the first model |
| ModelRefresh.OpenRefreshModels | packages/oauth/src/refreshProviderModels.ts:445-470 | The same for an open platform, whose new default is the picked model |
| ModelRefresh.UserAliasesSurvive | packages/oauth/src/refreshProviderModels.ts:249-272 | Aliases of the provider outside the generated prefix come through unchanged |
| ModelRefresh.ManagedRefreshTwice | packages/oauth/src/refreshProviderModels.ts:370-402 | A second refresh with the same catalogue changes neither models nor default and is reported as no change; thinking stays unless the first refresh had lost it |
| ModelRefresh.OpenRefreshTwice | packages/oauth/src/refreshProviderModels.ts:445-480 | The same for an open platform |
| ModelRefresh.UnchangedMeansUnchanged | packages/oauth/src/refreshProviderModels.ts:193-224 | No change is reported exactly when no alias of the configuration differs in more than the order of its capabilities |
| ModelRefresh.ManagedThinkingLostIff | packages/oauth/src/refreshProviderModels.ts:274-285 | The exact inputs on which an always-thinking default ends without thinking: the catalogue does not list the previous default and it was a generated alias or none; the first model's id is listed again, last as always thinking; the first entry does not force thinking and the configuration does not ask for it |
| ModelRefresh.DistinctIdsKeepThinking | packages/oauth/src/refreshProviderModels.ts:274-285 | With distinct ids an always-thinking default always ends with thinking on |
| ModelRefresh.RepeatedIdLosesThinking | packages/oauth/src/managed-kimi-code.ts:646-682 | A catalogue that lists an id twice and loses thinking |
| ModelRefresh.OpenThinkingLostIff | packages/oauth/src/refreshProviderModels.ts:456-470 | On an open platform: the catalogue does not list the previous default and it was a generated alias or none, and the newly picked model is listed last as always thinking |
| ModelRefresh.FirstOpenRefreshLosesThinking | packages/oauth/src/refreshProviderModels.ts:456-470 | The first refresh of a platform with an always-thinking model loses thinking |
| ModelRefresh.ManagedRefreshKeepsWellFormed | packages/oauth/src/refreshProviderModels.ts:370-395 | A managed refresh keeps the configuration well formed |
| ModelRefresh.OpenRefreshKeepsWellFormed | packages/oauth/src/refreshProviderModels.ts:445-470 | So does an open-platform refresh |
| RegistryRefresh.RefreshRegistryProviders | packages/oauth/src/refreshProviderModels.ts:547-618 | The registry branch builds the specified configuration for a batch of providers on one copy, reports each provider, and writes nothing when there is nothing to report |
| RegistryRefresh.RegistryRefreshKeepsWellFormed | packages/oauth/src/refreshProviderModels.ts:567-618 | It keeps the configuration well formed, keeps the default if its alias survives and unsets it otherwise, and never leaves an always-thinking default without thinking |
| RegistryRefresh.RegistryRefreshTwice | packages/oauth/src/refreshProviderModels.ts:567-618 | A second refresh of the same providers from the same registry leaves the whole configuration as it is, however the providers' keys collide |
| RegistryRefresh.NothingToWrite | packages/oauth/src/refreshProviderModels.ts:590-618 | When nothing is reported the batch has changed no provider, and no alias but for the order of capabilities |
| RegistryRefresh.UserAliasesSurviveBatch | packages/oauth/src/refreshProviderModels.ts:585-589 | The user's own aliases of a provider still in the registry come through, wherever it is in the batch, unless another entry generates their key |
| RegistryRefresh.OtherAliasesSurvive | packages/oauth/src/refreshProviderModels.ts:567-589 | Aliases of providers outside the batch stay, unless an entry of the batch generates their key |
| RegistryRefresh.SyncedProviders | packages/oauth/src/refreshProviderModels.ts:569-589 | Of the batch exactly the providers the registry still has remain, each with its new source; the others stay |
| ShellCommand.BuildExecCommand | packages/kaos/src/ssh.ts:894-923 | The loop builds the command, or throws for the first name that is not a POSIX name |
| ShellCommand.NamesInAscii | packages/kaos/src/ssh.ts:904-911 | A variable name is one of ASCII letters, digits and underscores that does not begin with a digit |
| ShellCommand.LexQuote | packages/kaos/src/ssh.ts:114-120 | A quoted argument, the empty one too, reads back as itself within whatever word it stands |
| ShellCommand.CommandReadsBack | packages/kaos/src/ssh.ts:894-923 | Under section 2.2 of the Shell Command Language of POSIX.1-2017 the command splits into `cd`, the directory, `&&`, the `KEY=value` words and the arguments, for every directory, environment with valid names and argument list |

## Left out

- Real files, SFTP, HTTP, processes, the internals of the lock library, telemetry and logging.
- OAuth with the lock disabled (Windows or the kill switch): the code itself is only best effort there.
- Retries and backoff inside one token exchange; an exchange is accepted, rejected, or fails.
- OAuthRefresh.RefreshIsSafe: holds for runs without the disturbances named above; the witnesses show they are needed.
- Coalescer.QueuedCallGetsLaterRun: does not promise that a queued call is ever answered; others may call first each time.
- Intervals that are not numbers in the device login, and errors thrown by the network, which end a run where it is.
- TextFile.ReadUtf8Text: the decoder is arbitrary; only the dropping mode of UTF-8 is modelled itself, so nothing is said of what `TextDecoder` returns.
- TextFile.ReadTailLines: positioned reads are assumed to fill each block, which the code does not check.
- Bit masks and shifts on bytes are written as comparisons and arithmetic; the UTF-16 decoder and the range reads of `readBytes`.
- `globPatternToRegex`: a segment's match is an arbitrary predicate on names. Directories that cannot be listed read as empty.
- Glob.GlobAgreesWithSsh: for trees without links in which every entry can be inspected.
- Glob.WalkYieldsSelected: directories without an inode may not form a cycle among themselves; the code does not end on one.
- Callbacks, abort checks and timing in `generate`.
- `tool.progress` and `tool.result` relative to the CREATE: nothing orders them; a client ignores updates of unknown cards.
- The approval requests that read `currentTurnId`, and how displays, results and thrown errors become content blocks and error kinds.
- CredentialSlot.LoginSlotIsRuntimeSlot: for logins that do not pass an explicit credential reference of their own.
- Entries of the configuration that are not records, and the host's merging of what is written.
- ModelRefresh.ReportChange: ignores the order of keys inside a stored alias, which the comparison by serialisation sees.
- Parsing of remote catalogues and registries, and the fetching and grouping of registries by URL; a catalogue is given as its parsed models.
- ShellCommand.CommandReadsBack: says nothing about what a shell does with the words, such as reading a leading `A=b` argument as an assignment.
