# DeFlow adapters: a verified model

DeFlow drives vendor coding agents and treats one append-only ledger as the only truth. Its adapter
package is where bytes, protocol steps and routing decisions turn into that ledger. This project
models those parts in Dafny, with their branches, orders of checks and edge cases, and proves what the
ledger, and the strings that leave the package, can be relied on for.

The loops and the stateful objects of the source are methods and classes, each proved against a
specification function; the protocols that interleave with an agent are step machines whose every step
may be the last one before a crash. What the source promises is then proved of those functions and
machines.

- **Raw JSON members** (`JsonText`, `Spelling`, `RawFrame`, `RoughFrame`): a hand-written index scanner
  against the grammar of RFC 8259, on every spelling of an object, and exactly what it answers on any
  other text.
- **Stream splitters** (`Lines`, `FrameGuard`, `Recorder`, `SseStream`): byte and text loops that must
  answer, chunk by chunk, what the whole stream deserves.
- **Command lines** (`ArgumentForms`, `ProviderRegistry`, `ShellQuote`): builders that print an argv
  and an auditor that parses it; shell quoting and a shell's reading of it.
- **Prompts from the ledger** (`ReplayPacket`): a packet rebuilt from its record and a content store.
- **The turn protocols** (`Ledger`, `LineFiling`, `ScopeAudit`, `ShimRun`, `HandOver`, `AcpTurn`,
  `AcpRound`, `AcpRun`, `AcpEnding`, `ResumeLives`): one attempt through a vendor's CLI or over ACP,
  what exactly its rounds do and how it ends, and the lives of an attempt across crashes.
- **A resumable event log** (`EventLog`): emitter, cursors, queues and reconnects.
- **Routing** (`StableSort`, `Capabilities`, `Admission`, `QuotaRoute`, `PickReviewer`,
  `ProviderInstall`, `SessionLoad`): ranked choices, and deciders that must agree with each other.

Verify with `dafny verify dfyconfig.toml`.

## What the model takes as given

- A string is a sequence of characters; the source's UTF-16 code units, and with them lone surrogates,
  are not told apart. Bytes are numbers below 256.
- `JSON.parse` is a parameter that accepts exactly the JSON texts of RFC 8259 where a theorem needs
  it, and any predicate elsewhere. Text decoders, SHA-256, `Number.isFinite`, the platform's path and
  the parsed fields of a vendor's line are parameters too. Hashes are injective where a lemma says so.
- Every append to the ledger, every send and every answer is one step. A crash is the end of a run at
  any step; ports do not throw.
- Where several refusals another module decides stand in a row, each is a parameter and the model
  keeps their order.

## Where the code and its description part

- `sliceMember` is described as answering nothing for a truncated frame. It answers for a number whose
  digits are cut: `RawFrame.SliceOfTruncated` says exactly when, `RawFrame.TruncatedFrameAnswers` is
  the smallest case.
- It is described as answering nothing for a text that is not a JSON object. It answers wherever members
  of a rougher grammar stand: `RoughFrame.SliceExactly` is the exact condition on every text,
  `RoughFrame.NullExactly` the promise itself, `RoughFrame.MalformedTextAnswers` a case;
  `RoughFrame.TrailedFrameAnswers` and `RoughFrame.RubbishBeforeColonAnswers` are two families.
- A rebuilt packet is described as identical to the recorded one. The schema compares pinned digests
  sorted, so a record may list them in another order than the packet rebuilt from it:
  `ReplayPacket.RebuiltPacket` is the exact condition, `ReplayPacket.DigestOrderIsLost` a case.
- After it has tripped, the frame guard's `bytesSinceNewline` is the length it reported and no longer
  the open line's: `FrameGuard.CounterIsOpenLine` is the exact condition over all that was fed,
  `FrameGuard.CounterFreezes` shows both ways to miss it.
- A prompt that travels as a positional and is spelled like one of the entry's flags is read as that
  flag: `ProviderRegistry.AuditOfBuilt` has the condition, `ProviderRegistry.PromptIsLost` the effect.
- A stream cursor past anything issued is not waited for: a client sees the events past its cursor, over
  every continuation that does not forget it, exactly where the cursor had been issued when it first
  connected (`EventLog.HonouredExactlyWhereIssued`). Only a cursor sent in a header can be forgotten, by a
  reload before the first event.
- A stream opened without a cursor, severed before its first event and opened again, is live again from
  then on, and what was logged in between is lost: `EventLog.LiveAgainLoses`.
  `EventLog.LiveLosesExactly` is the exact condition.
- De-duplicating a replayed history drops by position as well as by id, so an entry that is new but
  stands in a known place is lost: `SessionLoad.WhatIsKept` is the exact condition,
  `SessionLoad.PlaceAloneDiscards` a case.
- A re-route that changes nothing on paper can still be refused at admission, in one case only:
  `Admission.RerouteAgreesWithAdmission` and `Admission.RerouteOntoUnmediated`.
- A kill inside a line of the shim's output can repeat a rate limit or a compaction when the attempt is
  replayed: `ShimRun.KillInsideALineRepeats` and, on a literal line, `LineFiling.RateLimitRepeats`.
  `ShimRun.ReplayRepeatsExactly` says how many are repeated and when none is; nothing is ever lost
  (`ShimRun.ReplayLosesNothing`).

## Model

| member | source | states |
|---|---|---|
| `Spelling.PrintSpells` | `packages/adapters/src/raw-frame.ts:76-115` | a printed value is spelled in the text, token by token, with whatever whitespace it was given (RFC 8259 sections 2, 4, 5, 7) |
| `Spelling.SpelledText` | `packages/adapters/src/raw-frame.ts:76-115` | a text that spells a value over its width is, character for character, that value printed |
| `RawFrame.EndOfString` | `packages/adapters/src/raw-frame.ts:23-33` | the loop past a string literal: the index behind its closing quote, or -1 where it never closes |
| `RawFrame.StringSkips` | `packages/adapters/src/raw-frame.ts:23-33` | from just inside a string of the grammar, the scan comes out behind its closing quote, whatever is escaped in it |
| `RawFrame.EndOfValue` | `packages/adapters/src/raw-frame.ts:35-66` | the three loops past a value compute the end the specification gives, or -1 |
| `RawFrame.NestedValue` | `packages/adapters/src/raw-frame.ts:39-56` | inside a container the depth counter passes any whole value, brackets and quotes inside strings included, and comes out at the same depth |
| `RawFrame.ValueStops` | `packages/adapters/src/raw-frame.ts:35-66` | the end found for a value of the grammar is where that value ends |
| `RawFrame.ReadMember` | `packages/adapters/src/raw-frame.ts:85-98` | one turn of the member loop reads the next name, its colon, the blanks and the extent of its value |
| `RawFrame.FindMember` | `packages/adapters/src/raw-frame.ts:80-114` | the loop over top-level members finds the first of that undecoded name |
| `RawFrame.EntryOfMembers` | `packages/adapters/src/raw-frame.ts:80-114` | over a well-formed object the scan stops at the first member named so, and at none when there is none |
| `RawFrame.SliceMember` | `packages/adapters/src/raw-frame.ts:76-115` | the whole function is the specification that the theorems below are about |
| `RawFrame.SliceOfObject` | `packages/adapters/src/raw-frame.ts:76-115` | for every object text, with any nesting, escapes and whitespace: exactly the characters of the first top-level member of that name, and nothing when there is none |
| `RawFrame.SliceOfAnything` | `packages/adapters/src/raw-frame.ts:76-115` | on any text at all: nothing, or a contiguous piece of it that is itself a JSON value without blanks at its edges |
| `RawFrame.SliceOfTruncated` | `packages/adapters/src/raw-frame.ts:58-115` | what a frame cut anywhere answers: the member if it is whole, nothing if it is cut, except that a number whose kept digits still are a number is answered short |
| `RawFrame.TruncatedFrameAnswers` | `packages/adapters/src/raw-frame.ts:58-66` | a cut frame that answers although its description says it does not |
| `RoughFrame.SliceExactly` | `packages/adapters/src/raw-frame.ts:76-115` | on any text at all the slice is `t` exactly where behind blanks and a brace stand members, however rough, of which the last is the first named by the key and its value `t` is JSON |
| `RoughFrame.NullExactly` | `packages/adapters/src/raw-frame.ts:68-115` | nothing is answered exactly where no such members stand in the text, so that is when the promise for texts that are no object is kept |
| `RoughFrame.RoughIsRead` | `packages/adapters/src/raw-frame.ts:81-98` | a rough member is read: blanks and commas before it, any name without a bare quote, anything without a colon, blanks, and a closed string, a balanced group or a bare run |
| `RoughFrame.NextIsRough` | `packages/adapters/src/raw-frame.ts:81-98` | and whatever is read as a member is one |
| `RoughFrame.NestedIsBits` | `packages/adapters/src/raw-frame.ts:39-56` | what the depth counter closes is characters, strings and groups, a group closed by a bracket of either kind |
| `RoughFrame.MalformedTextAnswers` | `packages/adapters/src/raw-frame.ts:58-115` | a text that is no JSON, with a broken value, no comma and no end, is answered |
| `RoughFrame.TrailedFrameAnswers` | `packages/adapters/src/raw-frame.ts:68-115` | an object with anything behind it that does not end in a blank or a brace is no JSON text, and is answered as the object alone: exactly where it has the member |
| `RoughFrame.RubbishBeforeColonAnswers` | `packages/adapters/src/raw-frame.ts:85-94` | a member whose name and colon are anything without a colon apart is answered, and the text is JSON exactly where that is blank |
| `Lines.SplitJoins` | `packages/adapters/src/run-shim-node.ts:483-487` | splitting at newlines loses nothing: the pieces hold none, and joined they are the text |
| `Lines.JoinSplits` | `packages/adapters/src/run-shim-node.ts:483-487` | joining pieces and splitting again gives the pieces back |
| `Lines.SplitAppend` | `packages/adapters/src/run-shim-node.ts:483-487` | reading a stream in two parts: the second part meets only the open line of the first |
| `FrameGuard.ParseFrameLimit` | `packages/adapters/src/frame-guard.ts:86-110` | a cap is an integer from 1 to the largest safe one; everything else is refused, and absence is the default |
| `FrameGuard.VerdictMeans` | `packages/adapters/src/frame-guard.ts:114-163` | over every byte stream, something is reported exactly where a run without a newline is longer than the cap |
| `FrameGuard.VerdictReports` | `packages/adapters/src/frame-guard.ts:142-158` | what is reported is the first such line as far as it has come, its length, and at most 4096 bytes of its front |
| `FrameGuard.Guard.Remember` | `packages/adapters/src/frame-guard.ts:122-130` | the evidence kept is the front of the open line, never more than the limit |
| `FrameGuard.Guard.Inspect` | `packages/adapters/src/frame-guard.ts:133-159` | for every chunk: nothing once tripped, else the verdict on the whole stream so far; the counter is the length of the open line |
| `FrameGuard.Guard.BytesSinceNewline` | `packages/adapters/src/frame-guard.ts:160-160` | the open line's length before the trip, the reported length after it |
| `FrameGuard.Guard.Tripped` | `packages/adapters/src/frame-guard.ts:161-161` | tripped exactly when some newline-free run of what was fed exceeds the cap |
| `FrameGuard.Watch` | `packages/adapters/src/frame-guard.ts:114-163` | over every split into chunks one report at most, on the first chunk by whose end the stream is over the cap |
| `FrameGuard.FeedAll` | `packages/adapters/src/frame-guard.ts:133-160` | over every split into chunks, past the trip too: the counter is the open line's length while the stream is within the cap, and from the first prefix over it the length reported there |
| `FrameGuard.CounterIsOpenLine` | `packages/adapters/src/frame-guard.ts:149-160` | the counter is the open line's length exactly where the stream is within the cap, or the line that tripped is open and nothing was fed behind the tripping chunk, or it has ended and the line now open has the reported length |
| `FrameGuard.CounterFreezes` | `packages/adapters/src/frame-guard.ts:149-160` | a guard that a finished line has tripped counts that line over an empty one, and one whose line goes on counts what was reported |
| `Recorder.Tee.Note` | `packages/adapters/src/recorder.ts:240-253` | for every chunk: exactly the rows of the lines it completes, the unfinished rest kept |
| `Recorder.Tee.WriteLines` | `packages/adapters/src/recorder.ts:245-252` | the loop writes one row for each complete line that is not blank, in order, and leaves the open one |
| `Recorder.Tee.NoteStderr` | `packages/adapters/src/recorder.ts:254-257` | a stderr row for bytes while open, nothing for none or when closed |
| `Recorder.Tee.NoteExit` | `packages/adapters/src/recorder.ts:258-261` | an exit row while the recording is open |
| `Recorder.Tee.Close` | `packages/adapters/src/recorder.ts:262-270` | the unfinished tail of each direction once; closing again changes nothing |
| `Recorder.Record` | `packages/adapters/src/recorder.ts:240-270` | per direction, over any chunks and any interleaving of the two, what is recorded is what the joined bytes deserve |
| `Recorder.DueIs` | `packages/adapters/src/recorder.ts:245-270` | what a direction deserves, row by row: each complete line that is not blank with its own text, as a message exactly where it parses, and the tail raw once closed |
| `SseStream.ParseBlock` | `e2e/support/streams.ts:115-135` | the loop over a block's lines computes its event: name, data lines joined, id, comments skipped, nothing without a field |
| `SseStream.ParseMeans` | `e2e/support/streams.ts:115-135` | a block is no event exactly where none of its lines says anything; else its name and id are those last set, with their defaults where none was, and its data all that is set, in order |
| `SseStream.CommentsCount` | `e2e/support/streams.ts:72-80` | one keep-alive for each block that begins with a colon |
| `SseStream.BlocksAppend` | `e2e/support/streams.ts:64-82` | the blocks of a stream read in two parts are those of the whole |
| `SseStream.Pump.Feed` | `e2e/support/streams.ts:64-82` | after every chunk, the events and the keep-alives of the whole text so far, and the rest behind the last break |
| `SseStream.Pump.TakeBlocks` | `e2e/support/streams.ts:72-80` | the inner loop takes every complete block and leaves none |
| `SseStream.Receive` | `e2e/support/streams.ts:64-82` | the same events and keep-alives for every way the text was cut into chunks |
| `SseStream.TextInOrder` | `e2e/support/streams.ts:64-82` | the whole text is every chunk, in order |
| `SseStream.FormatParses` | `e2e/support/streams.ts:115-135` | a written event parses to itself, for one-line names and ids and any data (WHATWG HTML sections 9.2.5 and 9.2.6) |
| `SseStream.StreamBlocks` | `e2e/support/streams.ts:64-82` | a stream of written events falls into exactly their texts |
| `SseStream.Transmit` | `e2e/support/streams.ts:64-135` | end to end: events written, cut anywhere and pumped are the events received |
| `ShellQuote.ShellReadsBack` | `packages/adapters/src/provider-availability.ts:67-72` | tokenised by POSIX rules (Shell Command Language sections 2.2.1, 2.2.2, 2.3) the rendered words are exactly the words, empty ones and ones full of quotes included |
| `ShellQuote.TerminalCommandReadsBack` | `packages/adapters/src/provider-availability.ts:89-98` | the login command reads back as the command and its string arguments; arguments of other types are left out |
| `ShellQuote.StringsInOrder` | `packages/adapters/src/provider-availability.ts:89-98` | of the arguments of a login command those that are strings are kept, each and in order |
| `ShellQuote.RenderIsInjective` | `packages/adapters/src/provider-availability.ts:67-98` | different commands are never shown as the same line |
| `ArgumentForms.IndexTable` | `packages/adapters/src/argument-forms.ts:212-216` | flags are looked up by their last declaration, positionals kept in declaration order |
| `ArgumentForms.AuditArgv` | `packages/adapters/src/argument-forms.ts:208-272` | the loop over the argv computes the audit |
| `ArgumentForms.AuditToken` | `packages/adapters/src/argument-forms.ts:221-269` | one turn: a valueless flag, a flag with its value, a flag with nothing behind it, a positional, or something undeclared |
| `ArgumentForms.AuditCovers` | `packages/adapters/src/argument-forms.ts:208-272` | for every table and argv the rows cover it left to right with nothing left over |
| `ArgumentForms.AuditJudges` | `packages/adapters/src/argument-forms.ts:208-272` | whatever the argv, a row's argument is one that was declared, by its own flag or as a positional, and it has no problem exactly where it has an argument and a value of its form or no need of one; each other problem exactly where it is the case |
| `ArgumentForms.TableFinds` | `packages/adapters/src/argument-forms.ts:212-216` | with distinct flags every declaration is found by its own flag |
| `ArgumentForms.AuditReadsBack` | `packages/adapters/src/argument-forms.ts:208-272` | printing any items that fit a table and auditing the result gives back those items, one row each, in order |
| `ArgumentForms.AuditOfPrint` | `packages/adapters/src/argument-forms.ts:208-272` | the whole round trip, from the first position |
| `ArgumentForms.CleanMeans` | `packages/adapters/src/argument-forms.ts:153-186` | no row has a problem exactly where every value is of its declared form |
| `ArgumentForms.TrailingFlag` | `packages/adapters/src/argument-forms.ts:221-240` | a last token that is a flag is read as that flag without a value |
| `ArgumentForms.FormMeans` | `packages/adapters/src/argument-forms.ts:118-186` | what each form asks of a value: a leading slash, five groups of hex digits with a version and a variant, one of the values, a parse, a finite number, some text |
| `ProviderRegistry.Distinct` | `packages/adapters/src/provider-registry.ts:797-1360` | no entry declares a flag twice |
| `ProviderRegistry.FormatsAreDeclared` | `packages/adapters/src/provider-registry.ts:797-1360` | an entry's own stream is one it supports, every format it supports is one its format flag takes, and no two are spelled alike |
| `ProviderRegistry.BuildPrints` | `packages/adapters/src/provider-registry.ts:652-682` | for every entry the built argv is the printed list of what was supplied |
| `ProviderRegistry.SuppliedFits` | `packages/adapters/src/provider-registry.ts:797-1360` | what a builder supplies fits its entry's own table |
| `ProviderRegistry.AuditOfBuilt` | `packages/adapters/src/provider-registry.ts:555-682` | for every entry and every context its builder accepts, the audit is clean and recovers the names and values supplied exactly when the values are of their forms and a positional prompt is not one of the entry's flags |
| `ProviderRegistry.SchemaIsRecovered` | `packages/adapters/src/provider-registry.ts:555-607` | what the audit recovers of a schema, said of the context: exactly the path given for an entry that takes one, exactly the document without the keys to strip for one that takes it inline, and no such row where nothing was given |
| `ProviderRegistry.ContextIsRecovered` | `packages/adapters/src/provider-registry.ts:652-682` | and the prompt, the session, the worktree, the format, the switches, the ceiling and the permission level, entry by entry |
| `ProviderRegistry.RefusedExactly` | `packages/adapters/src/provider-registry.ts:555-682` | each refusal of a builder, exactly where its condition holds and none before it does |
| `ProviderRegistry.PromptIsLost` | `packages/adapters/src/provider-registry.ts:867-1360` | a positional prompt that is a flag is not recovered |
| `ReplayPacket.HashIsInjective` | `packages/core/src/hash.ts:151-153` | content hashes and prompt handles keep different texts apart |
| `ReplayPacket.RenderShowsAll` | `packages/core/src/context-packet.ts:281-302` | the render order holds every segment as often as it was given, pinned ones first, each group by source event, and those of one event in their order |
| `ReplayPacket.JoinsExactly` | `packages/adapters/src/replay-packet.ts:76-90` | a prompt is the join of some segments exactly where the text of each stands whole at its place, one blank line between neighbours, and nothing else |
| `ReplayPacket.TotalsConserve` | `packages/core/src/context-packet.ts:251-280` | consistent totals lose no token: every segment is counted in exactly one of the nine kinds, and the kinds add up to the sum over the segments |
| `ReplayPacket.FindLastBuilt` | `packages/adapters/src/replay-packet.ts:140-158` | the last packet recorded for the node and attempt |
| `ReplayPacket.LastBuiltIsLast` | `packages/adapters/src/replay-packet.ts:140-158` | it is that of a row for this node and attempt with none behind it, and there is none exactly where no row is |
| `ReplayPacket.CollectTexts` | `packages/adapters/src/replay-packet.ts:180-206` | the loop keeps the segments whose bytes are there and match, and names the others |
| `ReplayPacket.ReconstructPacket` | `packages/adapters/src/replay-packet.ts:173-244` | the checks in their order, and the packet, the segments and the prompt where all pass |
| `ReplayPacket.RebuiltExactly` | `packages/adapters/src/replay-packet.ts:173-244` | a packet is rebuilt exactly where the schema accepts the record, every segment's bytes are held and hash to its digest, and the joined texts hash to its handle |
| `ReplayPacket.ReplayIsExact` | `packages/adapters/src/replay-packet.ts:173-244` | a packet recorded with consistent totals comes back exactly where the store still holds every segment's bytes: its segments, and a prompt in which the text of each stands whole, in render order; else it is refused as broken |
| `ReplayPacket.ReplayNeverSubstitutes` | `packages/adapters/src/replay-packet.ts:227-235` | whatever the store has become, what is rebuilt is the prompt the handle was computed from |
| `ReplayPacket.RebuiltPacket` | `packages/adapters/src/replay-packet.ts:210-243` | the rebuilt packet passes the schema, and equals the record exactly where the record lists its pinned digests in segment order |
| `ReplayPacket.DigestOrderIsLost` | `packages/core/src/context-packet.ts:198-221` | a recorded packet with its digests the other way round is accepted and rebuilt, its bytes all held, and the rebuilt packet is not the recorded one |
| `ScopeAudit.AuditCompletionScope` | `packages/adapters/src/scope-audit.ts:250-280` | files the one warning there is, and answers with the work-product refusal: a declared scope, no change, no commit |
| `Ledger.ClosingCloses` | `packages/adapters/src/run-shim-node.ts:1122-1128` | what a closed attempt is: one terminal row, a spend immediately before it or none, no warning after it |
| `LineFiling.FileAllNames` | `packages/adapters/src/run-shim-node.ts:810-843` | the uuids a life makes durable are those of its progress rows |
| `LineFiling.CutCovers` | `packages/adapters/src/run-shim-node.ts:926-1004` | a life cut at any append covers, with what is owed afterwards, what it owed |
| `LineFiling.CutSingle` | `packages/adapters/src/run-shim-node.ts:810-843` | a life cut at any append files no line twice and none that was durable before it |
| `LineFiling.ReplayFilesOnce` | `packages/adapters/src/run-shim-node.ts:810-843` | over any lives and a last one that ran out: each uuid one progress row, and no fewer rows of any kind than its first line calls for |
| `LineFiling.CutBalances` | `packages/adapters/src/run-shim-node.ts:926-1004` | a life cut at any append: what it wrote and what is owed afterwards is what it owed, and over that exactly the rows it had begun of the line the cut falls in |
| `LineFiling.ReplayIsExact` | `packages/adapters/src/run-shim-node.ts:926-1004` | over any lives and a last one that ran out: what the first lines call for, and over that exactly what killed lives had begun of lines they did not finish |
| `LineFiling.RateLimitRepeats` | `packages/adapters/src/run-shim-node.ts:963-1004` | a literal line whose rate limit is in the ledger twice after a kill inside it and a replay |
| `ShimRun.ReadLoop.FileLine` | `packages/adapters/src/run-shim-node.ts:810-843` | nothing for a durable uuid; else the bytes, then the row that names it |
| `ShimRun.ReadLoop.ActOn` | `packages/adapters/src/run-shim-node.ts:963-992` | a rate limit that names its reset and its wake, and a compaction, unless the line is durable |
| `ShimRun.ReadLoop.ReadLine` | `packages/adapters/src/run-shim-node.ts:944-1020` | a line is interpreted first and filed second; a malformed line or another session's ends the loop |
| `ShimRun.ReadLoop.ReadPieces` | `packages/adapters/src/run-shim-node.ts:923-942` | the cap is looked at before a piece is split, and the open line is carried over |
| `ShimRun.LineWrites` | `packages/adapters/src/run-shim-node.ts:963-1004` | a line writes exactly the rows it calls for: its rate limit where it names a reset, a wake where they are wired, its compaction, its bytes and the row that names it; a last line that no newline ends only its bytes and that row |
| `ShimRun.LineInTurn` | `packages/adapters/src/run-shim-node.ts:963-1004` | each in an append of its own and in this order |
| `ShimRun.ReadIsFeed` | `packages/adapters/src/run-shim-node.ts:926-1004` | while no line passes the cap the cutting into pieces does not matter: what was read is what the complete lines say |
| `ShimRun.SaidInOrder` | `packages/adapters/src/run-shim-node.ts:958-961` | what lines say is the text of each, whole and in order: lines `a` and then `b` say what `a` say and then what `b` say, and one line its own text |
| `ShimRun.AnswerReads` | `packages/adapters/src/run-shim-node.ts:926-1020` | of an output within the cap, however it was cut, the open line included: reading stops at the first line that asks for it and for its reason, the text is what the lines before it say, the result the last of theirs |
| `ShimRun.TooLongThrows` | `packages/adapters/src/run-shim-node.ts:930-942` | of an output over the cap the lines complete before the piece that trips it are read, and the reason is theirs where one makes the runner give up |
| `ShimRun.DecideWithoutProcess` | `packages/adapters/src/run-shim-node.ts:609-701` | the first refusal that stands, in the order lever, cap, auditor, plan, admission, review, configuration |
| `ShimRun.RefusalIsFirst` | `packages/adapters/src/run-shim-node.ts:609-701` | said over the list of checks: none stands, or it is the first that does |
| `ShimRun.LeaveChild` | `packages/adapters/src/run-shim-node.ts:1021-1130` | the exits: a throw, the vendor's own failure, a declared exit code, a refused argument, no envelope, no work product, completion |
| `ShimRun.RunShimNode` | `packages/adapters/src/run-shim-node.ts:489-1131` | branch by branch, what the runner appends is the attempt's trace |
| `ShimRun.AttemptCloses` | `packages/adapters/src/run-shim-node.ts:489-1131` | every attempt that returns writes exactly one terminal record, its last row, a spend only in the same batch immediately before it, any warning earlier |
| `ShimRun.CutAttemptIsOpen` | `packages/adapters/src/run-shim-node.ts:1122-1128` | an attempt cut short has no terminal record and has booked nothing |
| `ShimRun.WhenItCompletes` | `packages/adapters/src/run-shim-node.ts:1021-1130` | an attempt completes exactly where nothing refuses it, every line of its output is read and one is a result, the last result names no failure and no work product is missing; its output is then the texts of all lines in order, and it books that result's figure or the estimate, exactly where a result was read to the end |
| `ShimRun.WhyItFails` | `packages/adapters/src/run-shim-node.ts:609-1092` | every other attempt fails without a spend, with the reason of what occurred: the refusal, the spawn, what stopped the reading, a declared exit code, a refused argument, or that the agent left |
| `ShimRun.BeforeItCloses` | `packages/adapters/src/run-shim-node.ts:535-1120` | everything an attempt writes before its closing batch: the schedule, and where it runs its start record, what is filed of its output, and then a warning where it ran out well and the auditor warns, or a limit where no result was read and the exit code was declared one |
| `ShimRun.FeedAgrees` | `packages/adapters/src/run-shim-node.ts:944-1003` | what is read off the output, text, result and failure, does not depend on what was durable |
| `ShimRun.FeedFiles` | `packages/adapters/src/run-shim-node.ts:944-1003` | what is written of the output is the filing of its lines, each uuid once |
| `ShimRun.AnswerIsFiled` | `packages/adapters/src/run-shim-node.ts:926-1020` | the same for a whole output within the cap, its last line included whether or not a newline ends it |
| `ShimRun.ReplayFilesEachLineOnce` | `packages/adapters/src/run-shim-node.ts:768-843` | over any number of lives killed at any append and one that ran out, a uuid has exactly one progress row where a line that is read carries it, and else none |
| `ShimRun.ReplayEndsTheSame` | `packages/adapters/src/run-shim-node.ts:1033-1130` | the replay closes as an uninterrupted run closes, whatever was durable |
| `ShimRun.ReplaySaysItAll` | `packages/adapters/src/run-shim-node.ts:958-1130` | where nothing in the output makes the runner give up and its last result names no failure, the ledger of any killed lives and a last one ends in a completion that says what all the lines say |
| `ShimRun.ReplayLosesNothing` | `packages/adapters/src/run-shim-node.ts:963-992` | every row the first line to carry some uuid calls for is in the ledger: its rate limit, its wake, its compaction, its bytes |
| `ShimRun.ReplayRepeatsExactly` | `packages/adapters/src/run-shim-node.ts:963-992` | of the rows only lines with a uuid write there are what the first lines call for and what killed runs had begun; so none is repeated exactly where no run was killed between such a row and the row that names its line |
| `ShimRun.KillInsideALineRepeats` | `packages/adapters/src/run-shim-node.ts:963-1004` | a run killed between a line's rate limit and the row that names the line, and replayed, repeats the limit |
| `HandOver.UpdateQueue.Push` | `packages/adapters/src/run-node.ts:201-209` | a waiting take is answered, else the message is buffered |
| `HandOver.UpdateQueue.Take` | `packages/adapters/src/run-node.ts:210-216` | the oldest message not handed over, or a wait; never a waiter and a buffered message |
| `HandOver.Exchange` | `packages/adapters/src/run-node.ts:197-218` | over every schedule with one take outstanding: messages are handed over once each, in the order pushed, one for each take issued, and a take waits exactly where more takes were issued than messages pushed |
| `AcpTurn.FiledBeforePulled` | `packages/adapters/src/run-node.ts:821-893` | when the next update is asked for, the gate is open and both rows of every update before it are durable; none is filed that was not pulled, or out of order |
| `AcpTurn.TurnsKeepToBudget` | `packages/adapters/src/run-node.ts:983-1006` | work prompts are at most max(1, budget), and nothing is sent behind a work turn that did not stop with max_turn_requests |
| `AcpTurn.CancelEndsTheRound` | `packages/adapters/src/run-node.ts:798-808` | after a cancel only the round under way finishes: at most one work prompt, and nothing sent behind it |
| `AcpTurn.CorrectionsOnceInOrder` | `packages/adapters/src/run-node.ts:948-960` | corrections go out by seq, none twice in a life, none with an earlier receipt; a receipt only behind the stop of its turn |
| `AcpTurn.ReceiptsWereSent` | `packages/adapters/src/run-node.ts:948-960` | across lives cut off anywhere the receipts are a subset of what was sent |
| `AcpTurn.PinsAreDueEvery` | `packages/core/src/reinjection.ts:39-57` | the pins come due after every turn the interval divides and no other |
| `AcpTurn.NextRecorded` | `packages/adapters/src/run-node.ts:695-780` | the start record stands before the session is asked for, and the session's id before any prompt |
| `AcpTurn.RunIsSafe` | `packages/adapters/src/run-node.ts:694-1053` | every run, over every order of events, keeps all invariants of the connection program |
| `AcpRound.TurnsGoOn` | `packages/adapters/src/run-node.ts:983-1006` | behind every work turn of every run the program leaves exactly where the budget is spent or there is none, the agent does not ask for more, or it was cancelled; else the pins are next exactly where they are due |
| `AcpRound.PinsGoOutWhenDue` | `packages/adapters/src/run-node.ts:978-1001` | in every run the pins stand among the prompts exactly behind the work prompts whose number the interval divides, where they are configured and steering is granted |
| `AcpRound.PinsAreRecorded` | `packages/adapters/src/run-node.ts:907-926` | a row with the turn's number is written each time before the pins go out, and no other such row |
| `AcpRound.DeliveredBeforeMoreWork` | `packages/adapters/src/run-node.ts:948-1005` | every correction asked for when the program looked which are pending has its receipt before more work is sent |
| `AcpRound.ReceiptsAreFiled` | `packages/adapters/src/run-node.ts:948-958` | a correction that went out has a receipt in the ledger as soon as its turn is over, and there are no receipts but those and the ones the ledger held |
| `AcpRound.EscalatesExactly` | `packages/adapters/src/run-node.ts:600-614` | a cancel escalates exactly where the caller lets it and a timer fires while no turn has stopped behind it |
| `AcpRound.SpeaksExactly` | `packages/adapters/src/run-node.ts:681-880` | the frames of every run: one handshake, one session, resumed exactly where an id was given, one cancel exactly where there was one; and the stops are the agent's own, in the order read |
| `AcpRound.AnnouncesTheSession` | `packages/adapters/src/run-node.ts:749-780` | the session journaled and announced is the one the agent gave, or the one resumed |
| `AcpRound.ThrowsExactly` | `packages/adapters/src/run-node.ts:681-870` | the program throws exactly where the versions differ, what it awaits fails, or the review is not independent |
| `AcpRound.TakesInExactly` | `packages/adapters/src/run-node.ts:825-893` | only what is delivered while the gate is open is read, one message is pulled by one take, and an interjection joins those asked for |
| `AcpRun.OneTerminalRecord` | `packages/adapters/src/run-node.ts:413-1316` | until an attempt returns no terminal and no spend; then exactly one terminal, any spend immediately before it, no warning after it, though an orphaned program may still file updates |
| `AcpRun.OrphanFilesBehindTheTerminal` | `packages/adapters/src/run-node.ts:691-694` | a program that outlives a lost race can file its update behind the terminal record |
| `AcpRun.LedgerHoldsPulled` | `packages/adapters/src/run-node.ts:821-893` | in the ledger as a whole the chunks and notes are the updates pulled so far, in order |
| `AcpRun.CompletionIsTruthful` | `packages/adapters/src/run-node.ts:1170-1316` | a completed attempt says what its chunks say, books an estimate over every prompt it sent, and was not cancelled; a cancellation is noted only where the last turn stopped so |
| `AcpRun.RefusedSpawnsNothing` | `packages/adapters/src/run-node.ts:428-559` | a refused attempt has no child and no start record, and its terminal record is the first refusal |
| `AcpRun.RunIsSound` | `packages/adapters/src/run-node.ts:396-1317` | every interleaving of the runner, the program and their environment keeps all invariants |
| `AcpEnding.RefusalIsFirst` | `packages/adapters/src/run-node.ts:428-559` | said over the list of checks: none stands, or the refusal is the first that does |
| `AcpEnding.RefusedEnds` | `packages/adapters/src/run-node.ts:428-559` | everything a refused attempt appends, batch by batch as the runner goes on, and that it returns with the refusal |
| `AcpEnding.AttemptEnds` | `packages/adapters/src/run-node.ts:561-1316` | over all that may happen, an attempt that nothing refuses returns exactly where the spawn answered, the race was decided, the child left and the runner went on; its own rows are then its schedule and what its fate calls for, limit, wake, warning and spend included |
| `AcpEnding.EndsExactly` | `packages/adapters/src/run-node.ts:1055-1316` | the terminal row is a completion exactly where the spawn and the race did not fail, the last turn did not stop cancelled and no work product is missing; a cancellation exactly where that turn did stop so; and else the failure that occurred, a time-out where a cancel had escalated |
| `AcpEnding.SaidByOne` | `packages/adapters/src/run-node.ts:857-861` | the agent's text of one update is that update's |
| `AcpEnding.SaidInOrder` | `packages/adapters/src/run-node.ts:857-861` | and of updates `a` and then `b` what `a` say and then what `b` say |
| `AcpEnding.SentInOrder` | `packages/adapters/src/run-node.ts:821-823` | what an estimate is taken of: the text of every prompt stands whole in it, in order, behind one blank line unless nothing was sent before it |
| `ResumeLives.BinaryDrift` | `packages/adapters/src/resume.ts:88-96` | which halves of the binary's identity moved; none exactly where it is the same |
| `ResumeLives.ReadRecordedBinary` | `packages/adapters/src/resume-node.ts:89-100` | the binary of the last start record |
| `ResumeLives.RecordedIsLast` | `packages/adapters/src/resume-node.ts:89-100` | said over positions: it is that of a start record with none behind it, and there is none exactly where nothing was started |
| `ResumeLives.ReadJournalledSession` | `packages/adapters/src/resume-node.ts:112-132` | the session of the last one opened, searched from the end |
| `ResumeLives.JournalledIsLast` | `packages/adapters/src/resume-node.ts:112-132` | said over positions: it is that of a row that opens a session with none behind it, and there is none exactly where none was opened |
| `ResumeLives.ChooseStrategy` | `packages/adapters/src/resume-node.ts:211-250` | native only where policy, row and journal allow it; a packet that cannot be rebuilt fails the node |
| `ResumeLives.DecideResume` | `packages/adapters/src/resume-node.ts:134-250` | what a resumed life writes and whether it runs, in order |
| `ResumeLives.PreludeIs` | `packages/adapters/src/resume-node.ts:153-249` | every row a resumed life writes first, over positions in the ledger: the question, the refusal and the suspension where the last start record names another binary and the override was not given; else the override where needed, and how it goes on or why the packet is gone |
| `ResumeLives.AnotherBinaryOnlyByOverride` | `packages/adapters/src/resume-node.ts:152-206` | between two consecutive start records of different binaries the operator's override naming the versions of both stands, in every history of killed lives |
| `ResumeLives.RefusedLifeStartsNothing` | `packages/adapters/src/resume-node.ts:161-236` | a life refuses exactly where the last start record names another binary and the override was not given, or it must replay a packet that cannot be rebuilt; and then it starts nothing |
| `ResumeLives.LedgerGrows` | `packages/adapters/src/resume-node.ts:147-252` | the ledger of lives is what each wrote behind what the lives before it had |
| `ResumeLives.RefusalsChangeNothing` | `packages/adapters/src/resume-node.ts:147-250` | any number of lives that refuse, or are killed before they run, leave every later decision as it was: whether a life refuses, whether the gate is closed, which attempt and session it runs |
| `ResumeLives.ResumesTheJournalledSession` | `packages/adapters/src/resume-node.ts:210-252` | over the ledger of any lives: session/resume goes out only under a policy and a row that allow it, with the id of a row behind which no session was opened, and the packet is not sent again; session/new only otherwise or where none was ever opened, with the packet as rebuilt |
| `EventLog.CursorReadsBack` | `spikes/s4-one-port/src/resume.ts:28-34` | an id as it is sent reads back as its seq |
| `EventLog.CursorsAreTheIds` | `spikes/s4-one-port/src/resume.ts:28-34` | and nothing else is read as a cursor: a text reads as a seq exactly where it is the id that seq is sent with |
| `EventLog.ResumesFromTheGreater` | `spikes/s4-one-port/src/resume.ts:48-59` | the greater of the two cursors that can be read, and live where neither can |
| `EventLog.Server.Tick` | `spikes/s4-one-port/server.ts:51-67` | a tick appends one event, burned seq or not, and every listening stream hears it |
| `EventLog.Server.Connect` | `spikes/s4-one-port/server.ts:114-142` | a stream starts with the backlog past its cursor and listens from then on |
| `EventLog.Server.Take` | `spikes/s4-one-port/server.ts:156-166` | the next event of a stream that is not over leaves the queue for the wire |
| `EventLog.Server.Write` | `spikes/s4-one-port/server.ts:156-171` | a write of a stream that is not over arrives; a stream with a limit is over when it has sent that many |
| `EventLog.Server.Drop` | `spikes/s4-one-port/server.ts:107-150` | a severed stream hears nothing more, and delivers nothing more of what it holds |
| `EventLog.PumpsInOrder` | `spikes/s4-one-port/server.ts:156-171` | each time round its loop a stream delivers the next event that waits, in order, until its limit is reached |
| `EventLog.OverIsOver` | `spikes/s4-one-port/server.ts:107-150` | a stream that was severed neither hears, nor takes, nor delivers anything |
| `EventLog.DueExactly` | `spikes/s4-one-port/server.ts:134-142` | delivered, in flight and queued are together the log entries past the cursor exactly where everything logged since the connection is past it |
| `EventLog.StepTracks` | `spikes/s4-one-port/server.ts:47-172` | what every tick, take, write, drop, reconnect and reload keeps: a stream starts where the view of the streams before it ends |
| `EventLog.AsksForTheRest` | `spikes/s4-one-port/src/resume.ts:36-60` | a client that has received something asks for what follows the last of it, whether the browser reconnects to a stale URL or the page is reloaded |
| `EventLog.HonouredExactlyWhereIssued` | `spikes/s4-one-port/server.ts:114-142` | over every continuation that does not forget its cursor a client sees the events past it, all of them once caught up, exactly where the cursor had been issued when it first connected; a cursor in the URL is never forgotten |
| `EventLog.UnissuedIsNot` | `spikes/s4-one-port/server.ts:134-142` | with a cursor past anything issued the next event is sent although it is not past the cursor |
| `EventLog.ClientSeesOneStretch` | `spikes/s4-one-port/server.ts:47-172` | over every run of ticks, writes, drops, reconnects and reloads a client's view is one uninterrupted stretch of the log: no loss, no duplicate, no reordering; only the cursor it first came with is asked to have been issued |
| `EventLog.LiveLosesExactly` | `spikes/s4-one-port/src/resume.ts:48-65` | a client without a cursor follows from where it joined exactly where it was never opened again, without an event, behind entries it was to follow |
| `EventLog.LiveAgainLoses` | `spikes/s4-one-port/src/resume.ts:48-65` | a live stream severed before its first event and opened live again has caught up without the event logged in between |
| `EventLog.Follow` | `spikes/s4-one-port/server.ts:47-172` | a server that carries out such a run, among whatever other streams, ends with the log and the client of the machine |
| `Capabilities.ReadPath` | `packages/adapters/src/capabilities.ts:135-142` | follows a path while it leads through objects |
| `Capabilities.AskCapability` | `packages/adapters/src/capabilities.ts:148-168` | denied for false and null, granted or empty for true and objects, absent for the rest and for unreadable text |
| `Capabilities.AnswerMeans` | `packages/adapters/src/capabilities.ts:148-168` | each answer, exactly where a value of its kind stands at the capability's path |
| `Capabilities.AnswersAreIndependent` | `packages/adapters/src/capabilities.ts:66-168` | what is advertised for one capability is read back for it and for no other |
| `Capabilities.SupersetMeans` | `packages/adapters/src/capabilities.ts:266-291` | nothing is missing exactly where everything asked is granted |
| `Admission.AdmitNode` | `packages/adapters/src/admission.ts:98-157` | the checks of admission in their order, first refusal first |
| `Admission.AdmitMeans` | `packages/adapters/src/admission.ts:98-157` | admitted exactly where every requirement is granted and, above read, mediation is not denied; a refusal names the first requirement not granted, and the level only where all are; unprobed, only what asks for nothing |
| `Admission.CapabilityQuestions` | `packages/adapters/src/quota-route.ts:77-86` | the loop asks each question once, in the order first asked |
| `Admission.NamesAre` | `packages/adapters/src/quota-route.ts:88-98` | what requirements ask of admission: the plan's names translated, the runner's own as they are, and nothing for what no row answers |
| `Admission.QuestionsAreTheNames` | `packages/adapters/src/quota-route.ts:77-98` | the questions are those of the translated requirements, without repetition |
| `Admission.SupersetAdmitsNames` | `packages/adapters/src/quota-route.ts:132-139` | a target is a superset exactly where it grants what admission would ask |
| `Admission.RerouteAgreesWithAdmission` | `packages/adapters/src/quota-route.ts:132-139` | a node admitted where it runs and re-routed with both answers true is admitted on the target, with exactly one exception |
| `Admission.RerouteOntoUnmediated` | `packages/adapters/src/capabilities.ts:310-312` | the exception occurs: a source that never said and a target that denies |
| `QuotaRoute.Choose` | `packages/adapters/src/quota-route.ts:217-246` | the scan over the healthy candidates returns the first superset or the reason to sleep |
| `QuotaRoute.HealthyMeans` | `packages/adapters/src/quota-route.ts:161-165` | a provider is healthy exactly from the instant its last limit named, or from its observation and the backoff on where it named none; and where it has no limit |
| `QuotaRoute.RouteIsBest` | `packages/adapters/src/quota-route.ts:217-260` | re-routed exactly where some row is eligible, to the one of least rank probed first, never to the current adapter; the permission is called unchanged exactly where the first row of the current adapter says so |
| `QuotaRoute.SuspensionIsExplained` | `packages/adapters/src/quota-route.ts:262-266` | each reason to sleep is given exactly where it is the case |
| `QuotaRoute.RouteOnlyImproves` | `packages/adapters/src/quota-route.ts:161-165` | a route available now stays available at every later time, to the same row or a better one |
| `PickReviewer.ListFailures` | `packages/adapters/src/pick-reviewer.ts:130-202` | every requirement a candidate fails, in order |
| `PickReviewer.FailuresAre` | `packages/adapters/src/pick-reviewer.ts:130-202` | each failure is listed exactly where it is the case |
| `PickReviewer.NoFailuresMeansCapable` | `packages/adapters/src/pick-reviewer.ts:130-202` | the list is empty exactly for a capable candidate |
| `PickReviewer.SplitCandidates` | `packages/adapters/src/pick-reviewer.ts:239-247` | the loop parts the candidates, each exclusion with all its failures |
| `PickReviewer.ExcludedAre` | `packages/adapters/src/pick-reviewer.ts:239-247` | the exclusions are the candidates that are not capable, each with what it fails, in probe order |
| `PickReviewer.ChooseReviewer` | `packages/adapters/src/pick-reviewer.ts:239-274` | the four branches of the decision |
| `PickReviewer.ReviewerIsBest` | `packages/adapters/src/pick-reviewer.ts:205-274` | the capable provider other than the producer of least rank, first probed; the producer, marked weaker, exactly where it alone is capable; a human exactly where none is; and every decision with its exclusions |
| `PickReviewer.MoreCapableIsNoWorse` | `packages/adapters/src/pick-reviewer.ts:239-274` | making a candidate capable never makes the decision worse |
| `StableSort.SortSorts` | `packages/adapters/src/pick-reviewer.ts:205-221` | the sort orders, keeps every element and keeps equals in their order |
| `StableSort.PickIsBest` | `packages/adapters/src/quota-route.ts:250-260` | sorting, sieving and taking the first finds the least key, and of those the earliest |
| `ProviderInstall.WhatIsServed` | `packages/adapters/src/provider-install.ts:247-288` | a usable provider serves all turns or all but node execution, and takes its next turn on the shim; a disabled one serves none |
| `ProviderInstall.BundledOnlyAlone` | `packages/adapters/src/provider-install.ts:668-673` | a bundled agent comes first only where nothing else is usable |
| `ProviderInstall.UsableIsFirst` | `packages/adapters/src/provider-install.ts:668-673` | a run goes to the first usable provider that is not bundled, and where there is none to the first usable one |
| `ProviderInstall.OptionsArePermutation` | `packages/adapters/src/provider-install.ts:717-735` | the picker leaves nothing out and adds nothing |
| `ProviderInstall.AvailableComeFirst` | `packages/adapters/src/provider-install.ts:717-735` | the available rows are exactly the usable providers, and come first |
| `ProviderInstall.PickerAgreesWithAdmission` | `packages/adapters/src/provider-install.ts:844-887` | the first row is available exactly where a run is admitted, with the same provider, route and limitation; disabled never, bundled only alone |
| `ProviderInstall.WhenRefused` | `packages/adapters/src/provider-install.ts:878-887` | a run that names no provider is refused exactly where every provider is disabled or has no CLI |
| `ProviderInstall.NamedRefusal` | `packages/adapters/src/provider-install.ts:806-862` | the refusal of a named provider speaks of that name only |
| `ProviderInstall.NamedIsHonouredExactly` | `packages/adapters/src/provider-install.ts:850-875` | a named provider is admitted exactly where both its binaries work, and only as itself with every turn served |
| `SessionLoad.DedupeReplayedNotifications` | `packages/adapters/src/session-load.ts:87-108` | the loop drops by place or by id; fresh and discarded add up to what was replayed |
| `SessionLoad.FreshIsNew` | `packages/adapters/src/session-load.ts:87-108` | fresh notifications continue the log's numbering, their ids unknown and distinct |
| `SessionLoad.ReloadIsIdempotent` | `packages/adapters/src/session-load.ts:87-108` | loading the same replay again appends nothing |
| `SessionLoad.WhatIsKept` | `packages/adapters/src/session-load.ts:98-104` | everything replayed is in the log afterwards exactly where each notification in a known place is known by its id or comes again beyond those places |
| `SessionLoad.PlaceAloneDiscards` | `packages/adapters/src/session-load.ts:98-104` | a new notification in a known place is lost |
| `SessionLoad.DiagnoseSessionLoad` | `packages/adapters/src/session-load.ts:119-212` | over the cap nothing is asked or appended; else the fresh notifications in order and one row of the counts |

## Left out

- Processes, signals, files, SQLite, git, HTTP, timers and the ACP SDK's connection object: ports whose calls are single steps.
- `launch.ts`, `kill-tree.ts`, `probe.ts`, `binary-resolver.ts`, `sandbox.ts`, `connector-policy.ts`, `failures.ts` and the planner files: OS calls, vendor glob rules, or constructors of tagged errors.
- `redactRecordingText` and `redactedShimArgv`: rewriting of text before it is shown or stored.
- `shim-frames.ts`, `structured-output.ts`: what a vendor's line means is a parameter of `ShimRun`; only what the runner does with it is modelled.
- Spilling of oversized lines, results and outputs to the blob store, evidence handles and human-readable messages: they change what a row points at, not which rows there are.
- Costs, and the content of `budget.consumed` beyond the token figure and where it comes from.
- Decoding of bytes: the recorder and the shim decode what they have at hand, so a character cut between two chunks is the decoder's affair; `ShimRun` takes each piece with its decoded text.
- The seq that the ledger assigns to a chunk (`ioChunkSeq`), and the ledger's own storage.
- Shell words that are reserved or look like assignments, and NUL in a word: `ShellQuote` models quoting and tokenising, not what a shell then does with the first word.
- PickReviewer.ListFailures: the 60% headroom of a reviewer's window is computed exactly; the source multiplies by a floating-point 0.6.
- Cursors beyond the safe integers, which the source reads as floating-point numbers.
- ShimRun.ReplayLosesNothing: a line whose uuid an earlier line of the same output has carried is filed by the source only once, so its own limit or compaction is not reported; the lemma is about the first line with a uuid.
- ShimRun.ReplayRepeatsExactly: the last line of an output that no newline ends is modelled, but the replay lemmas are about outputs that end with a newline or in blanks.
- HandOver.UpdateQueue.Take: asks that no other take is outstanding; a second one would replace the first waiter, which then is never answered.
- ResumeLives.AnotherBinaryOnlyByOverride: the override's row names the two versions and not the hashes, as in the source, so of a drift in the hash alone it names one version twice.
- RawFrame.SliceOfObject: the name is compared undecoded, as the source does; a key spelled with escapes is another key.
