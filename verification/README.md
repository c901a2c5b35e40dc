# aeqi: verified model of the core protocols and parsers

A Dafny 4.11 model of the parts of aeqi in which state, interleaving or text handling make the
behaviour hard to see from the code: the chat-stream backlog and the terminal client that folds it,
the pipeline from a model's reply to a blueprint, the frontmatter and shell-marker
scanners, the checkpoint manager, tag recovery, the slug and worktree text formats, and the config
loader's agent merge, id file and validation.

`dafny verify dfyconfig.toml` checks the whole project.

## What is proved

**Chat stream.** `StreamProtocol` is a step system at the granularity of lock, evict, append or
clear, broadcast, copy, subscribe, release and deliver, for any number of senders and subscribers in
any interleaving. Whenever the lock is free the ring is the last `cap` events of the turn in flight;
every subscriber sees one contiguous stretch of the global log, without gap or repetition; each
thread's sends reach the log exactly once and in order. `Backlog.ChatStreamSender` is the imperative
ring, which refines the same pure window. `TuiClient` folds events as the terminal client does, and
a late client's streamed text is a suffix of an early client's in every reachable state, with the
exact condition for equality; every field of the client's view is told from the list of events.

**Blueprint pipeline.** The brace scanner is sound, complete and, for every JSON object text of
RFC 8259 (sections 2 to 7), returns exactly that text whatever brace-free prose precedes it and
whatever follows it. Normalising and gating yields, for every reply, all required keys and enum
values that are canonical up to blanks and case; exactly which replies yield values that are canonical
as written is proved too. The pipeline is idempotent on objects, respects the caps and leaves
other keys alone.

**Frontmatter.** The nested loops over one cursor compute a pure meaning, and printing any document
of the printable class (quoted texts, blanks, comments and lines that say nothing included) and parsing
it returns the metadata and the trimmed body: stated on texts, and on value trees whatever order their
keys are printed in. The setup command's agent files are an
instance. The shell expander maps a shell over the unique tokenisation of a
prompt.

**Checkpoints, tags, text formats, config.** Laws over whole runs of checkpoints and rollbacks; a
tag merge whose table and counters are independent of iteration order; two slug algorithms shown
equal; a porcelain round trip; disk-over-TOML merging; stored ids that never change, and exactly
when an id survives; a validator that reports exactly the problems that are there, and what later
lookups may rely on; a retry loop that sleeps at most 35 times.

## Where the code and its documentation differ

The model follows the code.

- The event header says a client can rebuild the state from the latest `StepStart`. For the streamed
  text this fails from the second step of a turn on (`TuiClient.StepStartIsNotEnough`); the exact
  condition is in `TuiClient.LateClientText`. An `Error` empties the ring but leaves the client's
  text standing (`TuiClient.ErrorLeavesTextBehind`).
- `rollback(1)` is documented as "last" but overlays the checkpoint before the newest one
  (`Checkpoints.RollbackOneIsNotLast`); when the n-th newest checkpoint is on disk after `rollback(n)`
  all the same is stated exactly (`Checkpoints.RollbackShowsNthNewestIff`). `rollback(count)` succeeds
  only where the shadow repository already had a non-empty commit (`Checkpoints.OldestStepBack`), and
  the checkpoint limit is never enforced (`Checkpoints.LimitIsNotEnforced`).
- The gate is there so that every template is one of the wired slugs and every role type one that the
  lower-case enum of crates/aeqi-orchestrator/src/role_registry.rs:60-67 accepts. It writes a value
  only when it snaps it, so `"Venture"` or `" Director "` stays as written and is neither
  (`BlueprintPipeline.CapitalVentureStays`, `BlueprintPipeline.PaddedDirectorStays`);
  `BlueprintPipeline.PipelineCanonicalIff` says for exactly which replies this does not happen.
- The stub blueprint's description exceeds its own cap of 240 for briefs of 200 characters or more,
  and only then is the pipeline not idempotent on replies that are no object.
- Validation looks neither at the providers of built-in runtime presets nor at the fallback provider
  (`ConfigValidation.BuiltInWithoutProvider`, `ConfigValidation.FallbackWithoutProvider`, and exactly
  when in `ConfigValidation.RuntimeProviderConfiguredIff`).
- Project ids are documented to survive reloads. When writing the id file fails, an id that was not on
  file is forgotten by the next load (`ProjectIds.FailedWriteForgets`), and only then
  (`ProjectIds.SameNameSameIdIff`).
- A final carriage return of a worktree path or branch is lost (`Worktrees.RoundTripIff`), and a block
  with a branch line and no path line leaks into the next entry, as no other block does
  (`Worktrees.LeavesNothingIff`).
- Quotes do not make a number a text: `"5"` reads as the number (`FrontmatterValues.ValueRoundTrip`). A
  blank line right below a key turns a list into a map (`FrontmatterRoundTrip.BlankTurnsListIntoMap`).
- An agent file's texts come back as texts exactly when none of them is a boolean or a number
  (`AgentFiles.AgentTextsReadBackIff`).

## Conventions

Foreign calls are parameters: the float parser, the JSON parser, the shell (whose answer may depend
on how many commands have run), the identifier generator, the clock and connection outcomes, the git
call that fails, the contents of directories and files, and the iteration order of hash maps. Hash
map loops pick an arbitrary remaining key. Strings are sequences of Unicode scalar values; the code's
byte positions are character positions here, which agrees because every byte it compares is ASCII.

## Model

| member | source | states |
|---|---|---|
| Backlog.CurrentTurnIsLongest | crates/aeqi-core/src/chat_stream.rs:200-203 | the turn in flight is the longest suffix of the log free of `Complete` and `Error`, both directions |
| Backlog.TurnGrows | crates/aeqi-core/src/chat_stream.rs:244-255 | a `Complete` or an `Error` ends the turn; every other event extends it |
| Backlog.WindowStep | crates/aeqi-core/src/chat_stream.rs:244-255 | publishing one more event slides the pure window by one or empties it |
| Backlog.LastNSnoc | crates/aeqi-core/src/chat_stream.rs:250-254 | keeping only the last n before an append loses nothing of the last n after it |
| Backlog.EvictionKeepsWindow | crates/aeqi-core/src/chat_stream.rs:251-253 | one turn of the eviction loop does not change what survives the append |
| Backlog.ChatStreamSender.New | crates/aeqi-core/src/chat_stream.rs:211-214 | a sender without a backlog |
| Backlog.ChatStreamSender.NewWithBacklog | crates/aeqi-core/src/chat_stream.rs:218-238 | a sender whose ring, of any size, is the (empty) window of an empty log |
| Backlog.ChatStreamSender.Send | crates/aeqi-core/src/chat_stream.rs:240-265 | unless the ring has size zero and the event is not terminal: the eviction loop terminates, the channel grows by the event, and the ring is again the last `cap` events of the turn in flight |
| Backlog.ChatStreamSender.SnapshotAndSubscribe | crates/aeqi-core/src/chat_stream.rs:276-290 | the snapshot is the stretch of the channel that ends where the receiver starts, as long as the ring allows |
| StreamProtocol.StorePreparesWindow | crates/aeqi-core/src/chat_stream.rs:248-255 | under the lock, before the broadcast, the ring becomes the window of the log with the event already in it; every eviction keeps a suffix of the turn |
| StreamProtocol.StepKeepsInv | crates/aeqi-core/src/chat_stream.rs:240-290 | every enabled step of every thread keeps mutual exclusion, the ring's relation to the log at each program point, and every subscriber's past |
| StreamProtocol.RunKeepsInv | crates/aeqi-core/src/chat_stream.rs:240-290 | so does every run, in every interleaving |
| StreamProtocol.ReachableInv | crates/aeqi-core/src/chat_stream.rs:200-290 | the invariant holds in every reachable state for every capacity of at least one |
| StreamProtocol.RingReplaysCurrentTurn | crates/aeqi-core/src/chat_stream.rs:189-203 | whenever the lock is free the ring is the last `cap` events of the turn in flight |
| StreamProtocol.FinishedTurnIsNotReplayed | crates/aeqi-core/src/chat_stream.rs:244-249 | in every reachable state with the lock free, the ring is empty exactly when the last event published is a `Complete` or an `Error` |
| StreamProtocol.SubscriberSeesOneStretch | crates/aeqi-core/src/chat_stream.rs:256-290 | in every reachable state every subscriber's snapshot and live events are one contiguous stretch of the log, a suffix of it once caught up |
| StreamProtocol.LogIsTrace | crates/aeqi-core/src/chat_stream.rs:256-261 | over any run the log grows by exactly the broadcasts, in order |
| StreamProtocol.SentIsPublished | crates/aeqi-core/src/chat_stream.rs:240-264 | per thread, what was in flight plus what it sent is what it broadcast plus what is in flight |
| StreamProtocol.EverySendIsLoggedOnce | crates/aeqi-core/src/chat_stream.rs:240-264 | from the start, each thread's sends are logged once each and in order, save one still in flight |
| StreamProtocol.HolderCanFinish | crates/aeqi-core/src/chat_stream.rs:240-290 | with a capacity of at least one the lock holder can always finish alone within four steps, and a sender then has published exactly its event |
| StreamProtocol.MutualExclusion | crates/aeqi-core/src/chat_stream.rs:240-290 | in every reachable state, whatever the capacity, at most one thread is inside a critical section and it holds the lock |
| StreamProtocol.ZeroCapacityWedges | crates/aeqi-core/src/chat_stream.rs:251-253 | with capacity zero, from every reachable state in which a sender of a non-terminal event has the lock, it keeps it over every run and nothing is broadcast again |
| TuiClient.AppState.constructor | aeqi-cli/src/tui/state.rs:119-141 | a client starts blank |
| TuiClient.AppState.OpenResponseBox | aeqi-cli/src/tui/state.rs:152-158 | adds the opening line and switches to streaming |
| TuiClient.AppState.AppendStreaming | aeqi-cli/src/tui/state.rs:160-162 | the delta is appended to the streamed text |
| TuiClient.AppState.CloseResponseBox | aeqi-cli/src/tui/state.rs:164-177 | non-empty text is taken into a finished message, then the closing line, and the client is idle |
| TuiClient.AppState.Push | aeqi-cli/src/tui/state.rs:203-208 | one message is appended |
| TuiClient.AppState.PushError | aeqi-cli/src/tui/state.rs:210-216 | one error message is appended, the client is in error, the streamed text stays |
| TuiClient.AppState.ProcessEvent | aeqi-cli/src/tui/mod.rs:139-342 | the in-place handling of every event is the pure step of the fold |
| TuiClient.AppState.Drain | aeqi-cli/src/tui/mod.rs:959-961 | handling a batch of received events is the fold over them |
| TuiClient.FoldText | aeqi-cli/src/tui/mod.rs:139-265 | the folded text is what was held before, unless a `Complete` or `Tombstone` passed, followed by the deltas since the last of those |
| TuiClient.FoldMessages | aeqi-cli/src/tui/mod.rs:139-342 | the messages are those each event adds, in order, told from the list of events |
| TuiClient.AnswersAreKept | aeqi-cli/src/tui/state.rs:164-177 | the assistant's messages are exactly the non-empty texts standing right before each `Complete` |
| TuiClient.FoldModel | aeqi-cli/src/tui/mod.rs:141-143 | the model is that of the last `StepStart` |
| TuiClient.FoldTokens | aeqi-cli/src/tui/mod.rs:184-206 | the tokens are those of the last `StepComplete` or `Complete` |
| TuiClient.FoldSteps | aeqi-cli/src/tui/mod.rs:184-192 | one step is counted per `StepComplete` |
| TuiClient.FoldAgent | aeqi-cli/src/tui/mod.rs:139-265 | the agent's state is fixed by the last event that sets it, and by deltas after a retry |
| TuiClient.FoldConcat | aeqi-cli/src/tui/mod.rs:139-342 | folding two stretches in a row is folding them together |
| TuiClient.LateClientText | aeqi-cli/src/tui/mod.rs:139-265 | a client that starts blank later holds a suffix of an earlier client's text, equal exactly when the earlier one held none then or a reset has passed |
| TuiClient.StepStartIsNotEnough | crates/aeqi-core/src/chat_stream.rs:19-21 | the documented promise about `StepStart` fails: a concrete pair of histories |
| TuiClient.SubscriberTextIsSuffix | crates/aeqi-core/src/chat_stream.rs:271-290 | over every run and attach point the same, for a subscriber of the protocol against a client present from the start |
| TuiClient.TurnStartsBlank | aeqi-cli/src/tui/state.rs:164-177 | no text is held right after a `Complete`, nor at the start |
| TuiClient.WholeTurnIsReplayed | crates/aeqi-core/src/chat_stream.rs:216-217 | in every reachable state the snapshot of a turn that fits the ring starts where the turn does |
| TuiClient.ReplayIsExact | crates/aeqi-core/src/chat_stream.rs:189-203 | in every reachable state a replaying subscriber whose turn fitted the ring holds exactly the full text if and only if an early client held none when the turn began or a reset has passed since; the first holds unless the turn before ended in an `Error` |
| TuiClient.ErrorLeavesTextBehind | crates/aeqi-core/src/chat_stream.rs:244-250 | the condition on `Error` cannot be dropped |
| JsonScanner.ExtractJsonObject | crates/aeqi-architect/src/llm.rs:713-751 | returns the balanced slice at the first brace of the unfenced text, and `None` exactly when there is no such slice |
| JsonScanner.BalancedIsUnique | crates/aeqi-architect/src/llm.rs:713-751 | no balanced text is a proper prefix of another, so the answer is unique |
| JsonScanner.ReadNext | crates/aeqi-architect/src/llm.rs:727-748 | each character either completes a balanced text or leaves a prefix with the brace still open |
| JsonScanner.ExtractionFindsObject | crates/aeqi-architect/src/llm.rs:713-751 | trimming, fences, brace-free prose before and anything after do not change which object is found |
| JsonSyntax.NodeIsNeutral | crates/aeqi-architect/src/llm.rs:724-749 | every JSON value text leaves the scanner's state as it found it and never dips below its depth |
| JsonSyntax.ObjectTextIsBalanced | crates/aeqi-architect/src/llm.rs:713-751 | every JSON object text, with escapes and any blanks, is balanced |
| JsonSyntax.ScannerRoundTrip | crates/aeqi-architect/src/llm.rs:711-751 | for every object text, brace-free prefix and tail the scanner hands back exactly the object text |
| Blueprint.ScalarsAt | crates/aeqi-architect/src/llm.rs:801-834 | what each key holds after the six back-fills in sequence |
| Blueprint.TruncationsAt | crates/aeqi-architect/src/llm.rs:836-840 | what each key holds after the four truncations in sequence |
| Blueprint.EnsureArrays | crates/aeqi-architect/src/llm.rs:856-869 | exactly the missing array keys are added, empty; nothing else changes |
| Blueprint.NormalizeBlueprint | crates/aeqi-architect/src/llm.rs:792-873 | an object gets exactly its own and the required keys, each value stated independently of the order of the stages; anything else becomes the stub |
| Blueprint.Truncated | crates/aeqi-architect/src/llm.rs:875-882 | the first characters of the text, as many as the cap allows |
| BlueprintPipeline.GivenIsKept | crates/aeqi-architect/src/llm.rs:801-869 | what a reply gives is kept, up to the caps; the four texts it must give are replaced by their defaults exactly when missing, empty or no text |
| BlueprintPipeline.EmptyObjectDefaults | crates/aeqi-architect/src/llm.rs:801-869 | what an empty object becomes, key by key |
| Blueprint.SnapRoleType | crates/aeqi-architect/src/llm.rs:470-496 | the answer is canonical, and it is flagged as snapped exactly when the folded text was not |
| Blueprint.SnapTemplate | crates/aeqi-architect/src/llm.rs:501-518 | likewise for templates |
| Blueprint.GateRoles | crates/aeqi-architect/src/llm.rs:545-584 | the in-place loop gates each role by itself |
| Blueprint.SchemaGate | crates/aeqi-architect/src/llm.rs:523-585 | the gate is a keywise map over the blueprint |
| BlueprintPipeline.RoleTiers | crates/aeqi-architect/src/llm.rs:483-495 | only the folded text matters; a text becomes a director or an advisor exactly for the words of that tier |
| BlueprintPipeline.TiersAreDisjoint | crates/aeqi-architect/src/llm.rs:483-495 | no word belongs to two tiers, so the order of the branches does not matter |
| BlueprintPipeline.TemplateTiers | crates/aeqi-architect/src/llm.rs:506-517 | only the folded text matters; a text becomes `venture` exactly for the venture words |
| BlueprintPipeline.ContractorIsOperational | crates/aeqi-architect/src/llm.rs:485-487 | one word of the operational tier |
| BlueprintPipeline.MentorIsAdvisor | crates/aeqi-architect/src/llm.rs:488-489 | one word of the advisor tier |
| BlueprintPipeline.CeoIsDirector | crates/aeqi-architect/src/llm.rs:490-492 | one word of the director tier |
| BlueprintPipeline.FoundationIsTrust | crates/aeqi-architect/src/llm.rs:506-517 | one word of each template |
| BlueprintPipeline.GatedRoleOk | crates/aeqi-architect/src/llm.rs:546-583 | a gated role is in order and gated already; exactly the roles in order are left alone; a role type is dropped exactly when it is no text or blank; all else is kept |
| BlueprintPipeline.GatedTemplateOk | crates/aeqi-architect/src/llm.rs:528-542 | a gated template is canonical up to blanks and case, gated already, and untouched exactly when it was canonical |
| BlueprintPipeline.GatedTemplateCanonicalIff | crates/aeqi-architect/src/llm.rs:528-542 | a gated template is canonical as written exactly when it was so or did not fold to a canonical one |
| BlueprintPipeline.GatedRoleCanonicalIff | crates/aeqi-architect/src/llm.rs:570-582 | likewise for the role type of a role |
| BlueprintPipeline.CapitalVentureStays | crates/aeqi-architect/src/llm.rs:503-505 | `Venture` passes the gate untouched and is not canonical |
| BlueprintPipeline.PaddedDirectorStays | crates/aeqi-architect/src/llm.rs:471-480 | so does ` Director ` as a role type |
| BlueprintPipeline.GateIsLocal | crates/aeqi-architect/src/llm.rs:523-585 | only `template` and `seed_roles` are looked at, and gating a field twice is gating it once |
| BlueprintPipeline.GateIsIdempotent | crates/aeqi-architect/src/llm.rs:523-585 | gating twice is gating once |
| BlueprintPipeline.PipelineSnapsUpToCase | crates/aeqi-architect/src/llm.rs:422-430 | for every reply, object or not: all required keys, and a template and role types that are canonical up to blanks and case |
| BlueprintPipeline.PipelineCanonicalIff | crates/aeqi-architect/src/llm.rs:422-430 | for every reply: the outcome's template and role types are canonical as written exactly when the reply's are not canonical but for blanks or case |
| BlueprintPipeline.PipelineCapsAndKeeps | crates/aeqi-architect/src/llm.rs:792-882 | for object replies the four caps hold, name and slug are non-empty, and every other key is kept with its value |
| BlueprintPipeline.PipelineIsIdempotent | crates/aeqi-architect/src/llm.rs:422-430 | running an object's outcome through the pipeline again changes nothing |
| BlueprintPipeline.FoundationIsComplete | crates/aeqi-architect/src/generator.rs:119-197 | the stub has exactly the required keys, with non-empty texts |
| BlueprintPipeline.StubTexts | crates/aeqi-architect/src/generator.rs:119-129 | the stub's texts; the description ends in the brief or in its first 200 characters and an ellipsis |
| BlueprintPipeline.StubSeeds | crates/aeqi-architect/src/generator.rs:146-195 | the stub's seeds: the brief as an idea and in the kickoff quest, one view, one event, one director, nothing else |
| BlueprintPipeline.StubCapIff | crates/aeqi-architect/src/generator.rs:119-129 | the stub's description is within the cap exactly for briefs of at most 199 characters |
| BlueprintPipeline.StubIdempotentIff | crates/aeqi-architect/src/generator.rs:199-205 | for replies that are no object the pipeline is idempotent exactly for such briefs |
| BlueprintPipeline.ParseLlmResponse | crates/aeqi-architect/src/llm.rs:409-438 | fails without an object, fails when it does not parse; otherwise a wrapper yields its inner blueprint and its rationale, anything else itself and the default rationale, normalised and gated |
| BlueprintPipeline.ExtractionIsUnique | crates/aeqi-architect/src/llm.rs:713-751 | a reply has only one extraction |
| Frontmatter.InsertTyped | crates/aeqi-core/src/frontmatter.rs:162-181 | the scalar is inserted with the type its text has |
| Frontmatter.ParseYaml | crates/aeqi-core/src/frontmatter.rs:50-160 | the cursor loop computes the pure meaning of all lines |
| Frontmatter.ParseList | crates/aeqi-core/src/frontmatter.rs:71-113 | the middle loop returns the items and the position where the rest of the lines start |
| Frontmatter.ParseItem | crates/aeqi-core/src/frontmatter.rs:84-111 | the inner loop returns one item's map and the position after it, past the dash line |
| Frontmatter.ParseNested | crates/aeqi-core/src/frontmatter.rs:114-134 | the nested-map loop returns the map and the position after it |
| Frontmatter.ParseFrontmatter | crates/aeqi-core/src/frontmatter.rs:19-30 | the metadata and body of the content, or which marker is missing |
| Frontmatter.FailsIff | crates/aeqi-core/src/frontmatter.rs:20-26 | exactly which marker is missed, and nothing else is an error |
| FrontmatterRoundTrip.BlockParses | crates/aeqi-core/src/frontmatter.rs:114-134 | the lines of a printed nested map, quoted or not, indented by blanks or tabs, with lines that say nothing between them, are consumed whole and give its fields |
| FrontmatterRoundTrip.ListParses | crates/aeqi-core/src/frontmatter.rs:71-113 | the lines of a printed list of maps are consumed whole and give its items in order |
| FrontmatterRoundTrip.InlineReads | crates/aeqi-core/src/frontmatter.rs:139-152 | a printed inline array reads back as its items |
| FrontmatterRoundTrip.BlankArrayReads | crates/aeqi-core/src/frontmatter.rs:144-146 | brackets around nothing but blanks are the empty array |
| FrontmatterRoundTrip.TopSkips | crates/aeqi-core/src/frontmatter.rs:56-60 | between entries, blank lines, comments and lines without a colon change nothing |
| FrontmatterRoundTrip.BlankTurnsListIntoMap | crates/aeqi-core/src/frontmatter.rs:66-71 | right below a key a blank line does matter: it turns a list into a map |
| FrontmatterRoundTrip.DocParses | crates/aeqi-core/src/frontmatter.rs:50-160 | the printed lines of any printable document give its fields |
| FrontmatterRoundTrip.SectionsOfFile | crates/aeqi-core/src/frontmatter.rs:19-30 | header lines that cannot be taken for a marker come back from between the markers, and the trimmed rest as body |
| FrontmatterRoundTrip.RoundTrip | crates/aeqi-core/src/frontmatter.rs:19-181 | parsing the printed file returns the typed readings of its texts, taken from between their quotes, and the trimmed body, for every printable document and every rest |
| FrontmatterValues.FieldsRead | crates/aeqi-core/src/frontmatter.rs:114-134 | a map of scalars, printed in any order of its keys, quoted or not, reads back as that very map |
| FrontmatterValues.ValueReads | crates/aeqi-core/src/frontmatter.rs:50-181 | every value reads back from each of its printed forms: scalars, arrays of texts, maps of scalars, lists of such maps |
| FrontmatterValues.ValueRoundTrip | crates/aeqi-core/src/frontmatter.rs:19-181 | parsing any printed form of metadata returns exactly that metadata and the trimmed body |
| FrontmatterValues.ScalarsArePrintable | crates/aeqi-core/src/frontmatter.rs:162-181 | both booleans, all 64-bit unsigned integers and every plain text that can be quoted have a printed form |
| FrontmatterValues.MetadataRoundTrip | crates/aeqi-core/src/frontmatter.rs:19-181 | all printable metadata has a printed form, and it parses back to exactly that metadata |
| FrontmatterRoundTrip.DocKeys | crates/aeqi-core/src/frontmatter.rs:50-160 | the metadata has exactly the document's keys |
| FrontmatterRoundTrip.DocLookup | crates/aeqi-core/src/frontmatter.rs:50-160 | the last entry of a key decides its value |
| FrontmatterValues.NumeralReads | crates/aeqi-core/src/frontmatter.rs:172-173 | a decimal numeral, with a plus sign or without, reads as its number when that fits 64 bits and as no integer otherwise |
| FrontmatterValues.ScalarReadsBack | crates/aeqi-core/src/frontmatter.rs:162-181 | every scalar reads back from each of its texts: booleans, integers, floats, null and plain texts |
| AgentFiles.RenderedAgentParses | aeqi-cli/src/cmd/setup.rs:185-207 | a rendered agent file parses to the typed readings of the five texts it was made from, one worker, and the trimmed body |
| AgentFiles.AgentTextsReadBackIff | aeqi-cli/src/cmd/setup.rs:185-207 | the five texts come back as texts exactly when none is a boolean or a number |
| ShellExpansion.TokensPrintBack | crates/aeqi-core/src/frontmatter.rs:185-222 | the tokenisation of a prompt prints back to it and is canonical |
| ShellExpansion.TokensAreUnique | crates/aeqi-core/src/frontmatter.rs:189-194 | it is the only canonical one |
| ShellExpansion.ExpandShellCommands | crates/aeqi-core/src/frontmatter.rs:185-222 | the loop renders each command of the tokenisation in order, numbered from zero, and never rescans output |
| ShellExpansion.OutcomeShows | crates/aeqi-core/src/frontmatter.rs:203-212 | output loses exactly the whitespace at its end; an error shows trimmed in brackets, a command that could not run by its cause |
| ShellExpansion.CommandsRunInOrder | crates/aeqi-core/src/frontmatter.rs:189-214 | the k-th command of the prompt is the k-th one run, and nothing else is |
| ShellExpansion.TextIsKept | crates/aeqi-core/src/frontmatter.rs:189-221 | everything but the markers is kept where it is |
| ShellExpansion.NothingToExpand | crates/aeqi-core/src/frontmatter.rs:189-221 | no command runs exactly when no marker is closed, and the prompt is then returned as it is |
| Checkpoints.CheckpointManager.constructor | crates/aeqi-core/src/checkpoint.rs:25-41 | a manager starts uninitialised on whatever the shadow repository already holds |
| Checkpoints.CheckpointManager.NewTurn | crates/aeqi-core/src/checkpoint.rs:49-51 | only the per-turn flag is reset |
| Checkpoints.CheckpointManager.Checkpoint | crates/aeqi-core/src/checkpoint.rs:55-88 | the call is one step of the run model, for every git call that may fail |
| Checkpoints.CheckpointManager.Rollback | crates/aeqi-core/src/checkpoint.rs:91-107 | likewise; the guards, then the checkout |
| Checkpoints.CheckpointIsTakenIff | crates/aeqi-core/src/checkpoint.rs:55-88 | exactly when a checkpoint is taken, on paths and contents; it holds exactly what is visible; any other answer leaves history and count, and which answer it is |
| Checkpoints.ManagersCommitsDiffer | crates/aeqi-core/src/checkpoint.rs:65-68 | over every run, each commit a manager makes differs from the one before it |
| Checkpoints.RunAppends | crates/aeqi-core/src/checkpoint.rs:49-107 | over every run history only grows, by one commit per counted checkpoint |
| Checkpoints.OneCheckpointPerTurn | crates/aeqi-core/src/checkpoint.rs:49-74 | over every run there is at most one checkpoint per turn |
| Checkpoints.CheckpointStaysPut | crates/aeqi-core/src/checkpoint.rs:63-74 | the k-th checkpoint's files are at `HEAD~(count - k)` ever after |
| Checkpoints.RollbackReachesCheckpoint | crates/aeqi-core/src/checkpoint.rs:55-107 | over whole runs, rolling back `count - k` steps brings back every visible file of the k-th checkpoint |
| Checkpoints.OldestStepBack | crates/aeqi-core/src/checkpoint.rs:95-103 | `rollback(count)` passes the guard and fails exactly when the shadow repository had no non-empty commit before |
| Checkpoints.RollbackOneIsNotLast | crates/aeqi-core/src/checkpoint.rs:90-103 | two checkpoints with contents 1 and 2, and `rollback(1)` brings back 1 |
| Checkpoints.RollbackShowsNthNewestIff | crates/aeqi-core/src/checkpoint.rs:90-103 | after a successful `rollback(n)` the n-th newest checkpoint is on disk exactly when each of its files is the same in the one before, or is not in it and was on disk already |
| Checkpoints.LimitIsNotEnforced | crates/aeqi-core/src/checkpoint.rs:83-85 | for every limit there are runs with any number of checkpoints, the first of which can still be rolled back to |
| TagRecovery.GroupedTags | aeqi-cli/src/cmd/ideas.rs:451-475 | exactly the keys that occur, each with all its tags in row order |
| TagRecovery.HarvestSnapshotTags | aeqi-cli/src/cmd/ideas.rs:451-475 | the loop computes that grouping and its size |
| TagRecovery.Best | aeqi-cli/src/cmd/ideas.rs:479-502 | a matching row that no matching row precedes, active before inactive and newer before older, or none when none matches |
| TagRecovery.ResolveById | aeqi-cli/src/cmd/ideas.rs:485-488 | matching by id is an existence check |
| TagRecovery.ResolveByName | aeqi-cli/src/cmd/ideas.rs:489-499 | matching by name finds an idea of that name if there is one, active before inactive, newest first |
| TagRecovery.InsertTags | aeqi-cli/src/cmd/ideas.rs:422-429 | the table gains exactly the idea's tags, added is its growth, added plus present is the number of tags |
| TagRecovery.MergeOne | aeqi-cli/src/cmd/ideas.rs:412-430 | one key moves the table and all four counters to what the enlarged set of handled keys demands |
| TagRecovery.MergeKeys | aeqi-cli/src/cmd/ideas.rs:411-430 | table and counters after the loop, in whatever order the keys come |
| TagRecovery.RecoverTagsMerge | aeqi-cli/src/cmd/ideas.rs:379-440 | refused exactly when the snapshot is over 110 % of live; the final table is the initial one united with the contribution; the summary's conservation laws; a dry run reports the same and changes nothing |
| TagRecovery.SummaryIsUnique | aeqi-cli/src/cmd/ideas.rs:268-275 | the databases determine the summary |
| TagRecovery.SecondMergeAddsNothing | aeqi-cli/src/cmd/ideas.rs:379-440 | merging again adds nothing, changes nothing and counts every occurrence as present |
| Slugs.SplitSnoc | aeqi-cli/src/cmd/work.rs:716-717 | how a split grows with one more character |
| Slugs.CoreSnoc | aeqi-cli/src/cmd/work.rs:705-719 | how the split, filter and join slug grows with one more character |
| Slugs.CoreIsNormal | aeqi-cli/src/cmd/work.rs:705-719 | every slug is in normal form: `[a-z0-9-]`, no dash first, last or doubled |
| Slugs.QuestSlugFixedPoints | aeqi-cli/src/cmd/work.rs:705-725 | the strings a quest slug leaves alone are exactly the non-empty normal forms |
| Slugs.QuestSlugIsIdempotent | aeqi-cli/src/cmd/work.rs:705-725 | quest slugs are non-empty normal forms and stay put |
| Slugs.SlugKeepsLetters | aeqi-cli/src/cmd/work.rs:705-719 | a slug keeps every ASCII letter and digit, in order and in lower case, and nothing else but dashes |
| Slugs.NothingKeptIsQuest | aeqi-cli/src/cmd/work.rs:720-724 | the fallback is for strings of which nothing is kept, and for those only |
| Slugs.OnePass | aeqi-cli/src/cmd/mcp.rs:424-432 | the flag loop writes the slug framed by at most one dash on each side |
| Slugs.BrowserEvidenceSlug | aeqi-cli/src/cmd/mcp.rs:420-434 | the one-pass slug is the first 64 characters of the split, filter and join slug |
| Worktrees.ParseWorktreePorcelain | aeqi-cli/src/cmd/work.rs:749-775 | the loop computes the pure reading of the listing |
| Worktrees.StanzaReads | aeqi-cli/src/cmd/work.rs:754-771 | a stanza yields its own entry, other attributes are ignored and nothing is left for the next |
| Worktrees.ListingReadsBack | aeqi-cli/src/cmd/work.rs:749-775 | parsing a printed listing returns its entries in order, less one final carriage return per text |
| Worktrees.RoundTripIff | aeqi-cli/src/cmd/work.rs:749-775 | the round trip holds exactly when no path or branch ends in a carriage return |
| Worktrees.LastStanzaNeedsNoBlank | aeqi-cli/src/cmd/work.rs:754-754 | the last stanza is read even when no empty line follows it |
| Worktrees.LastLineDecides | aeqi-cli/src/cmd/work.rs:764-771 | the last path line and the last branch line of a block decide |
| Worktrees.LeavesNothingIff | aeqi-cli/src/cmd/work.rs:754-771 | a block of lines leaves what follows to be read on its own exactly when it has a path line or no branch line |
| Worktrees.StrayBranchLeaks | aeqi-cli/src/cmd/work.rs:755-771 | a branch line alone in its block is carried into the next entry |
| AgentMerge.SortIsStable | crates/aeqi-core/src/config.rs:1534-1534 | the result is sorted and keeps equal names in their order |
| AgentMerge.StableSortIsUnique | crates/aeqi-core/src/config.rs:1534-1534 | a stable sort leaves no choice |
| AgentMerge.LeIsLexicographic | crates/aeqi-core/src/config.rs:1534-1534 | a prefix comes first, and otherwise the first differing character decides |
| AgentMerge.DiscoverAgents | crates/aeqi-core/src/config.rs:1483-1536 | the loop loads every directory but `shared` under the directory's name, sorted, or reports an unreadable listing |
| AgentMerge.LoadedByName | crates/aeqi-core/src/config.rs:1497-1531 | the agent of a name is the one its directory loads |
| AgentMerge.DiscoveredIff | crates/aeqi-core/src/config.rs:1497-1531 | an agent is discovered exactly when some directory other than `shared` loads it, under the directory's name and with its file's settings |
| AgentMerge.DiscoveryIsDeterministic | crates/aeqi-core/src/config.rs:1480-1482 | discovery does not depend on the order of the directory listing |
| AgentMerge.Config.DiscoverAndMergeAgents | crates/aeqi-core/src/config.rs:1542-1582 | the agents become the merge, the warnings are the overlaps in order; a failed discovery changes nothing |
| AgentMerge.WarnedIff | crates/aeqi-core/src/config.rs:1561-1569 | a name is warned about exactly when both sides have it |
| AgentMerge.WarningsAreInOrder | crates/aeqi-core/src/config.rs:1561-1569 | warnings come in the order of the config's agents |
| AgentMerge.MergedByName | crates/aeqi-core/src/config.rs:1571-1578 | every name keeps the disk's agents where the disk has it, the config's elsewhere |
| AgentMerge.MergeIsOverride | crates/aeqi-core/src/config.rs:1539-1582 | sorted, lookup is disk over TOML, no TOML-only agent is lost, no duplicates that neither side had |
| AgentMerge.MergedNamesAreDistinct | crates/aeqi-core/src/config.rs:1483-1582 | merged names are pairwise distinct whenever the TOML names were |
| AgentMerge.MergeIsIdempotent | crates/aeqi-core/src/config.rs:1542-1582 | merging twice is merging once |
| ProjectIds.Config.EnsureProjectIds | crates/aeqi-core/src/config.rs:1431-1457 | the in-place loop, the conditional write and both failures are one load of the model |
| ProjectIds.AssignKeeps | crates/aeqi-core/src/config.rs:1439-1447 | no id changes, only missing names are added, one per identifier drawn, and every project without an explicit id gets its name's |
| ProjectIds.LoadKeepsIds | crates/aeqi-core/src/config.rs:1431-1457 | exactly when each outcome occurs; the file is written exactly when the map grew, and what was stored is never altered |
| ProjectIds.StoredIdsAreStable | crates/aeqi-core/src/config.rs:1427-1457 | over any sequence of loads, failed or not, the stored map only grows |
| ProjectIds.GivenIdIsStoredIff | crates/aeqi-core/src/config.rs:1431-1457 | the id a load gives out is the stored one afterwards exactly when the file could be read and either written or had the name already |
| ProjectIds.SameNameSameId | crates/aeqi-core/src/config.rs:1427-1457 | equal names without explicit ids get equal ids in one load, and in two loads of which the first keeps the id it gives |
| ProjectIds.SameNameSameIdIff | crates/aeqi-core/src/config.rs:1427-1457 | over any sequence of loads, and with a generator that does not repeat itself, only then |
| ProjectIds.FailedWriteForgets | crates/aeqi-core/src/config.rs:1450-1455 | a concrete pair of loads in which a failed write loses an id |
| ConfigValidation.CheckProject | crates/aeqi-core/src/config.rs:1310-1337 | the problems of one project, duplicates judged against the projects before it |
| ConfigValidation.CheckAgent | crates/aeqi-core/src/config.rs:1350-1368 | likewise for one agent |
| ConfigValidation.ValidateProjects | crates/aeqi-core/src/config.rs:1307-1337 | the loop with its two sets reports every project's problems in order |
| ConfigValidation.ValidateAgents | crates/aeqi-core/src/config.rs:1348-1368 | likewise for agents |
| ConfigValidation.ValidatePresets | crates/aeqi-core/src/config.rs:1379-1386 | likewise for presets, in the map's iteration order |
| ConfigValidation.ValidateRepos | crates/aeqi-core/src/config.rs:1388-1399 | likewise for repository references |
| ConfigValidation.Validate | crates/aeqi-core/src/config.rs:1300-1425 | all problems in the order they are reported |
| ConfigValidation.SilentIffSound | crates/aeqi-core/src/config.rs:1300-1425 | validation is silent exactly on sound configs, in whatever order presets are visited |
| ConfigValidation.ReportedIff | crates/aeqi-core/src/config.rs:1300-1425 | for every kind of problem: it is reported exactly when it is there, told from the config alone |
| ConfigValidation.ReportIsInOrder | crates/aeqi-core/src/config.rs:1300-1425 | the report goes through the config part by part |
| ConfigValidation.BuiltInIff | crates/aeqi-core/src/config.rs:961-979 | the built-in presets: every provider under its own name with either suffix, and no others |
| ConfigValidation.DefaultProviderIff | crates/aeqi-core/src/config.rs:996-1007 | the order in which providers are preferred |
| ConfigValidation.UnknownProjectRuns | crates/aeqi-core/src/config.rs:1054-1063 | a name no project has runs on the default runtime, as an agent unless the preset says otherwise |
| ConfigValidation.ProjectNamedIsIt | crates/aeqi-core/src/config.rs:1217-1219 | looking up a name no earlier project has finds that very project |
| ConfigValidation.ValidatedLookups | crates/aeqi-core/src/config.rs:1031-1063 | in a validated config a project's name finds it, and its runtime is the named preset with a mode filled in, never the fallback when a preset is named |
| ConfigValidation.RuntimeProviderConfiguredIff | crates/aeqi-core/src/config.rs:988-1063 | a validated project runs on a configured provider exactly when its runtime is one of the config's presets, a built-in one whose provider is configured, or the fallback with some provider configured |
| ConfigValidation.BuiltInWithoutProvider | crates/aeqi-core/src/config.rs:961-986 | a config that validates cleanly and names a built-in preset without its provider |
| ConfigValidation.FallbackWithoutProvider | crates/aeqi-core/src/config.rs:1045-1051 | a config that validates cleanly, names no runtime and has no provider |
| ConnectRetry.SleptClosedForm | aeqi-cli/src/cmd/mcp.rs:113-115 | the summed backoff in closed form |
| ConnectRetry.ConnectWithRetry | aeqi-cli/src/cmd/mcp.rs:89-120 | under every environment with an honest clock at most 35 sleeps; retried only on transient failures before the deadline, given up on one only after it |
| ConnectRetry.BoundIsTight | aeqi-cli/src/cmd/mcp.rs:89-120 | the worst environment is an honest one, and in it a call can end only after exactly 35 sleeps |

## Left out

- Broadcast receiver lag and a poisoned backlog mutex: library behaviour; a receiver is a cursor on the log.
- ExtractJsonObject: depth is unbounded; the 32-bit counter would overflow only past two thousand million open braces.
- ProcessEvent: the text put around messages, previews, cost, context percentage and 32-bit token overflow are not modelled; the variants that only add a system line are one constructor, `Notice`.
- InsertTyped: the float grammar and rounding belong to the float parser, which is a parameter; a float that is not finite becomes null, as in the code.
- EnsureProjectIds: a failed write leaves the file as it was; a write cut short is not modelled.
- Checkpoint: git is modelled by its trees; directory and file conflicts, ignored paths inside the project's own ignore files and other processes are not. `list` and `cleanup` are thin wrappers and left out.
- Best: rows that tie on status and creation time are taken in scan order; SQLite leaves that order open.
- RecoverTagsMerge: database errors, and the join that produces the snapshot's rows, are left out.
- Validate: weights and budget are reals, so a weight or budget that is not a number is not modelled.
- `git_ref_component` and `find_quest_worktree`: would only add easy members.
- `runtime_for_agent` and the model defaults: the same resolution again.
- WebSocket, HTTP and IPC transport, prompts, rendering, hooks, scopes, path and text sanitising, the daemon and the command line.
