# Trellis: a verified model of its hooks, walkers, audit and logs

Dafny models of eight parts of the Trellis repository that keep state over a loop, a
protocol or a stream, with proofs of what they promise. `dafny verify dfyconfig.toml`
checks all of it.

- **Claude Code hooks.** `Transcript`, `TranscriptScan` and `TranscriptHistory` are the
  transcript state machine: the mutable scanner, its steps, and what its facts mean in
  terms of the whole history of calls and replies; `BlockMeaning` tells the effect of a
  block, and of a call with its reply, from the block's own fields. `TranscriptLines` cuts a
  file into lines, `TranscriptReader` is the bounded, clock-checked reader with its raw-byte
  prefilter, `ReaderPace` what it holds and how far it reads between two looks at the
  clock, as a function of the file, and `ReaderLimits` the files that reach its bounds.
  `TranscriptMeaning` says what an answer tells about the file, and `EntryMeaning` which
  blocks a file holds. `HookMarkers` is the marker protocol under every interleaving of hook
  processes, `HookDecisions` the three decisions on top of it, `HookAnswers` what each of
  them says of the input's fields and of the file it reads, and `GradeRuns` whole runs of
  stop events.
- **Paging walkers.** `Documents`, `ReindexVectors` and `ResyncMetadata`: loops over pages
  that write the vector store they also read.
- **Edge provenance migration.** `MigrateProvenance`: snapshot, classification, rewrite.
- **Fallback audit.** `SyntaxTree`, `ExceptVisitor` and `FallbackAudit`: the stack-keeping
  visitor and the two modes of judging a handler. `TreeMeaning` says what lies below a node,
  field by field, and `AuditMeaning` what the tests on bodies and names look for.
- **Access log.** `AccessLog` walks a JSON answer level by level; `AccessLogMiddleware`
  buffers an answer up to a cap while passing it on; `AccessLogMeaning` goes from ids to an
  answer of each route and back.
- **Workflow parser.** `ToolPins`: an indentation-sensitive line parser, with a printer.
- **Candidate window.** `CandidateWindow`: sort, cut, filter and cut, and the arms that
  replay it.

What changes state in the source changes state here: the scanner, the marker directory,
the stores, the visitor and the middleware are classes, and loops are loops. Each such
method is proved against a function of the old state, and the theorems are about that
function.

Things outside the code are parameters over which every statement is quantified: the JSON
parser, the UTF-8 encoder, the recognition of a pack id in a reply, the clock's verdicts,
read faults, the digest of a marker, failing claims, the egress gate and the embedder,
failing writes, and the text an expression is written back as.

## Findings

Where the code does less, or something else, than its documentation suggests, the model
follows the code.

- The comment on the scanner's byte budget reads as if the clock were looked at every
  4 MiB. The line being read counts only after the look, and the tail of an over-long line
  not at all. Up to 10 MiB go by between two looks, and 6 MiB when every line fits; both
  bounds hold for every file (`ReaderPace.FileIsBounded`) and are reached
  (`ReaderLimits.GapIsReached`). A cap on the length of lines keeps the 4 MiB exactly when it
  is at most 16 KiB (`ReaderLimits.BudgetKeptExactlyWhen`).
- Each read is at most 1 MiB and a byte, and memory is bounded, but by three reads, not one:
  the line, or its head and the last chunk of its tail, are still held while the next read
  is built. At most 3 MiB and a byte are alive at once, a line without an end reaches that
  (`ReaderLimits.LiveIsReached`), and one read's worth is the most exactly for files in which
  no line and no two lines in a row are longer than that (`ReaderLimits.HeldExactlyWhen`).
- The prefilter is lossless on a line exactly when its bytes show what it holds
  (`TranscriptMeaning.ShownExactlyWhen`). Section 7 of RFC 8259 lets a writer escape the
  tokens it looks for, and such a line is lost (`TranscriptMeaning.AnEscapedCallIsLost`).
- "One ask covers every pack still ungraded" holds for the packs whose claims work. An older
  one whose claim fails is asked about at the next event that may ask for it, and no other is
  (`GradeRuns.AskedAgainExactlyWhen`, with a transcript in
  `GradeRuns.AFailedSweepAsksAgain`). That each pack is asked about at most once holds
  regardless.
- Feedback still in flight is settled as if it had worked. If it then errors, its packs count
  as ungraded again (`TranscriptHistory.AnInFlightGradeCanFail`); feedback that was applied is
  final (`TranscriptHistory.AppliedGradeIsFinal`).
- A session id is not checked for NUL, which separates the parts of a marker key. Two nudges
  with different keys share a marker exactly when a prompt's session id spells another
  session, a NUL and one of its subagents (`HookDecisions.NudgesShareExactlyWhen`); the
  second one then stays silent (`HookDecisions.ANudgeSilencesAnother`). The keys of the edit
  guard and of the grading ask stay apart all the same
  (`HookDecisions.GuardsShareOnlyAKey`, `GradeRuns.GradeMarkersAgree`).
- The migration's drift error asks to look into the data "before migrating", and is raised
  after the writes. A run, drifting or not, leaves the store as it was exactly when it is a
  dry one or the write of every candidate it scanned fails
  (`MigrateProvenance.WritesNothingExactlyWhen`); of two edges, one malformed, the other one
  is rewritten and then drift is raised (`MigrateProvenance.ADriftedRunHasWritten`).
- It is to walk every current edge, and walks the outgoing ones of the nodes listed, at most
  ten million; the edge store takes any source. A live run leaves no legacy edge it could
  read exactly when each has a listed source and a write that works
  (`MigrateProvenance.LeavesNoCandidateExactlyWhen`); one with another source is passed by
  without a word (`MigrateProvenance.AnUnlistedSourceIsPassedBy`).
- A line that follows a `run: |` block and is indented deeper than the block's header is
  read as part of its body, whatever it is (`ToolPins.PrintThenParse` has the exact
  condition). The header's indentation is that of its dash, so `env:` or `shell:` after the
  block of a bare `- run: |` step is read as a command (`ToolPins.ABlockTakesTheNextKey`). The
  roster of gates is unharmed by that: it changes only with a swallowed step that invokes a
  tool, or a swallowed plain line that begins with one (`ToolPins.RosterIsRightExactlyWhen`).

## Model

| member | source | states |
|---|---|---|
| TranscriptScan.ToolNameIsRecovered | src/trellis_cli/hooks.py:173-191 | a tool of a server whose name has no double and no trailing underscore is recognised, by its bare name, exactly when the server name contains "trellis" in any case |
| TranscriptScan.Scan.Block | src/trellis_cli/hooks.py:266-273 | folding one JSON block in place is exactly one step of the state machine, and asks to stop exactly at the first sight of a retrieval call when told to |
| TranscriptScan.Scan.ToolUse | src/trellis_cli/hooks.py:275-297 | the new facts, seen ids and waiting calls after a call block |
| TranscriptScan.Scan.ToolResult | src/trellis_cli/hooks.py:299-311 | the new facts, waiting calls and served packs after a reply block |
| TranscriptScan.Scan.Apply | src/trellis_cli/hooks.py:313-325 | the effect of a settled trace or feedback call on the facts and on nothing else |
| TranscriptScan.Scan.FinishScan | src/trellis_cli/hooks.py:327-333 | every call in flight is settled in order and none is left waiting |
| BlockMeaning.RetrievalIsSeen | src/trellis_cli/hooks.py:275-285 | a call block, not seen before, to one of the seven retrieval tools of a Trellis server is counted, sets the retrieval flag, waits for its reply, and is where a scan may stop |
| BlockMeaning.RetrievalServes | src/trellis_cli/hooks.py:299-311 | a retrieval call and, after any other blocks, its reply: unless it is an error, a pack it names for the first time joins the end of the ungraded ones, and nothing else changes |
| BlockMeaning.FeedbackGrades | src/trellis_cli/hooks.py:286-325 | a feedback call and, after any other blocks, its reply: if and only if it is no error and the input lists an item that is not blank, the one at `pack_id` leaves the ungraded packs, or all do when none is named |
| BlockMeaning.WithoutMeans | src/trellis_cli/hooks.py:313-325 | after a pack left, exactly the other packs are still ungraded |
| BlockMeaning.SavedTraceIsSeen | src/trellis_cli/hooks.py:286-315 | a call that saves a trace and, after any other blocks, its reply: unless it is an error, the trace counts as saved, and nothing else changes |
| BlockMeaning.InFlightSettles | src/trellis_cli/hooks.py:327-333 | feedback or a trace still without a reply at the end of any transcript has graded its packs, or all of them, or has been saved |
| BlockMeaning.OtherToolOnlyCounts | src/trellis_cli/hooks.py:275-297 | a call to a tool of another server, or to none of the nine tools, is counted and nothing more |
| BlockMeaning.UnrecognisedOnlyCounts | src/trellis_cli/hooks.py:173-191 | a call whose name is no string, or does not spell one of the nine tools of a Trellis server, is counted and nothing more |
| BlockMeaning.OtherBlocksDoNothing | src/trellis_cli/hooks.py:266-303 | a repeated call, a reply to no waiting call and a block of any other type leave the state as it was |
| BlockMeaning.TranscriptsAreSound | src/trellis_cli/hooks.py:254-325 | in every state a transcript leads to, waiting calls have been seen and have different ids, and ungraded packs were served and are listed once |
| TranscriptHistory.StateMeansHistory | src/trellis_cli/hooks.py:266-325 | at every prefix of every event sequence: seen ids, waiting calls, served packs and facts are what the history of calls and replies says |
| TranscriptHistory.FactsMeanHistory | src/trellis_cli/hooks.py:251-333 | the final facts of every event sequence, told without state: ungraded in first-serving order, each call counted once, in-flight feedback applied, errored replies ignored |
| TranscriptHistory.UngradedIff | src/trellis_cli/hooks.py:299-333 | a pack is ungraded if and only if its first serving is followed by no applied grade and no grade is in flight; the list has no duplicates |
| TranscriptHistory.UngradedWasServed | src/trellis_cli/hooks.py:305-309 | an ungraded pack was served by a non-error reply to a retrieval |
| TranscriptHistory.AppliedGradeIsFinal | src/trellis_cli/hooks.py:313-325 | a pack graded by applied feedback after its serving is never ungraded again, however the transcript grows |
| TranscriptHistory.AnInFlightGradeCanFail | src/trellis_cli/hooks.py:327-333 | a grade that was in flight and then errored leaves its packs ungraded again |
| TranscriptHistory.FinishIgnoresOrder | src/trellis_cli/hooks.py:327-333 | settling the calls in flight gives the same facts in any order |
| Transcript.RedeliveryIsInvisible | src/trellis_cli/hooks.py:275-303 | a block for an already resolved call, delivered again at any later point, changes no later state |
| Transcript.StoppingKeepsTheAnswer | src/trellis_cli/hooks.py:282-285 | a fold that stops at the first retrieval reports the same retrieval flag as the whole fold |
| TranscriptReader.SkipRestOfLine | src/trellis_cli/hooks.py:341-352 | reads exactly to the end of the over-long line, chunk by chunk with a look at the clock between two, or gives up for a late clock or a fault |
| TranscriptReader.ScanTranscript | src/trellis_cli/hooks.py:355-443 | for every file, clock and fault pattern: an answer is the facts of the simple scan, a readable file without trouble has one, missing and unreadable paths answer as documented, a scan to the end reads and holds exactly what `FileMeter` says of the file, and any scan stays within the bounds on memory and on the bytes and lines between two looks at the clock |
| TranscriptReader.FetchLine | src/trellis_cli/hooks.py:401-417 | the next newline-split line if it fits the cap, or word that it was too long and is behind us, with the pace after it |
| TranscriptReader.ReadOnClock | src/trellis_cli/hooks.py:404-412 | one bounded read and, when due, a look at the clock; the counters and the meter after both |
| TranscriptReader.ScanLine | src/trellis_cli/hooks.py:418-438 | one line is folded if the raw-byte prefilter wants it and skipped otherwise |
| EntryMeaning.LineYieldsItsItems | src/trellis_cli/hooks.py:424-438 | a line that parses to an entry whose message has a content list, and that is not left out, yields one event for each item of the list, in order, the k-th from the k-th item |
| EntryMeaning.OtherLinesYieldNothing | src/trellis_cli/hooks.py:424-438 | a line of any other shape yields no event |
| EntryMeaning.MarkIsIgnored | src/trellis_cli/hooks.py:427-431 | with sidechain entries included, a marked entry is read as the same entry without the mark |
| EntryMeaning.MarkIsObeyed | src/trellis_cli/hooks.py:427-431 | without them, a marked entry yields nothing |
| EntryMeaning.FileYieldsItsBlocks | src/trellis_cli/hooks.py:401-438 | the events of a file are those of all content items of all lines that fit, one after the other |
| EntryMeaning.FileIsItsBlocks | src/trellis_cli/hooks.py:355-443 | the facts of a file are those of folding every content block of it in order, with its over-long lines counted; behind the prefilter too, when each line shows what it holds |
| TranscriptLines.FirstChunk | src/trellis_cli/hooks.py:402-413 | a read of the cap and one byte more tells a line that fits from a longer one |
| TranscriptLines.LinesAreTheFile | src/trellis_cli/hooks.py:401-406 | the lines of the simple scan are the file, cut after each newline and nowhere else |
| ReaderPace.LineKeepsPace | src/trellis_cli/hooks.py:399-417 | reading any line, tail included, keeps the invariant that the bytes since the last look are covered by the counted ones and one tail chunk for each full head |
| ReaderPace.FileIsBounded | src/trellis_cli/hooks.py:127-130 | for every file at most 3 MiB + 1 bytes are alive at once, and at most 256 lines and 10 MiB, or 6 MiB when every line fits, are read between two looks at the clock |
| ReaderLimits.GapIsReached | src/trellis_cli/hooks.py:127-130 | files that reach the 10 MiB, and the 6 MiB with lines that all fit |
| ReaderLimits.BudgetKeptExactlyWhen | src/trellis_cli/hooks.py:127-131 | a cap on line length keeps the 4 MiB between two looks, for all files under it, if and only if 256 lines at the cap do |
| ReaderLimits.LiveIsReached | src/trellis_cli/hooks.py:341-352 | a line without an end has the reader hold its head, one chunk and the next: 3 MiB + 1 bytes |
| ReaderLimits.HeldExactlyWhen | src/trellis_cli/hooks.py:401-417 | one read's worth is the most ever alive if and only if no line and no two consecutive lines together are longer |
| TranscriptMeaning.ShownExactlyWhen | src/trellis_cli/hooks.py:418-423 | a line is safe behind the prefilter after every event sequence if and only if it holds the call token, or no call and for each reply the reply token and the written id |
| TranscriptMeaning.PrefilterLosesNothing | src/trellis_cli/hooks.py:418-423 | when every line that fits shows what it holds, scanning only the wanted lines gives the state of scanning every line, from any state and whether or not it stops early |
| TranscriptMeaning.AnEscapedCallIsLost | src/trellis_cli/hooks.py:418-423 | a one-line file whose call token is written with an escape: one call in the full scan, none behind the prefilter |
| TranscriptMeaning.SkippedAreLong | src/trellis_cli/hooks.py:413-417 | for every file the skipped lines of its facts are exactly its over-long lines, with the prefilter or without |
| TranscriptMeaning.SidechainIsInvisible | src/trellis_cli/hooks.py:380-382 | a scan that leaves sidechain entries out gives the same state as if their lines were not there |
| TranscriptMeaning.StopAtRetrievalIsSound | src/trellis_cli/hooks.py:437-443 | the early-stopping scan of any file reports the same retrieval flag as the full scan |
| TranscriptMeaning.AnswerMeansHistory | src/trellis_cli/hooks.py:355-443 | when every line that fits shows what it holds, a file's facts are the history of every block in those lines |
| HookMarkers.JoinInjective | src/trellis_cli/hooks.py:464-466 | keys without NUL are told apart by the text that is hashed |
| HookMarkers.JoinsAgreeExactlyWhen | src/trellis_cli/hooks.py:464-466 | any two keys have the same hashed text if and only if they have the same parts once each is cut at its NULs |
| HookMarkers.MarkersAgreeExactlyWhen | src/trellis_cli/hooks.py:464-466 | with a digest that tells texts apart, two keys of one hook share a marker if and only if those parts are the same |
| HookMarkers.HookState.Claim | src/trellis_cli/hooks.py:471-484 | a claim is won exactly when creation works and the marker was absent, and then adds that marker only |
| HookMarkers.RunKeepsInv | src/trellis_cli/hooks.py:468-484 | in every interleaving from any directory winners hold distinct markers, losers lost to an existing one, and every new marker has a winner |
| HookMarkers.SpokenOncePerKey | src/trellis_cli/hooks.py:451-484 | no two processes speak on the same key, whatever markers there were, failing claims and colliding digests included |
| HookMarkers.SilenceHasAWinner | src/trellis_cli/hooks.py:454-458 | a process silenced by a marker lost to one left from before or to a process that created it |
| HookMarkers.RetryPasses | src/trellis_cli/hooks.py:590-607 | once a process spoke on a key every other one with that key ends silent, and a later one is silent at its first look |
| HookMarkers.SweptPasses | src/trellis_cli/hooks.py:663-666 | in every interleaving, once a key was swept without failure a later process with it is silent at its first look, and no other speaks on it that had not won it before |
| HookMarkers.AloneIsARun | src/trellis_cli/hooks.py:537-673 | a decision run alone is one of the interleavings, with the same reply and markers |
| HookDecisions.DecidePrework | src/trellis_cli/hooks.py:537-570 | the reply and the markers after the nudge decision, for every input, transcript answer and fault pattern |
| HookDecisions.DecideEditGuard | src/trellis_cli/hooks.py:573-614 | the same for the edit guard, with the first known transcript answer |
| HookDecisions.DecideGrade | src/trellis_cli/hooks.py:630-673 | the same for the grading ask, its older packs claimed as well |
| HookDecisions.OneNudgeOneDeny | src/trellis_cli/hooks.py:537-614 | in every interleaving from any directory each session, or session and agent, is nudged at most once and denied at most one edit |
| HookDecisions.NudgesShareExactlyWhen | src/trellis_cli/hooks.py:537-570 | with a digest that tells texts apart, two nudges share a marker if and only if their keys are equal or one session id spells the other's session, a NUL and its agent |
| HookDecisions.GuardsShareOnlyAKey | src/trellis_cli/hooks.py:573-614 | with such a digest two edit guards share a marker only on the same key, whatever the session ids hold |
| HookDecisions.ANudgeSilencesAnother | src/trellis_cli/hooks.py:464-466 | two inputs with different keys of which the first, once spoken to, silences the second, whatever the digest |
| HookAnswers.NudgedExactlyWhen | src/trellis_cli/hooks.py:537-570 | a prompt of the main session is nudged, with the marker as the only change, if and only if the session was not, the claim works, and the history of the file at `transcript_path`, subagents' entries left out, has no retrieval call; event, session, agent and path are told from the input's fields |
| HookAnswers.StartIsNudged | src/trellis_cli/hooks.py:549-556 | a subagent that starts is nudged, without reading a file, if and only if it was not and the claim works |
| HookAnswers.NoNudgeOtherwise | src/trellis_cli/hooks.py:545-558 | an input without a session, or whose event does not fit its agent, is met with silence and no claim |
| HookAnswers.AgentMeans | src/trellis_cli/hooks.py:507-510 | the agent is the text at `agent_id` of 1 to 128 letters, digits, underscores and dashes, and there is none otherwise |
| HookAnswers.DeniedExactlyWhen | src/trellis_cli/hooks.py:513-614 | an edit by one of the four tools, of a subagent or in full scope, is denied if and only if none was for this session and agent, the claim works, and the history of the first of the named transcripts that can be read, a subagent's with its own entries, has no retrieval call |
| HookAnswers.NoDenyOtherwise | src/trellis_cli/hooks.py:573-590 | any other event or tool, and an edit of the main session outside its scope, is met with silence and no claim |
| HookAnswers.AskedOfTheFile | src/trellis_cli/hooks.py:630-673 | a stop asks for a grade of a pack if and only if no stop hook is active, it is the last ungraded one of the whole history of the file at `transcript_path`, or for a subagent at `agent_transcript_path` with its own entries, and is a pack id, enough tools were used, its marker is absent and its claim works; only the main session is asked for a trace, if its history has saved none |
| HookAnswers.NoAskOtherwise | src/trellis_cli/hooks.py:630-673 | nothing but an ask is ever said; any other event, or a stop while a stop hook is active, is met with silence and no claim |
| HookAnswers.ActiveMeans | src/trellis_cli/hooks.py:617-627 | a stop hook is active when the field is true, or spells it in any case with whitespace around it |
| HookAnswers.PackIdMeans | src/trellis_cli/hooks.py:134-137 | a pack id is 26 characters of the base-32 alphabet without I, L, O and U |
| HookAnswers.UnknownStaysSilent | src/trellis_cli/hooks.py:537-673 | where no transcript can be read, a prompt, an edit and a stop are met with silence and leave the markers alone |
| GradeRuns.AskedPackWasServed | src/trellis_cli/hooks.py:655-670 | what is asked about was served by a non-error retrieval in the file that was read |
| GradeRuns.AskedAtMostOnce | src/trellis_cli/hooks.py:658-662 | over any run of stop events each pack is asked about at most once per session and agent, whatever claims fail |
| GradeRuns.NeverAskedOnceGraded | src/trellis_cli/hooks.py:655-670 | once a pack is graded by applied feedback, no ask on the grown transcript names it |
| GradeRuns.FireClaims | src/trellis_cli/hooks.py:658-666 | an event that wins its claim leaves exactly the markers of the ungraded packs whose claims did not fail |
| GradeRuns.AskCoversTheOlder | src/trellis_cli/hooks.py:663-666 | no later ask names a pack whose claim worked at an earlier ask, whatever else fails |
| GradeRuns.AskedExactlyWhen | src/trellis_cli/hooks.py:630-673 | in any run, from any directory and with any claims failing, for a digest that tells texts apart and pack ids without NUL: an ask is made if and only if everything else allows it, no marker was there at the start and no earlier event claimed its marker |
| GradeRuns.AskedAgainExactlyWhen | src/trellis_cli/hooks.py:663-666 | a pack ungraded at an ask, with no marker before it, is asked about at the next event that may ask for it if and only if its claim failed at that ask |
| GradeRuns.AFailedSweepAsksAgain | src/trellis_cli/hooks.py:663-666 | a transcript and its extension, at every threshold, whose two stops ask about the later and then the earlier of two packs after one failed claim |
| GradeRuns.GradeMarkersAgree | src/trellis_cli/hooks.py:658-666 | with such a digest two grading keys of pack ids without NUL share a marker only when they are equal, whatever the session ids hold |
| Documents.NextPage | src/trellis_cli/admin_reindex_vectors.py:243-254 | page size, offset and both exits of the loop walk the first min(limit, N) documents in order and stop at their end |
| ReindexVectors.EmbedDoc | src/trellis_cli/admin_reindex_vectors.py:126-172 | one row, or exactly one counter raised |
| ReindexVectors.SkipsMean | src/trellis_cli/admin_reindex_vectors.py:107-124 | a document is empty exactly when all its content is whitespace, and reserved exactly when its id starts with the prefix of a trace summary |
| ReindexVectors.RunReindexVectors | src/trellis_cli/admin_reindex_vectors.py:180-290 | the store and counters after any walk, with the number of documents scanned |
| ReindexVectors.BatchSizeIsIrrelevant | src/trellis_cli/admin_reindex_vectors.py:242-277 | for unique ids every batch size gives the store and counters of a one-at-a-time walk |
| ReindexVectors.PagesAreOneByOne | src/trellis_cli/admin_reindex_vectors.py:242-277 | a walk over any pages, an id at most once on each but perhaps on several, is the one-at-a-time walk over all they list |
| ReindexVectors.RepeatsLeaveNoTrace | src/trellis_cli/admin_reindex_vectors.py:108-124 | a forced or a dry run gives that result at every batch size for any ids, repeated or not |
| ReindexVectors.CountersMean | src/trellis_cli/admin_reindex_vectors.py:107-172 | each of the seven counters counts exactly its documents, told from the store before the run |
| ReindexVectors.StoreMeans | src/trellis_cli/admin_reindex_vectors.py:264-277 | the store after a run, id by id |
| ReindexVectors.RunKeeps | src/trellis_cli/admin_reindex_vectors.py:192-208 | no run loses a vector, creates a first one at a reserved id or leaves a document uncounted; a dry run writes nothing |
| ReindexVectors.SecondRunEmbedsNothing | src/trellis_cli/admin_reindex_vectors.py:204-206 | a following live run without force embeds and writes nothing, at any batch size |
| ResyncMetadata.MirrorMeans | src/trellis/core/vector_metadata.py:137-147 | mirroring makes exactly the listed keys agree and leaves the rest alone |
| ResyncMetadata.DivergesMeans | src/trellis/core/vector_metadata.py:137-147 | document and row diverge exactly when one of the four mirrored keys is present on one side only or has different values |
| ResyncMetadata.MirrorInto | src/trellis/core/vector_metadata.py:137-149 | the mirrored metadata, and a change noticed exactly when document and row diverge |
| ResyncMetadata.SyncVectorMetadata | src/trellis/core/vector_metadata.py:163-207 | true exactly when a divergent row was rewritten, and what the store holds then |
| ResyncMetadata.RunResyncVectorMetadata | src/trellis_cli/admin_resync_vector_metadata.py:79-128 | the store and counters are those of one pass over the documents visited, at every batch size and even for repeated ids |
| ResyncMetadata.CountersMean | src/trellis_cli/admin_resync_vector_metadata.py:96-128 | each counter counts exactly its documents, told from the store before the run |
| ResyncMetadata.RunKeeps | src/trellis_cli/admin_resync_vector_metadata.py:96-128 | a run creates and drops no row and changes no vector and no other key; a dry run changes nothing |
| ResyncMetadata.RunRepairs | src/trellis_cli/admin_resync_vector_metadata.py:96-128 | a visited document agrees with its row afterwards if and only if it did before, or the run is live and neither its own read nor its own sync fails, whatever fails elsewhere |
| ResyncMetadata.SecondRunFindsNothing | src/trellis_cli/admin_resync_vector_metadata.py:63-65 | a second run that meets the same faults writes nothing, and without faults finds nothing divergent |
| ResyncMetadata.DivergentIsAccounted | src/trellis_cli/admin_resync_vector_metadata.py:119-128 | every divergent row of a live run is repaired or counted as an error |
| MigrateProvenance.AllEdges | src/trellis_cli/admin_migrate_provenance.py:270-289 | the snapshot holds every current edge of a listed node exactly once, and nothing else |
| MigrateProvenance.MigrateOneEdge | src/trellis_cli/admin_migrate_provenance.py:194-267 | the report and the store after one edge |
| MigrateProvenance.ClassMeans | src/trellis_cli/admin_migrate_provenance.py:194-235 | an edge's class told from its five columns and its five legacy values: done with any column set, without provenance, malformed exactly when a value does not fit its field, and a candidate otherwise |
| MigrateProvenance.TierMeans | src/trellis_cli/admin_migrate_provenance.py:214-216 | a candidate's tier is stored in upper case, whichever of the two spellings it had |
| MigrateProvenance.RunMigrateProvenance | src/trellis_cli/admin_migrate_provenance.py:292-340 | every edge of the snapshot is settled, every other edge untouched, and drift is raised only after the writes |
| MigrateProvenance.MigrationIsLossless | src/trellis_cli/admin_migrate_provenance.py:241-254 | each legacy value stands in its column in stored form, nulls stay null, no other property changes and no legacy key is left |
| MigrateProvenance.MigratedIsDone | src/trellis_cli/admin_migrate_provenance.py:178-180 | a migrated edge counts as already migrated |
| MigrateProvenance.EveryEdgeCountedOnce | src/trellis_cli/admin_migrate_provenance.py:314-325 | every scanned edge falls in exactly one of the five classes |
| MigrateProvenance.CountersMean | src/trellis_cli/admin_migrate_provenance.py:203-267 | each counter counts exactly the edges of its class, read off columns and properties |
| MigrateProvenance.DryRunPredicts | src/trellis_cli/admin_migrate_provenance.py:209-239 | a dry run's migrated count is the live run's migrated plus errors, the other counts agree, and it emits nothing |
| MigrateProvenance.DryRunWritesNothing | src/trellis_cli/admin_migrate_provenance.py:237-239 | a dry run leaves the store as it was |
| MigrateProvenance.SettledStaysWellFormed | src/trellis_cli/admin_migrate_provenance.py:247-254 | a run keeps ids and keys unique |
| MigrateProvenance.SecondRunMigratesNothing | src/trellis_cli/admin_migrate_provenance.py:292-327 | a second live run with the same failing writes migrates nothing, and without failures neither does a dry one |
| MigrateProvenance.DriftsExactlyWhen | src/trellis_cli/admin_migrate_provenance.py:328-338 | drift is raised if and only if more than one scanned edge in a hundred is malformed |
| MigrateProvenance.WritesNothingExactlyWhen | src/trellis_cli/admin_migrate_provenance.py:313-340 | a run leaves the store as it was if and only if it is dry or the write of every scanned candidate fails |
| MigrateProvenance.ADriftedRunHasWritten | src/trellis_cli/admin_migrate_provenance.py:128-146 | a store of two edges for which drift is raised after one was rewritten |
| MigrateProvenance.LeavesNoCandidateExactlyWhen | src/trellis_cli/admin_migrate_provenance.py:270-289 | no candidate is left after a live run if and only if every one had a listed source and a write that works |
| MigrateProvenance.AnUnlistedSourceIsPassedBy | src/trellis_cli/admin_migrate_provenance.py:270-289 | an edge whose source is not a listed node is neither rewritten nor counted |
| ExceptVisitor.Visitor.Visit | scripts/audit_silent_fallbacks.py:136-158 | the stack-keeping visitor appends what the environment-passing definition lists, and leaves the stack as it found it |
| ExceptVisitor.Visitor.VisitFunction | scripts/audit_silent_fallbacks.py:143-150 | everything below a function is recorded under its name, and the name is popped |
| TreeMeaning.HandlersByField | scripts/audit_silent_fallbacks.py:143-158 | for each kind of node, what is recorded of it is what is recorded of its fields in their order, a function's under its name and a handler's own entry first |
| TreeMeaning.HandlersFind | scripts/audit_silent_fallbacks.py:143-158 | an entry is recorded if and only if it is that of a handler inside the node, under the name of the function whose field it is in |
| TreeMeaning.WalkByField | scripts/audit_silent_fallbacks.py:184-193 | for each kind of node, the walk is the node and then the walks of its fields in their order |
| TreeMeaning.WalkFinds | scripts/audit_silent_fallbacks.py:184-193 | the walk finds a node if and only if it is inside the one walked |
| ExceptVisitor.RecordedInPreOrder | scripts/audit_silent_fallbacks.py:155-158 | the recorded handlers are the handlers of the tree, each once, in pre-order |
| ExceptVisitor.RecordedWithInnermost | scripts/audit_silent_fallbacks.py:155-158 | a handler anywhere in the tree is recorded with the last function above it |
| ExceptVisitor.RecordedOnlyThose | scripts/audit_silent_fallbacks.py:155-158 | every record is a handler of the tree with the last function above it |
| FallbackAudit.DottedName | scripts/audit_silent_fallbacks.py:196-210 | the backward loop returns the dotted name of an attribute chain, or none |
| FallbackAudit.BuildRaisingHelpers | scripts/audit_silent_fallbacks.py:239-263 | exactly the module-level functions that end in a raise, are annotated NoReturn or follow the naming convention |
| FallbackAudit.BucketFor | scripts/audit_silent_fallbacks.py:368-439 | no bucket exactly for an aborting body, and when each of the test, defect and guard buckets is given |
| AuditMeaning.AbortsExactlyWhen | scripts/audit_silent_fallbacks.py:266-334 | a body is excused if and only if a raise is anywhere inside it or, in the helper-aware mode, a call that leaves the process or is known or named to raise |
| AuditMeaning.CallMeans | scripts/audit_silent_fallbacks.py:266-306 | which calls leave the process, by eight dotted names, and which are known to raise, by the last segment of a dotted name |
| AuditMeaning.HelpersMean | scripts/audit_silent_fallbacks.py:223-263 | a name is a helper if and only if a function of the module's own level has it and ends in a raise, is annotated NoReturn or is named for raising |
| AuditMeaning.NoReturnMeans | scripts/audit_silent_fallbacks.py:213-220 | an annotation counts if and only if it is the name NoReturn or a dotted name that ends in it |
| AuditMeaning.PatternMeans | scripts/audit_silent_fallbacks.py:337-361 | the shape of a body told from its statements: a lone pass, a lone empty return, logging and then an empty return, or logging only |
| AuditMeaning.ReturnsEmptyMeans | scripts/audit_silent_fallbacks.py:175-181 | a return is empty if and only if it has no value, or one written as one of nine empty values with whitespace around it |
| AuditMeaning.FindingMeans | scripts/audit_silent_fallbacks.py:368-439 | the line, function, shape, catch, bucket and note of every finding, told from the handler, its function's name and the file's path |
| FallbackAudit.ScanFile | scripts/audit_silent_fallbacks.py:509-576 | one finding per handler of the file that is not excused, in the order recorded |
| FallbackAudit.AwareIsLiteralFiltered | scripts/audit_silent_fallbacks.py:309-334 | helper-aware findings are the literal-only findings of the handlers that make no recognised call, same order, bucket, pattern and note |
| FallbackAudit.AwareOnlyRemoves | scripts/audit_silent_fallbacks.py:520-523 | turning helper awareness on only removes findings |
| FallbackAudit.MoreHelpersFewerFindings | scripts/audit_silent_fallbacks.py:286-306 | recognising more helpers only removes findings |
| AccessLog.ExtractIds | src/trellis_api/access_log.py:72-101 | the level-by-level walker returns the ids of the depth-first meaning, in document order, with their number; unknown has neither |
| AccessLog.LevelStep | src/trellis_api/access_log.py:82-94 | one level of the loop does not change what a path means |
| AccessLogMeaning.StarJoins | src/trellis_api/access_log.py:82-89 | on a list, `*` gives the ids of every element, in order, one after the other |
| AccessLogMeaning.StarIsUnknownExactlyWhen | src/trellis_api/access_log.py:82-89 | and they are unknown if and only if those of some element are |
| AccessLogMeaning.KeyGoesDown | src/trellis_api/access_log.py:82-94 | a key gives the ids below what an object has under it; a node of any other shape makes them unknown |
| AccessLogMeaning.EndIsOneId | src/trellis_api/access_log.py:95-101 | at the end of a path there is one id, the non-empty string under the field, or none is known |
| AccessLog.UnknownExactlyWhen | src/trellis_api/access_log.py:77-81 | the count is unknown if and only if a node reached at some depth has the wrong shape or a final node lacks a non-empty string id |
| AccessLogMiddleware.Middleware.SendWrapper | src/trellis_api/access_log.py:181-200 | bookkeeping, raising or not, and then exactly this message goes out |
| AccessLogMiddleware.Middleware.Respond | src/trellis_api/access_log.py:148-217 | all messages forwarded unchanged and in order, and at most one row enqueued |
| AccessLogMiddleware.BufferStaysWithinCap | src/trellis_api/access_log.py:190-196 | the buffered bytes never exceed the cap, for any message sequence |
| AccessLogMiddleware.RowOfOneResponse | src/trellis_api/access_log.py:148-217 | for a response with one start: exactly when there is a row, and its body is the exact bytes of the answer if they fit and unknown otherwise |
| AccessLogMiddleware.RowNamesTheWholeAnswer | src/trellis_api/access_log.py:104-114 | a recorded answer's ids are those of the whole answer or unknown, never those of a part |
| AccessLogMeaning.ListingRoutesNameTheirIds | src/trellis_api/access_log.py:61-70 | for each listing route, an answer made from a list of ids reads back as that list |
| AccessLogMeaning.SectionedRouteNamesItsIds | src/trellis_api/access_log.py:61-70 | an answer made from sections of ids reads back as all of them, section by section |
| AccessLogMeaning.ItemRoutesNameTheirId | src/trellis_api/access_log.py:61-70 | for each route that shows one item, its answer reads back as that item's id |
| AccessLogMeaning.OtherRoutesNameNothing | src/trellis_api/access_log.py:61-70 | an answer of any other route has no ids that are known |
| AccessLogMeaning.RowNamesTheIdsOfTheAnswer | src/trellis_api/access_log.py:104-114 | a recorded answer's ids are those its route names in the whole answer when that is not empty, fits the cap and parses, and unknown otherwise |
| ToolPins.RunCommands | scripts/check_tool_pins.py:500-524 | the loop over the lines gives the commands of the recursive reading |
| ToolPins.GatesOf | scripts/check_tool_pins.py:488-497 | the gate commands of a workflow, whose first tokens always exist |
| ToolPins.EveryCommandHasAToken | scripts/check_tool_pins.py:490-494 | the parser returns no blank command, so taking a first token never fails |
| ToolPins.PrintThenParse | scripts/check_tool_pins.py:198-202 | a printed workflow yields exactly its commands, in order, if and only if nothing after a block is indented deeper than the block's header |
| ToolPins.ParsePrinted | scripts/check_tool_pins.py:500-524 | never fewer commands than were printed, and all of them right exactly when the items are well nested |
| ToolPins.OneLevelIsWellNested | scripts/check_tool_pins.py:472-487 | steps that share one indentation are always well nested |
| ToolPins.ABlockTakesTheNextKey | scripts/check_tool_pins.py:511-520 | the text of a bare step with a block and an `env:` key, whose parsed commands are that of the block and the key |
| ToolPins.WellNestedSwallowsNothing | scripts/check_tool_pins.py:513-520 | items are well nested if and only if no open block takes one of them for its own line |
| ToolPins.RosterIsRightExactlyWhen | scripts/check_tool_pins.py:488-497 | the gates read are those written, less the swallowed steps that invoke a tool, plus the swallowed plain lines that begin with one; where only one kind occurs, the same list if and only if neither does |
| ToolPins.RosterSurvives | scripts/check_tool_pins.py:481-485 | the roster is right whatever is swallowed, if no such step or plain line is among it |
| ToolPins.SplitJoined | scripts/check_tool_pins.py:510 | splitting joined lines gives the lines back |
| ToolPins.LineEndsAtBoundary | scripts/check_tool_pins.py:510 | a line ends at the first of the ten line boundaries, of which a carriage return and a newline together are one |
| ToolPins.LastLineStays | scripts/check_tool_pins.py:510 | text without a boundary is one line |
| ToolPins.RunTailMeans | scripts/check_tool_pins.py:198-202 | a line has a `run:` key exactly when whitespace, at most one dash with whitespace after it, and `run:` begin it; what follows is its tail |
| ToolPins.BlockTailMeans | scripts/check_tool_pins.py:198-202 | a tail opens a block exactly when it is a mark with at most one chomping sign, and whitespace around both |
| ToolPins.GatesMean | scripts/check_tool_pins.py:488-497 | the gates are the commands that are one of the two tools, alone or with whitespace behind it, in order |
| CandidateWindow.NewestFirstSorts | docs/design/plan-375-arms.py:77-79 | the sort keeps the rows, puts the newest first and keeps the order of equal stamps |
| CandidateWindow.WindowMeans | docs/design/plan-375-arms.py:70-87 | the window: of the newest four rows for each place those that are neither structural nor unconfirmed, nor cron records where suppressed, and of these the first ones |
| CandidateWindow.SuppressionFillsTheSlots | docs/design/plan-375-arms.py:70-87 | suppression serves the non-cron rows served before, then exactly as many of the next ones as slots were freed |
| CandidateWindow.SuppressionDropsNothing | docs/design/plan-375-arms.py:80-87 | no served non-cron row is dropped, and no more rows come in than cron slots are freed |
| CandidateWindow.ReplayArms | docs/design/plan-375-arms.py:143-172 | the loop's tallies are the sums over all packs, and arm A <= arm C <= arm D <= total |
| CandidateWindow.CandidatesMean | docs/design/plan-375-arms.py:143-170 | the candidates of each arm at the pack's own limit, at least twenty |
| CandidateWindow.TalliesCount | docs/design/plan-375-arms.py:160-172 | each arm's tally is the number of cited ids, over all packs, that are among its candidates |
| CandidateWindow.SuppressionLosesNoHit | docs/design/plan-375-arms.py:164-172 | when no cited item is a cron record, arm B has at least the hits of arm A |

## Left out

- Real files, `stat`, permissions, owners and symbolic links: a path has a status, a read or a claim may fail.
- JSON and Python parsing, and the regular expressions that find a pack id in a reply: the model starts from JSON values, syntax trees and an arbitrary recogniser. A parser that fails in any way but by refusing a line is not modelled.
- Strings that have no UTF-8 form: encoding is total here, where the code would raise and the hook stay silent.
- Wall time: a look at the clock is an arbitrary verdict, so no assumption about its progress is made.
- The command line, standard input, the kill switch and the wording of the hooks' messages.
- Where a session keeps its subagents' transcripts: an arbitrary function of the session transcript's path.
- Errors of the document store, and of the bulk upsert of the backfill, which the code lets end the run.
- The egress gate's own rules and the embedder: arbitrary functions of the document.
- The order in which a graph store lists edges, its version history and time stamps: edges are a sequence, rewritten in place.
- Floating-point drift rate: more than one in a hundred is decided on exact integers.
- Source lines, excerpts and the text of notes in an audit finding: notes are named, not spelled.
- Identifiers past ASCII in the audit: any such character counts as a letter of a name.
- Which requests are reads, the route template, the size estimate of a row and the writer thread of the access log.
- A client that disconnects while an answer is sent: sending always succeeds.
- The pre-commit and tool-version parsers, and the listing of workflow files: short scans that would add only easy members.
- The database queries and printed report of the candidate-window script, and the partition table.
- The file object's own buffer and what the JSON parser builds: the bytes counted as alive are the line and the chunks the reader holds.
- The exact pace of a scan that stops at a retrieval: it stays within the bounds of a whole scan.
- TranscriptMeaning.PrefilterLosesNothing: one direction only for whole files, since a line that hides what it holds may be harmless where it stands, as a second copy of a call already seen is; ShownExactlyWhen is exact line by line.
