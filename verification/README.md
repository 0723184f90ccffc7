# k8s-lookout: verified models

lookout watches Kubernetes clusters, opens incidents in an agent's sessions and
serves its checks as MCP tools. These Dafny modules model the parts of it whose
correctness rests on a protocol or on an optimality argument, and prove what
those parts promise.

- `AxSink`, `ReminderHold`, `ReminderLedger`, `ReminderThreads`, `TaskNames`: the sink that runs
  each incident in an AX task. Opens deliver exactly once, reminders never keep
  an idle task awake, and every held reminder is accounted for. Remote calls may
  answer anything, and the clock may advance at every reading.
- `KeyLock`, `StormOverlap`: the dispatcher's per-key lock and the storm barrier
  built on it, in every interleaving of threads.
- `Response`, `CutSummary`, `ClusterList`, `CutLimits`, `Summary`, `Logfmt`, `Decimal`:
  cutting a tool's answer or a cluster list to a byte limit.
- `EnrichBundle`: the enrichment attached to a new incident, under its cap.
- `EditDistance`, `TextWrap`, `ToolSelection`: suggestions, help text and tool
  selection.
- `ClusterNames`, `ClusterChoice`, `DiscoveryCache`, `Sorting`: naming clusters,
  choosing one, and discovering them once for each caller.
- `CallSlots`: the three concurrency limits on tool calls.

State that the program updates in place is a class with methods (`Sink`,
`Table`, `Bundle`, `ClusterSet`, `CallerLimit`); loops are loops, proved against
specification functions or relations. Concurrent parts are state machines whose
steps are the sections between lock operations, and their results are stated
for every run. Remote answers, the clock, hashing, JSON decoding and
lower-casing are parameters or nondeterministic choices, so results hold
whatever they do.

`dafny verify dfyconfig.toml` verifies all modules.

## Properties that hold only under a condition

- Overlapping formations: the storm barrier fails when a storm is reported
  formed while an earlier formation with the same id is still in flight, because
  the first founder's clean-up removes the second's channel. From every reachable
  state the barrier survives a report if and only if no formation of that storm
  is in flight (`StormOverlap.FormingNeedsNoneInFlight`), which is an assumption
  about the correlator.
- Reminders at once: repeats are appended outside any coordination key
  (internal/watch/dispatch.go:526), so two reminders for one owed id can both be
  sent and confirmed (`ReminderThreads.OverlapSendsTwice`). Without overlap at
  most one is (`ReminderThreads.OneAtATimeSendsOnce`). Each send is justified at
  its check either way (`ReminderThreads.SendsAreJustified`).
- Response limit: an oversize stream's answer is within the limit exactly when
  its findings do not all fit beside the longest summary, and the first one to be
  kept does or the summary of an emptied stream is within the limit
  (`Response.WhenItFits`). Two kinds of stream are answered over the limit: one
  for whose summary alone the limit is too small
  (`CutLimits.SummaryAloneOverruns`), and one whose own summary line is longer
  than any rewritten one, such as a count with zeros in front, so that all its
  findings fit and it is returned as it came
  (`CutLimits.OverlongSummaryIsReturned`). Cluster lists behave alike
  (`ClusterList.WhenListFits`, `CutLimits.ListAloneOverruns`,
  `CutLimits.OverlongListIsReturned`).
- Global slots: the per-cluster cap is documented to keep one cluster from
  holding every global slot. It follows each caller's own set, so it does exactly
  when every caller that reads the cluster has a cap below the global limit: by
  default, two clusters or more each and more than two slots. That holds whether
  or not callers are identified, as long as identified ones get a slot
  (`CallSlots.OneClusterCannotTakeAll`).
- Enrichment cap: the written bodies can exceed the budget when two sections
  share a name, because inclusion is looked up by name;
  `EnrichBundle.BudgetKeptIffDistinct` is the exact condition.
- Wrapping: help text promises lines of at most the width, which holds exactly
  when no word of the text is wider (`TextWrap.AllLinesFitIffAllWordsFit`,
  `TextWrap.OneLongWord`).
- Cluster names: with plain names for clusters that have a project, names are
  unambiguous exactly when no context is called what another cluster is named
  (`ClusterNames.UnambiguousIffContextsApart`). None of the three sources of
  clusters (internal/fleet/fleet.go:20-29) mixes contexts with clusters that have
  a project, so the fleets they return are `Nameable` as long as no part holds
  `@` or `/` and context names are unique.

## Model

| member | source | states |
|---|---|---|
| AxSink.Sink.constructor | internal/axsink/axsink.go:160-201 | a new sink has empty tables and balanced books, and every task it will ever name is a non-empty name without a slash |
| AxSink.Sink.OpenIncidentKeyed | internal/axsink/axsink.go:239-326 | for every sequence of remote answers: success means exactly one confirmed delivery into the returned id, a session of the key's task, now remembered, not owed, awake and with nothing held, behind exactly the reminders held for the task, each tried once, oldest first; failure means no confirmed delivery, and a returned id is owed |
| AxSink.Sink.OpenAwake | internal/axsink/axsink.go:248-286 | the fast path either settles the open with that same outcome or leaves nothing delivered |
| AxSink.Sink.OpenStarted | internal/axsink/axsink.go:288-325 | the slow path settles the open with that same outcome |
| AxSink.Sink.Reopen | internal/axsink/axsink.go:251-268 | a payload into a known session: delivered once and booked, owed, or refused with nothing delivered |
| AxSink.Sink.OpenNew | internal/axsink/axsink.go:311-325 | a payload into a new session: delivered once and booked, or owed, or no session at all |
| AxSink.Sink.CreateSessionKeyed | internal/axsink/axsink.go:332-353 | success returns a session of the key's task, which is then recorded awake with nothing held; failure returns no id; the held reminders are tried once, oldest first, ahead of the session; nothing becomes owed and no reminder is sent at once |
| AxSink.Sink.Append | internal/axsink/axsink.go:377-413 | a malformed id changes nothing; a reminder is a reminder step; a real payload follows a try of exactly the task's held reminders, oldest first, and is confirmed once and paid, or not at all and owed |
| AxSink.Sink.AppendReal | internal/axsink/axsink.go:404-412 | exactly the task's held reminders are tried, oldest first, ahead of the payload, and none stays held; the payload is confirmed once and paid with the task awake, or not at all and owed |
| AxSink.Sink.AppendReminder | internal/axsink/axsink.go:382-403 | an owed id is always sent at once; otherwise awake sends, gone refuses and drops exactly the task's reminders, idle holds; it never wakes or owes anything |
| AxSink.Sink.SendReminder | internal/axsink/axsink.go:396-402 | one send is recorded, for an owed id or less than the idle window after a recorded real inject (kept of all sends in `Valid`), any held reminder for the id is forgotten, and a confirmed send pays the id |
| AxSink.Sink.Remember | internal/axsink/axsink.go:444-460 | the key's text leads to the id; nothing else is added or changed, and only a full table forgets, one entry |
| AxSink.Sink.Recall | internal/axsink/axsink.go:422-439 | memory wins over the store |
| AxSink.Sink.IsTaskKnownAwake | internal/axsink/axsink.go:215-220 | awake exactly when a real inject is on record less than the idle window ago |
| AxSink.Sink.ClearAwake | internal/axsink/axsink.go:222-226 | exactly the task's wake is forgotten |
| AxSink.Sink.StateOf | internal/axsink/hold.go:195-219 | the verdict on the sink's own record and whatever AX answers |
| AxSink.Sink.ConfirmGone | internal/axsink/hold.go:241-255 | only a failure that is not already a 404 or 410 can change, only to a 404, and only together with the task's reminders and wake |
| AxSink.Sink.Owe | internal/axsink/hold.go:260-270 | the id is owed; nothing else is added, and only a full table forgets, one entry |
| AxSink.Sink.Paid | internal/axsink/hold.go:272-276 | exactly the id is no longer owed |
| AxSink.Sink.DropHeldIn | internal/axsink/hold.go:285-298 | exactly the task's reminders leave, each counted dropped once, and the books still balance |
| AxSink.Sink.NoteReal | internal/axsink/hold.go:302-312 | the task is awake from now; nothing else is woken, and only a full table forgets, one entry |
| AxSink.Sink.HoldReminder | internal/axsink/hold.go:316-348 | the held set changes as holding allows, with exactly the counts that go with it |
| AxSink.Sink.ForgetHeld | internal/axsink/hold.go:352-360 | exactly the id's reminder leaves, counted superseded if there was one |
| AxSink.Sink.FlushHeld | internal/axsink/hold.go:366-396 | exactly the task's reminders leave, all are tried oldest first, nothing expired is delivered, and each is counted delivered or dropped once |
| AxSink.Sink.DeliverBatch | internal/axsink/hold.go:383-395 | settling a batch reminder by reminder brings the books back to balance |
| AxSink.FlushedInOrder | internal/axsink/hold.go:382-395 | whatever is confirmed, held reminders reach the agent in nondecreasing time order, each id at most once |
| AxSink.RemindersDoNotKeepAwake | internal/axsink/axsink.go:377-413 | in every run without a real inject on a task whose idle window has passed, an id gets at most one confirmed direct send, and none if it was not owed |
| AxSink.QuietRunSpends | internal/axsink/axsink.go:377-413 | along such a run, confirmed sends plus what is owed never grow, and the task stays idle |
| AxSink.ReminderSpends | internal/axsink/axsink.go:382-403 | one reminder on an idle task can only spend what is owed |
| AxSink.AccountHold | internal/axsink/hold.go:316-348 | holding keeps the counters equal to what is held |
| AxSink.AccountDiscard | internal/axsink/hold.go:285-298 | discarding keeps the counters equal to what is held |
| ReminderThreads.SendsAreJustified | internal/axsink/axsink.go:377-403 | in every interleaving of appends, a reminder sent at once was owed when that was checked, or followed a recorded real inject by less than the idle window when its task was judged |
| ReminderThreads.WakesAreReal | internal/axsink/hold.go:302-312 | in every interleaving, a last real inject on record was noted as one at that time |
| ReminderThreads.OneAtATimeSendsOnce | internal/axsink/axsink.go:377-413 | on an idle task without real injects, an id has at most one reminder confirmed, none if it was not owed, in every interleaving in which no two appends for that id overlap |
| ReminderThreads.QuietRunSpends | internal/axsink/axsink.go:377-413 | along such a run confirmed sends plus what may still be confirmed never grow |
| ReminderThreads.OverlapSendsTwice | internal/axsink/axsink.go:385-402 | from every state and for every owed id, two overlapping appends have a run in which both are confirmed |
| ReminderLedger.Conservation | internal/axsink/hold.go:285-396 | in every interleaving, once all threads have caught up, a cluster's held count equals superseded plus delivered plus dropped plus what is still held |
| ReminderLedger.RunsKeepInv | internal/axsink/hold.go:285-396 | in every interleaving, posted counts plus every thread's unposted counts and undelivered reminders account for the held set |
| ReminderLedger.InvStep | internal/axsink/hold.go:285-396 | every lock section, post and delivery keeps the accounting and the bound |
| ReminderLedger.HeldIsBounded | internal/axsink/hold.go:316-348 | at every lock release at most the maximum are held |
| ReminderLedger.HoldBalances | internal/axsink/hold.go:316-348 | replacing, expiring and evicting change the held set by exactly what they count |
| ReminderLedger.TakeBalances | internal/axsink/hold.go:366-381 | a batch taken out holds exactly what left the held set |
| ReminderLedger.DiscardBalances | internal/axsink/hold.go:285-298 | what is discarded is counted once |
| ReminderLedger.LatestIsHeld | internal/axsink/hold.go:316-396 | at every lock release of every run, what is held for an id is the latest reminder offered for it |
| ReminderLedger.OfferedIsHeld | internal/axsink/hold.go:316-348 | the reminder just offered is held, unless the set is full of reminders no older |
| ReminderHold.VerdictIsSafe | internal/axsink/hold.go:195-219 | awake exactly when recent, not gone and not recorded suspended; gone exactly on AX's word, never on its silence |
| ReminderHold.DropTask | internal/axsink/hold.go:285-298 | the loop removes exactly the task's reminders and counts each once |
| ReminderHold.DropExpired | internal/axsink/hold.go:324-329 | the loop removes exactly the expired reminders and counts each once |
| ReminderHold.Oldest | internal/axsink/hold.go:331-336 | the scan finds a reminder with the least timestamp |
| ReminderHold.Evict | internal/axsink/hold.go:330-339 | only the oldest go, and only down to the limit |
| ReminderHold.HoldOne | internal/axsink/hold.go:316-348 | replace, expire and evict together are what holding allows, with its counts |
| ReminderHold.TakeTask | internal/axsink/hold.go:373-382 | the loop and the sort list exactly the task's reminders, each once, oldest first |
| ReminderHold.SortIsOldestFirst | internal/axsink/hold.go:382-382 | sorting keeps what is listed and orders it by time |
| ReminderHold.PutBounded | internal/axsink/axsink.go:444-453 | a bounded table gains the entry and forgets at most one other, only when full |
| ReminderHold.PutWithRoom | internal/axsink/axsink.go:444-453 | with room nothing is forgotten |
| TaskNames.TaskNameIsLabel | internal/axsink/axsink.go:601-632 | for every key and scope the task name is a host label as section 2.1 of RFC 1123 allows, in lower case |
| TaskNames.IncidentIsNotWatchboard | internal/axsink/axsink.go:601-610 | in incident scope an incident's or storm's task is never a watchboard's |
| TaskNames.SameNameSameHash | internal/axsink/axsink.go:612-632 | two clusters share a name only if the first four bytes of their hashes agree |
| TaskNames.HexInjective | internal/axsink/axsink.go:612-614 | the hexadecimal suffix determines the bytes |
| TaskNames.BuildSlug | internal/axsink/axsink.go:615-630 | the loop and the trims give a slug that is never empty, within the limit, and free of hyphens at either end |
| TaskNames.TrimLeftIsExact | internal/axsink/axsink.go:624-624 | exactly the leading hyphens go |
| TaskNames.TrimRightIsExact | internal/axsink/axsink.go:624-626 | exactly the trailing hyphens go |
| TaskNames.SplitRecovers | internal/axsink/axsink.go:415-418 | splitting task/session gives back both parts, for every non-empty session |
| TaskNames.SplitIsExact | internal/axsink/axsink.go:415-418 | an id that splits is the task, a slash and the session, neither empty |
| KeyLock.RunsKeepInv | internal/watch/dispatch.go:714-738 | in every interleaving the lock table, the channels, the formation table and the threads agree |
| KeyLock.InvStep | internal/watch/dispatch.go:325-375 | every step keeps them in agreement |
| KeyLock.MutualExclusion | internal/watch/dispatch.go:714-738 | in every interleaving at most one thread holds a key |
| KeyLock.WaitersAreWoken | internal/watch/dispatch.go:714-738 | a waiter's channel is closed already, or a holder is there that will close it |
| KeyLock.StormBarrier | internal/watch/dispatch.go:325-375 | in every interleaving a member's body runs only after its founder's finished, and alone under the storm's key |
| KeyLock.FormedWasFinished | internal/watch/dispatch.go:344-355 | a closed formation channel was closed by its founder at the end of its body |
| KeyLock.NoDeadlock | internal/watch/dispatch.go:325-375 | while a thread is unfinished some thread can move, without anyone giving up |
| KeyLock.Table.TryAcquire | internal/watch/dispatch.go:714-737 | a free key is taken with a channel nobody else has; a busy one yields its holder's channel and changes nothing |
| KeyLock.Table.Release | internal/watch/dispatch.go:726-733 | the first release frees exactly this key and closes its channel; a second changes nothing, whoever holds the key by then, since a token is live exactly until it is released |
| KeyLock.Table.ReleaseTwice | internal/watch/dispatch.go:726-733 | released, taken by another and released again, a key stays with the later holder |
| StormOverlap.FormingNeedsNoneInFlight | internal/watch/dispatch.go:329-355 | from every reachable state, no run after a formation report lets a member in before its founder is done, if and only if that storm has no formation in flight |
| StormOverlap.OverlapBreaksBarrier | internal/watch/dispatch.go:344-373 | from every reachable state with a formation of the storm in flight, a second report has a run in which a member runs before its founder is done |
| StormOverlap.OverlapIsReachable | internal/watch/dispatch.go:333-342 | such a state is reachable |
| Response.FitResponse | internal/mcpserver/response.go:81-137 | the answer is the text as it was, or the cut the rule demands |
| Response.CutStream | internal/mcpserver/response.go:99-136 | the budget, the counting loops and the assembly give the cut the rule demands |
| Response.FitLines | internal/mcpserver/response.go:142-155 | the most whole lines from that end that fit the budget, and their bytes |
| Response.KeepIsMaximal | internal/mcpserver/response.go:142-155 | no larger number of whole lines from that end fits |
| Response.KeepIsUnique | internal/mcpserver/response.go:142-155 | the number kept is determined |
| Response.SizeBound | internal/mcpserver/response.go:81-137 | a cut answer that keeps a finding fits the limit, for every command whose summary grows with its counts |
| Response.WhenItFits | internal/mcpserver/response.go:99-136 | told from the stream, an oversize stream's answer fits if and only if its findings do not all fit beside the longest summary, and the first to be kept does or the summary without any is within the limit |
| Response.NothingGoesMissing | internal/mcpserver/response.go:81-137 | the lines of a cut answer are the kept findings as they came and one summary line; with the dropped they make up the stream, and the dropped are accounted for by severity |
| Response.CutReturns | internal/mcpserver/response.go:114-135 | the assembled text splits into exactly those lines, read as the same records |
| Response.LinesOfConcat | internal/mcpserver/response.go:85-86 | lines put together are split where they were joined |
| Response.LongestSummary | internal/mcpserver/response.go:102-108 | the budgeted summary has every count at its largest |
| Response.SummaryOf | internal/mcpserver/response.go:120-135 | the emitted summary has the counts of what was kept and dropped |
| Response.CutIsUnique | internal/mcpserver/response.go:81-137 | the answer is determined by the text |
| Response.Idempotent | internal/mcpserver/response.go:81-137 | cutting again at the same limit changes nothing, also when the summary alone is over it |
| Response.NothingLeftToCut | internal/mcpserver/response.go:81-137 | a cut answer is not a stream that could be cut |
| Response.SummaryAloneIsUntouched | internal/mcpserver/response.go:88-91 | a summary on its own is left alone, over the limit or not |
| Response.ShapeIsAtMostLargest | internal/mcpserver/response.go:102-108 | every count the summary carries is at most the one it was budgeted with |
| Response.BucketsSumToAll | internal/mcpserver/response.go:126-129 | the severity buckets account for every record |
| Response.TallyBelowCeiling | internal/mcpserver/response.go:103-106 | no bucket of a part exceeds its budgeted count |
| Response.Counted | internal/mcpserver/response.go:120-129 | the two loops count exempt kept records and dropped severities |
| Response.Raised | internal/mcpserver/response.go:103-106 | the loop raises every severity present to the total |
| Response.LinesMakeUpText | internal/mcpserver/response.go:85-86 | splitting after line breaks loses nothing |
| CutSummary.LookoutGrows | internal/mcpserver/response.go:99-108 | the summary with every count at its largest is at least as long as any it could be, in both formats |
| CutSummary.CutFitsLimit | internal/mcpserver/response.go:81-137 | a cut answer that keeps a finding is at most the limit, both formats and both directions |
| CutSummary.CutIsFaithful | internal/mcpserver/response.go:81-137 | read back from its text, a cut answer's last line is a summary whose findings= is the number of lines before it, with the number dropped, its split by severity and the exempt among the lines returned; kept and dropped make up the stream |
| CutSummary.CutTells | internal/mcpserver/response.go:264-277 | the rewritten pairs are the stream's own but for the counts, then the notes |
| CutSummary.CutParses | internal/mcpserver/response.go:217-277 | a cut summary parses back to exactly its pairs, in logfmt always and in JSON if the decoder undoes the rendering |
| CutSummary.CutOnlyOnce | internal/mcpserver/response.go:81-137 | an answer that was cut is left alone by a second cut |
| CutSummary.CutTwiceIsCutOnce | internal/mcpserver/response.go:81-137 | for every text, cutting lookout's answer again at the same limit changes nothing |
| CutSummary.CutIsOneLine | internal/mcpserver/response.go:264-277 | a cut summary is one line |
| CutSummary.CutKeepsHead | internal/mcpserver/response.go:264-277 | it still starts as a summary, and findings= is the number kept |
| CutSummary.CutReadsBack | internal/mcpserver/response.go:264-277 | a cut logfmt summary parses back to exactly its pairs, counting the lines kept |
| CutSummary.ReadsBack | internal/mcpserver/response.go:217-242 | a rendered logfmt summary parses back |
| ClusterList.FitClusterList | internal/mcpserver/response.go:455-512 | a listing is cut to the most cluster lines that fit with every scope line kept; anything else is returned as it was |
| ClusterList.CutList | internal/mcpserver/response.go:481-511 | the most cluster lines that fit beside all scope lines and the longest summary |
| ClusterList.ListFitsLimit | internal/mcpserver/response.go:455-512 | a cut list that keeps a cluster line is at most the limit, scope lines included |
| ClusterList.WhenListFits | internal/mcpserver/response.go:481-511 | told from the list, an oversize list's answer fits if and only if its cluster lines do not all fit beside the scope lines and the longest summary, and the first of them does or scope lines and summary alone are within the limit |
| ClusterList.CutListsAreFaithful | internal/mcpserver/response.go:440-512 | read back from its text, a cut list is the first cluster lines, every scope line and a summary whose clusters= is the number of cluster lines in the text, with the number dropped and all else as it was, in both formats |
| ClusterList.ListSummaryIsRead | internal/mcpserver/response.go:489-494 | the rewritten summary parses back to the list's own pairs but for clusters=, then the notes |
| ClusterList.CountRewritten | internal/mcpserver/response.go:251-260 | the rewritten count is the one a reader finds |
| ClusterList.ListTwiceIsListOnce | internal/mcpserver/response.go:455-512 | cutting a cluster list again at the same limit changes nothing, also when scope lines and summary alone are over it |
| ClusterList.ShorterListSummary | internal/mcpserver/response.go:489-497 | the list summary rendered with the total everywhere is the longest |
| CutLimits.OverlongSummaryIsReturned | internal/mcpserver/response.go:110-113 | for every command there is a stream returned as it came over a limit at which its finding fits beside the longest summary: its own summary line is too long |
| CutLimits.SummaryAloneOverruns | internal/mcpserver/response.go:110-136 | at a limit of one byte every stream is answered with a summary over it |
| CutLimits.SomeStreamAtOne | internal/mcpserver/response.go:81-97 | there is such a stream |
| CutLimits.AmpleRoom | internal/mcpserver/response.go:99-108 | a limit that leaves room for the finding exists for every command |
| CutLimits.OverlongListIsReturned | internal/mcpserver/response.go:497-501 | there is a cluster list, with or without a filter, returned as it came over a limit at which its cluster fits beside the longest summary |
| CutLimits.ListAloneOverruns | internal/mcpserver/response.go:497-511 | at a limit of one byte every cluster list is answered over it |
| CutLimits.SomeListAtOne | internal/mcpserver/response.go:455-479 | there is such a list |
| CutLimits.CutLength | internal/mcpserver/response.go:264-277 | the length of a cut summary grows with the limit by the limit's digits only |
| Summary.ShorterSummary | internal/mcpserver/response.go:282-316 | raising every count never shortens a rewritten summary |
| Summary.ShorterRewritten | internal/mcpserver/response.go:282-290 | rewriting with larger counts renders no shorter |
| Summary.ShorterRendering | internal/mcpserver/response.go:291-316 | longer values make no shorter line, quoted or not, in either format |
| Summary.ShorterFill | internal/mcpserver/response.go:376-383 | the same wording with larger counts renders no shorter |
| Summary.RenderedOnOneLine | internal/mcpserver/response.go:282-316 | a rendered summary is one line |
| Logfmt.RoundTrip | pkg/emit/writer.go:475-533 | an encoded line parses back to exactly its fields, whatever the values |
| Logfmt.ParseFieldsOfEncoded | pkg/emit/writer.go:499-533 | the parser's loop undoes the encoder's |
| Logfmt.UnquoteEscaped | pkg/emit/writer.go:510-518 | unquoting undoes quoting and stops at the closing quote |
| Logfmt.EncodedOnOneLine | pkg/emit/writer.go:475-491 | no value can break the line |
| Decimal.LongerIfLarger | internal/mcpserver/response.go:99-108 | a larger count never renders shorter |
| Decimal.AtoiOfItoa | internal/mcpserver/response.go:244-247 | a rendered count reads back as itself |
| EnrichBundle.Bundle.Stage | internal/watch/enrich.go:800-817 | a spent budget or a failure records one error and no section; success records one section |
| EnrichBundle.Bundle.Skip | internal/watch/enrich.go:821-823 | one skipped section is recorded |
| EnrichBundle.Bundle.Fail | internal/watch/enrich.go:826-828 | one error is recorded |
| EnrichBundle.Bundle.Choose | internal/watch/enrich.go:844-861 | the shipped names are the longest prefix of the non-empty computed sections within the budget, and truncation is reported exactly when something is left |
| EnrichBundle.Bundle.Render | internal/watch/enrich.go:833-888 | head, the bodies shipped, one overflow trailer for each section left out, one error trailer for each failure |
| EnrichBundle.Bundle.WriteSections | internal/watch/enrich.go:865-877 | the two loops write the included bodies and the overflow trailers |
| EnrichBundle.Bundle.WriteErrors | internal/watch/enrich.go:878-886 | one error trailer for each failed stage |
| EnrichBundle.EachSectionOnce | internal/watch/enrich.go:865-877 | every section is shipped, named in a trailer, or had nothing to say: exactly one of these |
| EnrichBundle.BodiesAreThePrefix | internal/watch/enrich.go:865-869 | with distinct names the bodies written are those of the chosen prefix, in order |
| EnrichBundle.RenderIsExact | internal/watch/enrich.go:833-888 | with distinct names the text is the head, the bodies of a prefix, a trailer for each section left out and one for each error, and every section is shown, named in a trailer or had nothing to say, exactly one of these |
| EnrichBundle.WithinCap | internal/watch/enrich.go:833-869 | whenever a section ships, head and bodies are within the cap, if section names are distinct |
| EnrichBundle.BudgetKeptIffDistinct | internal/watch/enrich.go:845-869 | the bodies stay within every budget if and only if no two shippable sections share a name |
| EnrichBundle.HeadOfPrefix | internal/watch/enrich.go:834-842 | listing fewer sections never makes the head longer |
| EditDistance.EditDistance | internal/mcpserver/schema.go:337-355 | the two-row loop returns the recursive distance |
| EditDistance.DistanceIsLeastCost | internal/mcpserver/schema.go:337-355 | the distance is the least cost of any insert, delete or substitute script |
| EditDistance.DistIsLowerBound | internal/mcpserver/schema.go:343-353 | every script between prefixes costs at least their distance |
| EditDistance.BestScript | internal/mcpserver/schema.go:343-353 | a script of exactly that cost exists |
| EditDistance.FillRow | internal/mcpserver/schema.go:344-351 | the inner loop turns one row into the next |
| EditDistance.RowIsDist | internal/mcpserver/schema.go:343-353 | every row the loop holds is the table's |
| EditDistance.DistanceZeroIffEqual | internal/mcpserver/schema.go:337-355 | zero exactly between equal words |
| EditDistance.DistanceSymmetric | internal/mcpserver/schema.go:337-355 | the distance is symmetric |
| EditDistance.TriangleInequality | internal/mcpserver/schema.go:337-355 | the triangle inequality |
| EditDistance.NearestProperty | internal/mcpserver/schema.go:308-333 | the only proper extension, else the only nearest name within two edits, else nothing |
| EditDistance.Extensions | internal/mcpserver/schema.go:310-315 | all names that properly extend, in order |
| EditDistance.Nearest | internal/mcpserver/schema.go:320-332 | the one name nearer than all others and within two edits, or nothing |
| TextWrap.Wrap | internal/mcpserver/profile.go:188-207 | the lines make up the words again, each line of two or more words fits, no such partition has fewer lines, and all lines are within the width if and only if every word is |
| TextWrap.LayOut | internal/mcpserver/profile.go:189-206 | the loop lays the words out greedily |
| TextWrap.GreedyIsOptimal | internal/mcpserver/profile.go:188-207 | no partition of the same words uses fewer lines than a greedy one |
| TextWrap.GreedyStaysAhead | internal/mcpserver/profile.go:188-207 | greedy lines are never behind those of another partition |
| TextWrap.EveryPartitionIsLonger | internal/mcpserver/profile.go:188-207 | the same, for all partitions |
| TextWrap.AllLinesFitIffAllWordsFit | internal/mcpserver/profile.go:184-207 | the documented bound, every line within the width, holds if and only if no word of the text is wider |
| TextWrap.OneLongWord | internal/mcpserver/profile.go:188-207 | a text of one word wider than the width has one line, over the width |
| TextWrap.JoinWidth | internal/mcpserver/profile.go:194-201 | the running length is the length of the joined line |
| ToolSelection.ResolveTools | internal/mcpserver/profile.go:55-113 | no selection means everything; a resolved one is exactly what the tokens mean and never empty; a failed one has no non-empty meaning |
| ToolSelection.ResolvePieces | internal/mcpserver/profile.go:81-112 | the same for the loop over the pieces |
| ToolSelection.SelectedByLast | internal/mcpserver/profile.go:98-104 | the last token that mentions a tool decides |
| ToolSelection.StepMeans | internal/mcpserver/profile.go:98-104 | adding or deleting a token's tools keeps the set equal to the tokens' meaning |
| ToolSelection.OnlyAdvertisable | internal/mcpserver/profile.go:68-97 | no hidden or privileged tool is ever selected |
| ToolSelection.SplitIsExact | internal/mcpserver/profile.go:82-82 | the pieces hold no comma and make up the list again |
| ClusterNames.ClusterSet.NameClusters | internal/mcpserver/clusters.go:373-402 | the set holds every cluster once under its name, in name order, with its index, and no name is ambiguous in a nameable fleet |
| ClusterNames.ClusterSet.CheckAccess | internal/mcpserver/clusterchoice.go:96-133 | every cluster keeps its names and gains its access, the order is by rank, and each name still leads to the same cluster |
| ClusterNames.NamesAreUnambiguous | internal/mcpserver/clusters.go:373-402 | in a nameable fleet no short or canonical name belongs to two clusters |
| ClusterNames.UnambiguousIffContextsApart | internal/mcpserver/clusters.go:364-402 | with plain names for clusters that have a project, no name is ambiguous if and only if no context is called what another cluster is named |
| ClusterNames.SeparatorsMakeNamesAmbiguous | internal/mcpserver/clusters.go:364-402 | a fleet of both kinds where one name belongs to two clusters |
| ClusterNames.IndexIsExact | internal/mcpserver/clusters.go:397-400 | a name leads to a cluster if and only if it is one of that cluster's names |
| ClusterNames.PermutationStaysUnambiguous | internal/mcpserver/clusterchoice.go:119-132 | no reordering makes a name ambiguous |
| ClusterNames.LookupSurvivesPermutation | internal/mcpserver/clusterchoice.go:119-132 | after any reordering a name leads to the cluster it led to before |
| ClusterNames.CheckedIndex | internal/mcpserver/clusterchoice.go:96-118 | recording access changes no name |
| ClusterNames.RanksOrdered | internal/mcpserver/clusterchoice.go:119-127 | the access order is a total preorder |
| ClusterNames.NamesOrdered | internal/mcpserver/clusters.go:396-396 | the name order is a total preorder |
| ClusterNames.CountNames | internal/mcpserver/clusters.go:374-379 | the loop counts bare and project names |
| ClusterNames.BuildIndex | internal/mcpserver/clusters.go:397-400 | the loop builds the index, later entries overriding earlier |
| ClusterChoice.ChooseUnnamed | internal/mcpserver/clusterchoice.go:221-253 | the default cluster if it is reachable, else the only cluster of the tier in the default project, else the tier's only one, else none; never an unreachable one |
| ClusterChoice.ChooseByTier | internal/mcpserver/clusterchoice.go:226-253 | the readable clusters decide when there are any, else the limited ones |
| ClusterChoice.OrderDoesNotDecide | internal/mcpserver/clusterchoice.go:195-265 | reordering the set changes no choice |
| ClusterChoice.ChoiceIsUnique | internal/mcpserver/clusterchoice.go:195-265 | the rule determines the choice |
| ClusterChoice.InDefaultProject | internal/mcpserver/clusterchoice.go:269-283 | a bare name resolves to the default project's cluster if and only if exactly one there has it |
| ClusterChoice.Tiers | internal/mcpserver/clusterchoice.go:226-234 | the loop separates readable from limited, in order |
| ClusterChoice.SoleIffOne | internal/mcpserver/clusterchoice.go:247-252 | a one-element list is a cluster that alone qualifies |
| DiscoveryCache.RunsKeepInv | internal/mcpserver/clusters.go:179-295 | in every interleaving each key's registered discovery, its leader, its joiners and the stored sets agree |
| DiscoveryCache.InvStep | internal/mcpserver/clusters.go:179-295 | every step keeps them in agreement |
| DiscoveryCache.SingleFlight | internal/mcpserver/clusters.go:201-227 | in every interleaving at most one discovery per key is under way |
| DiscoveryCache.JoinerReturnsLeadersResult | internal/mcpserver/clusters.go:203-211 | a joiner that waits returns what its leader returned |
| DiscoveryCache.ResultsAreFinal | internal/mcpserver/clusters.go:216-226 | a discovery's result never changes |
| DiscoveryCache.ServedOwnSet | internal/mcpserver/clusters.go:179-195 | every set a call is served was discovered under its own key, the caller's in per-caller mode |
| DiscoveryCache.FailuresKeepSets | internal/mcpserver/clusters.go:187-224 | in every run a stored set stays as it is until its own discovery succeeds or, for a caller's set, until it is stale when a store leaves too many |
| DiscoveryCache.StoredSetsOnlyImprove | internal/mcpserver/clusters.go:218-224 | a stored set is replaced only by its key's own successful discovery and dropped only when stale or just stored |
| DiscoveryCache.OnlyStoreWritesSets | internal/mcpserver/clusters.go:179-227 | no other step touches the stored sets |
| DiscoveryCache.PruneTakesStale | internal/mcpserver/clusters.go:231-241 | pruning takes exactly the stale callers' sets, and only when there are many |
| DiscoveryCache.MissesAreSpaced | internal/mcpserver/clusters.go:280-293 | rediscoveries for unknown names under one key are at least a minute apart while its record is kept |
| CallSlots.CallerLimit.constructor | internal/mcpserver/google.go:365-367 | a new limit counts nothing |
| CallSlots.CallerLimit.Acquire | internal/mcpserver/google.go:371-373 | admitted exactly below the cap, and counted exactly then |
| CallSlots.CallerLimit.AcquireUpTo | internal/mcpserver/google.go:378-392 | admitted exactly below this call's cap, and counted exactly then |
| CallSlots.CallerLimit.Release | internal/mcpserver/google.go:385-391 | one count is given back and no zero lingers |
| CallSlots.DecUndoesInc | internal/mcpserver/google.go:378-392 | giving back what was taken leaves no trace |
| CallSlots.CountersAreCallsInFlight | internal/mcpserver/mcpserver.go:367-575 | in every interleaving each counter is the number of calls holding its slot, callers and running commands are within their limits, and no zero lingers |
| CallSlots.InvStep | internal/mcpserver/mcpserver.go:367-575 | every step of a call keeps that |
| CallSlots.AdmittedWithinCap | internal/mcpserver/mcpserver.go:367-575 | a call admitted to a cluster leaves it at most at the cap given for that call |
| CallSlots.LeavingFinishes | internal/mcpserver/mcpserver.go:367-575 | a leaving call is out after at most three steps of its own; each of its counters is one less, every other as it was |
| CallSlots.AllOutMeansAllFree | internal/mcpserver/mcpserver.go:367-575 | once every call is out all three limits are empty |
| CallSlots.OneClusterCannotTakeAll | internal/mcpserver/mcpserver.go:109-126 | over every run, one cluster's calls can never hold every global slot if and only if every caller that reads it gets a cap below the global limit (or callers are identified and have no slot at all), whether or not callers are identified; by default, if and only if each such caller has two clusters or more and there are more than two slots |
| CallSlots.ClusterStaysWithinCaps | internal/mcpserver/google.go:378-392 | in every run a cluster has at most as many calls in flight as the largest cap given |
| CallSlots.LargeCapTakesAll | internal/mcpserver/mcpserver.go:121-126 | where a caller's cap is not below the global limit some run takes every slot, also when each call is another identified caller's with a slot of its own |
| CallSlots.ShareIsBelowGlobal | internal/mcpserver/mcpserver.go:121-126 | the default cap is below the global limit if and only if there are two clusters or more and more than two slots |

## Left out

- AxSink.RemindersDoNotKeepAwake: is about sink calls one after another; module ReminderThreads has the same for appends that interleave, and the run that breaks it when two for one id overlap.
- AxSink.Sink.OpenIncidentKeyed: assumes, as the injector guarantees, that opening without a session id is an error; the session store is any answer at all.
- AxSink.Sink.FlushHeld: sorts stably, where the program's sort may order equal times either way; only the order by time is claimed.
- ClusterNames.ClusterSet.CheckAccess: records access one cluster after another, since each write goes to its own entry; without an access check every entry is Unchecked.
- ClusterNames.ClusterSet.NameClusters: sorts stably, where the program's sort may order equal names either way.
- TextWrap.Wrap: takes the words of the text; splitting at white space is not modelled.
- EditDistance.NearestProperty: lower-casing is any function on strings.
- ToolSelection.ResolveTools: which profiles are declared is a parameter, and error texts are not modelled.
- Logfmt.RoundTrip: text is a sequence of bytes, written as characters; quoting of non-ASCII runes and their escapes (\u, \U) is not modelled.
- Response.FitResponse: JSON decoding is a parameter that gives a flat object's pairs in order; the narrowing advice in the hint is any text.
- CutSummary.CutTwiceIsCutOnce: needs the decoder's bare numbers to hold no line break, as JSON numbers do (PlainNumbers).
- ClusterList.CutListsAreFaithful: needs plain numbers too, and for JSON a decoder that undoes the rendering of the cut summary; logfmt needs nothing of it.
- CutSummary.CutReadsBack: is stated for logfmt; CutParses and CutIsFaithful cover JSON for a decoder that undoes the rendering of the cut summary.
- EnrichBundle.Bundle.Stage: the stage's work is an outcome parameter; sanitizing and rendering of findings happen before it.
- EnrichBundle.Bundle.Render: secret masking is any function on strings.
- ClusterChoice.ChooseUnnamed: the error's suggestions and candidate lists are not modelled; a named call's lookup is that of DiscoveryCache followed by InDefaultProject.
- ReminderLedger.Conservation: the counters count for every cluster, where the program skips clusters that installed none.
- TaskNames.TaskNameIsLabel: SHA-256 is any function to 32 bytes and lower-casing any function on characters.
- The sink's cache of HTTP injectors: it spares a connection per call; what a call may answer is the same with a new injector or a cached one, so no result depends on it.
- Starting a task and waiting until it is ready: a call that succeeds or fails.
- What runs under the dispatcher's keys (storm and incident bodies): bodies that end and take no further key.
- The dedup cache, recovery tracker and storm correlator: used only through the assumption on formation reports.
- Transports, TLS, credentials and sign-in: they decide whether a request reaches its handler and as which caller; every caller and every answer is covered here.
- Flags: they set the limits and durations, which are parameters of the modules.
- Telemetry, metrics other than the reminder counters, log lines and documentation generators: they report on the parts modelled and are never read back by them.
