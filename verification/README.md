# SLAS verification model

A Dafny model of the parts of SLAS whose promises are about whole runs: the Agent Kernel with its
write-ahead journal, the resumable model fetcher, the text chunker, people/sessions/audit, leases,
alerts, the sign-in throttles and the attach-stream demultiplexer. `dafny verify dfyconfig.toml`
checks all of it.

## How it is built

**The kernel.** `Machine.dfy` is the kernel as a total step function over durable effects. A `Tick`
does at most one journal append, ticket save, index record or number allocation; `Crash` may come
between any two and drops everything in memory. `Perform` is the executor returning anything at all,
`Analyse` the RCA pipeline returning anything at all. Every list of events is a run, so a lemma
about `After(cfg, es)` is about every reachable state. History variables in `log` are read by no
step, and each is proved to be what the event list says: executions, cuts and crashes by
`KernelTheorems.LogIsHistory`, the planned work by `PlanRuns.PlanIsSubmitted`, the supplied links by
`KernelTheorems.SuppliedIff`. So theorems speak of events. `KernelObject.dfy` is the same kernel in
the form of the source, a class whose methods loop over plans and findings and update its stores;
`power(n)` says whether its n-th durable effect happens. Each method is proved to be a run of the
machine, so the theorems hold of the object, and a call that no power cut hits is proved to end
closed, waiting for a person, or stopped at PLAN. The invariants are in `TicketInvariant`,
`ApprovalInvariant`, `CleanInvariant`, `BugInvariant`; their preservation in `TicketSteps`,
`TicketRuns`, `PlanRuns`, `GuardRuns`, `BugRuns`, `AnalysisRuns`, `RedoRuns`.

**The others.** Each is a class (or a method with loops) tied to a function of the history of calls,
and the promises are lemmas about that function, stated without it where it decides something:
`People`/`PeopleObject` with `PeopleCalls` and `Passwords`, `Throttle`, `Leases`,
`Alerts`, `Demultiplex`, `Chunker`, `Download`, `SumsFile`, `FetchPipeline`, `FetchedDisk`.

## Where the code and its documentation part

Each of these is a property that the code breaks. The model keeps the code; a concrete run or input
shows the break, and the exact condition is proved.

- A crash between a failing observation's journal entry and the save of its record: the restore
  branch marks the record failed and goes on with the next step
  (packages/slas-kernel/slas_kernel/kernel.py:269-272), although the loop is to stop at a failure.
  `CrashWindows.StepPastFailureHappens`, `ResumePerformsIff`, `NoStepPastFailure`. A second crash can
  leave that step running for good: `RunningStepIsLeft`, `KernelTheorems.ActEndsWith`.
- A crash between the Planned save and the save of the approval requests
  (kernel.py:147-159): `resume` sees nothing pending and runs destructive steps nobody approved.
  `CrashWindows.UnapprovedDestructionHappens`, `KernelTheorems.RequestsSavedIffNoCrash`.
- A crash between the save of a bug ticket and its index record (kernel.py:403-404) leads to a second
  bug ticket for the fingerprint. `CrashWindows.TwoBugTicketsHappen`,
  `KernelTheorems.BugIsIndexedIffNoCrash`.
- A crash between the save behind the SOP (kernel.py:460) and the save of the closing transition
  (kernel.py:239) makes `resume` analyse again, and the RCA votes (kernel.py:422) are there twice. A
  crash earlier in ANALYSE loses the unsaved votes and doubles nothing.
  `CrashWindows.VotesTwiceHappen`, `AnalysisTheorems.RcaVotesOnceIff`, `ClosedTicketKeepsWork`.
- "Once each" for votes and exports (kernel.py:336) holds across observations, not within one.
  `Attachments.RepeatsWithinStay`; `AttachIsOnce`, `Act.ReplayIsOnceIff` and
  `KernelTheorems.AttachedOnceIff` say exactly when each is there once.
- "Packing paragraphs up to `max_chars`" (packages/slas-rag/slas_rag/documents.py:76): behind the
  first chunk the running length is two characters too long, so a chunk can close although the next
  piece would fit. `Chunker.TextClosesEarly` is such a text; `Packed` is the exact closing rule and
  `PackingIsUnique` shows that it determines the result; `PacksToTheLimitIff` says when that is the
  packing promised.
- A `.part` of exactly the published size is kept and the next request asks behind the end
  (packages/slas-fetch/slas_fetch/fetch.py:388-396), which section 15.5.17 of RFC 9110 answers with
  416. `Download.FullPartNeverFinishes`, `FinishesIffPartNotFull`. A connection dropped right behind
  the last byte gets there too.
- "A slow flaky link finishes as long as it makes progress" (fetch.py:380-382): a body that restarts
  the file counts as progress too, so the loop need not end. `Download.RestartsRunForever`; by
  `AlwaysEndsIff` every long enough run ends if and only if the server answers a Range request with 206
  or an error, or no retry is configured, or the file is empty.
- The checksum file reads back exactly when no name holds a line break: `SumsFile.NameWithBreakIsLost`,
  `ReadsBackIff`.
- "The same rules in memory" (apps/api/slas_api/throttle.py:93): the Redis counter blocks only when
  the sliding window does, not the other way round. `Throttle.WindowCanBlockAlone`; `RedisBlocksIff`
  and `ThrottlesAgreeIff` say when the counter blocks and when the two agree.
- "A raw stream is all stdout" (packages/slas-container/slas_container/api.py:84): not one that looks
  framed. `Demultiplex.FramedLooksAreLost`; `WholeIff` says when a payload comes back whole.

## Model

| member | source | states |
|---|---|---|
| KernelTheorems.LogIsHistory | packages/slas-kernel/slas_kernel/kernel.py:258-321 | executions, interrupted executions and the three kinds of crash recorded by the history are those of the event list |
| KernelTheorems.JournalFollowsPlan | packages/slas-kernel/slas_kernel/journal.py:34-77 | in every reachable journal entries are numbered 1..n, observed steps are a prefix of the plan, and the interrupted step is none or the next one |
| KernelTheorems.EveryExecutionIsNext | packages/slas-kernel/slas_kernel/kernel.py:279-300 | the executor only ever receives the first unobserved step of the plan, with its own intent open in the journal |
| KernelTheorems.FinishedStepNeverRepeats | packages/slas-kernel/slas_kernel/kernel.py:258-277 | once a step's observation is journalled no later event of the run performs it |
| KernelTheorems.ExecutionsAreBounded | packages/slas-kernel/slas_kernel/kernel.py:279-321 | executions of a step are at most 1 plus the crashes between its intent and its observation, and at most its intents |
| RedoRuns.RedoIff | packages/slas-kernel/slas_kernel/kernel.py:279-294 | in every journal an intent carries the re-performing note if and only if the intent of the same step was open before it |
| PlanRuns.PlanIsSubmitted | packages/slas-kernel/slas_kernel/kernel.py:114-147 | in every run a ticket's plan is that of the submission its number was taken for, as the skill gate expanded it, and it was planned with the cross-check's votes and nothing else |
| PlanRuns.AlwaysPlanned | packages/slas-kernel/slas_kernel/kernel.py:114-147 | the invariant behind it, on files, history and process, holds after every run |
| PlanRuns.PlannedStepIsGated | packages/slas-kernel/slas_kernel/kernel.py:121-135 | each planned step is the submitted one at its place, a skill step admitted by the gate and carrying the risks it compiled to |
| PlanRuns.GateDecides | packages/slas-kernel/slas_kernel/kernel.py:121-147 | PLAN goes on if and only if every skill step is admissible, and the plan is destructive if and only if a submitted step destroys |
| PlanRuns.RequestsAsk | packages/slas-kernel/slas_kernel/kernel.py:147-160 | the requests are one for each submitted step that destroys, undecided, and none for any other |
| KernelTheorems.RecoveryEquivalence | packages/slas-kernel/slas_kernel/kernel.py:258-357 | after any crashes and resumes ACT ends with the work an uncrashed loop computes from the submission's gated plan, its cross-check votes and the journalled observations, unless a crash hit the failing-step window |
| KernelTheorems.ActEndsWith | packages/slas-kernel/slas_kernel/kernel.py:258-321 | in every run ACT ends with the fold over the journalled observations, or, only behind a failed record and a crash in that window, with one record marked running |
| KernelTheorems.SameObservationsSameWork | packages/slas-kernel/slas_kernel/kernel.py:258-357 | two runs with the same plan, planned work and observations end ACT with the same work, however they crashed |
| KernelTheorems.SameSubmissionSameWork | packages/slas-kernel/slas_kernel/kernel.py:114-357 | so do two runs of one submission with the same observations, and with the same plan |
| KernelTheorems.AttachedOnceIff | packages/slas-kernel/slas_kernel/kernel.py:335-346 | at the end of ACT each vote and export is there once if and only if the cross-check told each vote once and no observation repeats one it is the first to bring |
| AnalysisTheorems.AlwaysAnalysed | packages/slas-kernel/slas_kernel/kernel.py:410-486 | after every run a ticket in ANALYSING or behind is ACT's work analysed by each analysis that reached its save, and those number the crashes in the closing window, one more once it is over |
| AnalysisTheorems.ClosedTicketKeepsWork | packages/slas-kernel/slas_kernel/kernel.py:410-486 | in every run, from ANALYSING on the saved work is exactly what ACT ended with, then each saved analysis: its votes behind, its findings triaged and linked; a closed ticket had one analysis more than crashes in the closing window; without a failing-step crash ACT's work is the uncrashed loop's on the submission |
| AnalysisTheorems.ClosedOnce | packages/slas-kernel/slas_kernel/kernel.py:410-486 | with no crash in that window one analysis gives a closed ticket its votes and findings |
| AnalysisTheorems.RcaVotesOnceIff | packages/slas-kernel/slas_kernel/kernel.py:422-486 | in every run the last analysis' votes stand alone behind those of ACT if and only if no crash fell in that window |
| AnalysisTheorems.ClosedFindings | packages/slas-kernel/slas_kernel/kernel.py:347-374 | a closed ticket has one finding per fingerprint, and the fingerprints are exactly those of the observations and of the saved analyses |
| KernelTheorems.ExecutedRiskIff | packages/slas-kernel/slas_kernel/kernel.py:121-135 | the executor receives the submitted step at its place, destructive if and only if that step is or its skill compiles to a destructive step |
| KernelTheorems.ExecutedSkillIsAdmitted | packages/slas-kernel/slas_kernel/skills.py:73-123 | a skill step handed to the executor is a submitted one whose skill is in the library, open to the agent and enabled for it, and it carries exactly the risks that skill compiled to |
| KernelTheorems.DestructiveStepIsApproved | packages/slas-kernel/slas_kernel/kernel.py:147-204 | without a crash in the approval window a step that is destructive, or was submitted so, or compiles to one, reaches the executor only with a stored approval for its id |
| KernelTheorems.RequestsSavedIffNoCrash | packages/slas-kernel/slas_kernel/kernel.py:147-160 | every destructive step is asked about, and behind PLANNED approved, if and only if no crash fell in that window |
| KernelTheorems.ApprovalsComeFromPeople | packages/slas-kernel/slas_kernel/kernel.py:165-182 | every stored approval stems from an approve call for that ticket and step |
| KernelTheorems.DestructionNeedsAPerson | packages/slas-kernel/slas_kernel/kernel.py:165-204 | so such a step is executed only behind an approve call for it |
| KernelTheorems.DoneIsSound | packages/slas-kernel/slas_kernel/kernel.py:410-486 | with crashes anywhere, a Done ticket has one ok observation per plan step, in order, and no finding |
| KernelTheorems.DoneIff | packages/slas-kernel/slas_kernel/kernel.py:440-486 | a closed ticket is Done if and only if no step failed and it has no finding, and in Needs review otherwise |
| KernelTheorems.StatesFollow | packages/slas-kernel/slas_kernel/kernel.py:114-256 | in every run each event leaves a saved ticket in its state or moves it to the next: open, planned, approved, running, analysing, then Done or Needs review, or from open to failed |
| KernelTheorems.ClosedIsFinal | packages/slas-kernel/slas_kernel/kernel.py:189-204 | no event of any kind changes ticket or journal of a closed ticket |
| KernelTheorems.IndexNamesItsBug | packages/slas-kernel/slas_kernel/kernel.py:359-408 | every index entry names a saved bug ticket carrying that fingerprint |
| KernelTheorems.OneBugPerFingerprint | packages/slas-kernel/slas_kernel/kernel.py:359-408 | across all tickets sharing the index a fingerprint has at most one bug ticket whose record no crash prevented |
| KernelTheorems.BugIsIndexedIffNoCrash | packages/slas-kernel/slas_kernel/kernel.py:403-404 | a bug ticket is indexed if and only if no crash fell between its save and its record |
| KernelTheorems.FindingsEndLinked | packages/slas-kernel/slas_kernel/kernel.py:370-408 | every finding of a closed ticket is linked to the ticket the index names or the one it arrived with |
| KernelTheorems.SuppliedIff | packages/slas-kernel/slas_kernel/kernel.py:371-373 | a link counts as supplied if and only if the executor or the analysis brought it in an event of the run |
| RedoRuns.SeenIsCounted | packages/slas-triage/slas_triage/dedup.py:101-110 | the bug index has an entry exactly for the fingerprints recorded in the run, and `seen` is how often that was |
| RedoRuns.EntriesStay | packages/slas-triage/slas_triage/dedup.py:101-110 | the ticket an entry names and the run it was first seen in never change |
| CrashWindows.ResumePerformsIff | packages/slas-kernel/slas_kernel/kernel.py:258-277 | resuming performs a further step if and only if one is unobserved and no saved record is failed |
| CrashWindows.NoStepPastFailure | packages/slas-kernel/slas_kernel/kernel.py:267-276 | without that crash no step is performed behind a failing observation |
| CrashWindows.StepPastFailureHappens | packages/slas-kernel/slas_kernel/kernel.py:269-272 | a run that performs step b although a failing observation of step a is journalled |
| CrashWindows.RunningStepIsLeft | packages/slas-kernel/slas_kernel/kernel.py:267-272 | a run whose ticket enters ANALYSING with a step still running and its intent open |
| CrashWindows.UnapprovedDestructionHappens | packages/slas-kernel/slas_kernel/kernel.py:194-199 | a run that performs a destructive step although nobody was asked |
| CrashWindows.TwoBugTicketsHappen | packages/slas-kernel/slas_kernel/kernel.py:403-404 | a run that leaves two bug tickets with one fingerprint |
| CrashWindows.VotesTwiceHappen | packages/slas-kernel/slas_kernel/kernel.py:460-486 | a run whose Done ticket holds the one vote of its analysis twice |
| TicketRuns.AlwaysOk | packages/slas-kernel/slas_kernel/kernel.py:114-486 | the invariant on tickets, journals and process holds after every run |
| GuardRuns.AlwaysGuarded | packages/slas-kernel/slas_kernel/kernel.py:114-321 | the invariants on approvals, failures and execution counts hold after every run |
| BugRuns.AlwaysBugs | packages/slas-kernel/slas_kernel/kernel.py:359-408 | the invariant on index, bug tickets and links holds after every run |
| KernelObject.Kernel.Run | packages/slas-kernel/slas_kernel/kernel.py:114-163 | a run of the machine that begins with the submission and takes the next number; unhit, the ticket is stopped at PLAN by an invalid plan, an inadmissible skill step or a foreign job, waits with a request for each step that destroys, or ends closed |
| KernelObject.Kernel.CreateTicket | packages/slas-kernel/slas_kernel/kernel.py:208-220 | the ticket takes the agent's next number, one more than its last, and is saved under it |
| KernelObject.Kernel.PlanAndGo | packages/slas-kernel/slas_kernel/kernel.py:147-163 | a run of the machine; unhit, it leaves a destructive plan waiting with its requests and any other ticket closed |
| KernelObject.Kernel.ApproveStep | packages/slas-kernel/slas_kernel/kernel.py:165-182 | succeeds exactly when an undecided approval for the step exists; then, unhit, the first such is approved and nothing else of any ticket file but its journal changes; otherwise no file changes |
| KernelObject.Kernel.ResumeTicket | packages/slas-kernel/slas_kernel/kernel.py:189-204 | a run of the machine; unhit, the ticket ends Done or in Needs review if and only if it was saved approved, running or analysing, or planned with every request decided, or was closed already; in every other case no file changes |
| KernelObject.ResumesIff | packages/slas-kernel/slas_kernel/kernel.py:189-204 | the machine goes on from exactly those saved states, with the ticket as saved |
| KernelObject.Kernel.ApproveAll | packages/slas-kernel/slas_kernel/kernel.py:165-182 | one approve call for each undecided request decides them all and changes nothing else of the ticket |
| KernelObject.Kernel.Release | packages/slas-kernel/slas_kernel/kernel.py:165-204 | a planned ticket, whatever happened before, ends closed once all its requests are approved and it is resumed with no power cut |
| KernelObject.Kernel.RunApproved | packages/slas-kernel/slas_kernel/kernel.py:114-204 | so does every submission that passes PLAN, destructive or not |
| KernelObject.Kernel.Transition | packages/slas-kernel/slas_kernel/kernel.py:230-239 | journal entry, then save, each only if the process survives |
| KernelObject.Kernel.ActAndClose | packages/slas-kernel/slas_kernel/kernel.py:246-256 | RUNNING, ACT and ANALYSING in order, as a run of the machine; unhit, the ticket ends Done or in Needs review |
| KernelObject.Kernel.Act | packages/slas-kernel/slas_kernel/kernel.py:258-277 | the loop over the plan is a run of the machine and leaves the ticket at the ANALYSING transition |
| KernelObject.Kernel.PerformStep | packages/slas-kernel/slas_kernel/kernel.py:279-321 | mark, save, intent, execute, observation, verdict, save, as a run of the machine |
| KernelObject.Kernel.SpawnBugTickets | packages/slas-kernel/slas_kernel/kernel.py:359-408 | the loop over triaged findings is a run of the machine |
| KernelObject.Kernel.OpenBug | packages/slas-kernel/slas_kernel/kernel.py:379-405 | a bug ticket for a new fingerprint takes the next number, is saved, then indexed, as a run of the machine |
| KernelObject.Kernel.SaveBug | packages/slas-kernel/slas_kernel/kernel.py:379-403 | the bug ticket is open, a child of this one, with the analysis votes and the one finding linked to itself |
| KernelObject.Kernel.CountAgain | packages/slas-triage/slas_triage/dedup.py:101-110 | a tracked fingerprint is counted once more and keeps its ticket |
| KernelObject.Kernel.AnalyseAndClose | packages/slas-kernel/slas_kernel/kernel.py:410-486 | COLLECT, RCA, bug tickets, SOP and CLOSE, as a run of the machine; unhit, the ticket ends Done or in Needs review |
| Attachments.AttachIsOnce | packages/slas-kernel/slas_kernel/kernel.py:335-346 | the votes are those there and those of the observation whose voter and reason no vote there had, the exports likewise by path; attaching again adds none, and each is there once if and only if it was and the observation does not repeat one the ticket lacks |
| Attachments.RepeatsWithinStay | packages/slas-kernel/slas_kernel/kernel.py:337-346 | an observation that repeats a vote and an export leaves both of each on the ticket |
| Act.ReplayIsOnceIff | packages/slas-kernel/slas_kernel/kernel.py:258-346 | a replayed journal leaves each vote and export once if and only if none is repeated within the observation that first brings it |
| Attachments.RepeatAddsEvidence | packages/slas-kernel/slas_kernel/kernel.py:347-357 | a repeated finding keeps the first 20 entries of its evidence followed by the unseen new ones, and changes nothing else |
| Attachments.FindingsOnlyGrow | packages/slas-kernel/slas_kernel/kernel.py:347-357 | on a ticket with one finding per fingerprint an observation leaves every finding in place but for its evidence, and adds the first copy of each new fingerprint behind them |
| Attachments.TriageIsOnePerPrint | packages/slas-triage/slas_triage/dedup.py:18-46 | triage keeps every fingerprint, repeats none, and routes exactly the findings that have no routing |
| Act.ReplayRecords | packages/slas-kernel/slas_kernel/kernel.py:307-312 | folding k observations finishes the first k records with their own verdicts and leaves the rest pending |
| Act.ReplayIsUncrashed | packages/slas-kernel/slas_kernel/kernel.py:258-321 | the fold over journalled observations is what the uncrashed loop computes |
| Journal.JournalFile.AppendEntry | packages/slas-kernel/slas_kernel/journal.py:34-57 | the journal grows by one entry that carries the next number |
| Journal.JournalFile.CompletedSteps | packages/slas-kernel/slas_kernel/journal.py:59-65 | step ids with their last observation |
| Journal.JournalFile.InterruptedStep | packages/slas-kernel/slas_kernel/journal.py:67-77 | the step whose intent no observation followed |
| Journal.OpenIntentIff | packages/slas-kernel/slas_kernel/journal.py:67-77 | the interrupted step is exactly the one whose intent was the last and has no observation of it behind it |
| Journal.CompletedIsObserved | packages/slas-kernel/slas_kernel/journal.py:59-65 | with distinct observed steps the table is exactly the observations in order |
| SkillGate.ExpandIsFaithful | packages/slas-kernel/slas_kernel/skills.py:61-123 | a plan passes if and only if each skill step is in the library, open to the agent, enabled for it and compiles; it then carries exactly the compiled risks, the largest of them and its own, and other steps are left alone; otherwise the first such step is named |
| SkillGate.BoundInputs | packages/slas-kernel/slas_kernel/skills.py:105-110 | secrets enter only as the placeholder, given inputs win over the target, and a target fills exactly the gaps the skill declares |
| Download.DownloadIsFaithful | packages/slas-fetch/slas_fetch/fetch.py:368-442 | against any mix of drops, short bodies, 200 and 206, `.part` is a prefix of the content and a finished download of known size is the content |
| Download.LoopEndsIff | packages/slas-fetch/slas_fetch/fetch.py:393-434 | the loop ends with the first answer that is an error, a whole body, or the last of more than `retries` in a row that brought no byte, with that outcome and what was received, and otherwise asks again |
| Download.DownloadBound | packages/slas-fetch/slas_fetch/fetch.py:393-434 | where no received byte is thrown away the loop ends within (missing bytes + 1) * (retries + 1) answers |
| Download.AlwaysEndsIff | packages/slas-fetch/slas_fetch/fetch.py:393-434 | for a server that answers Range requests with bodies of given statuses, every long enough run ends if and only if those are all 206, or no retry is configured, or the file is empty |
| Download.RoundLowersMeasure | packages/slas-fetch/slas_fetch/fetch.py:394-422 | each further round lowers missing bytes, then stalls left |
| Download.RestartsRunForever | packages/slas-fetch/slas_fetch/fetch.py:400-421 | a server that answers a Range request with any other status can keep the loop running for any number of answers |
| Download.FullPartNeverFinishes | packages/slas-fetch/slas_fetch/fetch.py:388-396 | a `.part` of exactly the published size is kept and no run finishes |
| Download.FinishesIffPartNotFull | packages/slas-fetch/slas_fetch/fetch.py:388-441 | on an undisturbed link the download finishes with the content if and only if `.part` did not have the full size |
| Download.UnknownSizeAcceptsShortBody | packages/slas-fetch/slas_fetch/fetch.py:417-419 | without a published size a body cut short by a clean close is accepted |
| Download.Files.Fetch | packages/slas-fetch/slas_fetch/fetch.py:368-442 | outcome, `.part` and target are those of the loop; a finished download leaves no `.part` |
| Download.Files.ReadBody | packages/slas-fetch/slas_fetch/fetch.py:399-412 | `.part` is appended to only by a 206 answer to a Range request |
| SumsFile.SumsRoundTrip | packages/slas-fetch/slas_fetch/fetch.py:797-811 | SHA256SUMS reads back as the table it was written from |
| SumsFile.WrittenLines | packages/slas-fetch/slas_fetch/fetch.py:797-801 | the file has one line per name: the digest, two spaces, the name |
| SumsFile.ReadsBackIff | packages/slas-fetch/slas_fetch/fetch.py:797-811 | it does if and only if no name holds a line break |
| SumsFile.NameWithBreakIsLost | packages/slas-fetch/slas_fetch/fetch.py:797-811 | a table with a name that holds a line break reads back as another |
| SumsFile.ReadSums | packages/slas-fetch/slas_fetch/fetch.py:804-811 | the loop gives the table of the lines, blank ones skipped, a later line winning |
| SumsFile.ReadsTheLast | packages/slas-fetch/slas_fetch/fetch.py:804-811 | a name is read exactly if a line that is not blank tells it, with the digest of the last such line |
| SumsFile.CrLfBreaksOnce | packages/slas-fetch/slas_fetch/fetch.py:804-808 | a carriage return and a newline behind it end one line |
| FetchPipeline.PlanModel | packages/slas-fetch/slas_fetch/fetch.py:631-659 | refuses an empty choice; present are exactly the complete files, partial exactly the usable `.part` files with their sizes |
| FetchPipeline.PartialIff | packages/slas-fetch/slas_fetch/fetch.py:647-656 | a file is planned as partial if and only if it is not complete and its download would resume from the `.part` there |
| FetchPipeline.DownloadInto | packages/slas-fetch/slas_fetch/fetch.py:368-442 | touches only the file and its `.part`; the result is the loop's and has the published size |
| FetchPipeline.FetchOne | packages/slas-fetch/slas_fetch/fetch.py:758-789 | a present file fails if and only if it is gone; any other if and only if its answers do not finish or a published checksum or blob id is not that of the received bytes, which else are the file; which failure, and what is removed |
| FetchPipeline.UndisturbedFetches | packages/slas-fetch/slas_fetch/fetch.py:368-442 | one undisturbed answer fetches a file with its published content if and only if its `.part` is not full |
| FetchedDisk.FetchFiles | packages/slas-fetch/slas_fetch/fetch.py:755-792 | the loop ends without a failure if and only if nobody cancels and every file is present or its answers bring it, told from the directory at the start, and else at the first that is not, with that reason; every file is recorded with its digest and size, and the byte count is their sum |
| FetchedDisk.Destination.FetchPlanned | packages/slas-fetch/slas_fetch/fetch.py:705-794 | the same on disk, completed or failed, with each file listed once in SHA256SUMS; no other model and no manifest entry changes |
| FetchedDisk.Destination.WriteManifest | packages/slas-fetch/slas_fetch/fetch.py:821-837 | the manifest tells of the last model fetched for each path, and no other entry is lost or changed |
| FetchedDisk.Destination.Verify | packages/slas-fetch/slas_fetch/fetch.py:863-892 | reports exactly the missing and mismatching files and the models without a checksum file |
| FetchedDisk.Destination.AlreadyHere | packages/slas-fetch/slas_fetch/fetch.py:542-589 | returns the model exactly when pinned commit, checksum file and sizes fit, with the listed files and their sizes |
| FetchedDisk.FetchModel | packages/slas-fetch/slas_fetch/fetch.py:631-837 | plan, fetch and manifest complete if and only if nobody cancels and every file is complete or its answers bring what is published; then the complete files are as they were, the others what was received, and the model is installed; every other model stays as it was |
| FetchedDisk.FetchUndisturbed | packages/slas-fetch/slas_fetch/fetch.py:631-837 | one undisturbed answer for each file that is not complete fetches the model with exactly the published contents |
| FetchedDisk.VerifyReportsNothing | packages/slas-fetch/slas_fetch/fetch.py:863-892 | the offline check reports nothing of a model just installed |
| FetchedDisk.VerifySeesDamage | packages/slas-fetch/slas_fetch/fetch.py:863-892 | whatever happened to the files since, the offline check reports of the model exactly the files that are gone and those whose digest is no longer the fetched one |
| FetchedDisk.VerifyNamesTheAbsent | packages/slas-fetch/slas_fetch/fetch.py:863-892 | a model asked for without a checksum file is named, and a destination without any is reported as empty |
| FetchedDisk.SkippedIff | packages/slas-fetch/slas_fetch/fetch.py:542-580 | a later run skips an installed model if and only if the revision is pinned, begins its commit, and no file is empty |
| FetchedDisk.SkipSeesSizes | packages/slas-fetch/slas_fetch/fetch.py:542-580 | and the skip path is refused by exactly the files that are gone, emptied or of another size |
| FetchedDisk.PinnedIff | packages/slas-fetch/slas_fetch/fetch.py:542-560 | a pinned revision is 7 to 64 lower-case hex digits |
| FetchedDisk.SkipReturnsTheSame | packages/slas-fetch/slas_fetch/fetch.py:572-589 | and then returns the same files, sizes and byte count |
| FetchedDisk.FetchAgain | packages/slas-fetch/slas_fetch/fetch.py:631-837 | fetching an installed model again completes with the same files, sizes and bytes whatever the server would answer, and changes no file |
| Chunker.ParagraphsTile | packages/slas-rag/slas_rag/documents.py:90 | paragraphs tile the text, hold no blank-line break, and have one between them |
| Chunker.CutText | packages/slas-rag/slas_rag/documents.py:88-106 | the offset search always finds the true position: the pieces are those of the paragraphs where they stand |
| Chunker.CutParagraph | packages/slas-rag/slas_rag/documents.py:97-106 | the cutting loop ends with the overlapping cuts of the paragraph |
| Chunker.CutsOverlap | packages/slas-rag/slas_rag/documents.py:100-106 | every cut but the last is full and ends short of the paragraph, the next begins `overlap` before its end, the last ends the paragraph |
| Chunker.PiecesSpanParagraph | packages/slas-rag/slas_rag/documents.py:88-106 | the pieces of a paragraph run from its first to its last character that is not whitespace, and a blank one has none |
| Chunker.PiecesAreFaithful | packages/slas-rag/slas_rag/documents.py:88-106 | every piece is the text at its recorded start, not empty and not over the limit |
| Chunker.PiecesHoldPassages | packages/slas-rag/slas_rag/documents.py:78-80 | a passage within a paragraph of at most overlap + 1 characters is whole in one piece; so every character but whitespace is in one |
| Chunker.Pack | packages/slas-rag/slas_rag/documents.py:108-123 | chunks are the pieces in order, none over the limit, each closed exactly when the over-counted length would pass it |
| Chunker.PackingIsUnique | packages/slas-rag/slas_rag/documents.py:112-122 | that closing rule has one result |
| Chunker.OverCountClosesEarly | packages/slas-rag/slas_rag/documents.py:113-120 | three pieces where a chunk closes although the next piece would fill it exactly |
| Chunker.TextClosesEarly | packages/slas-rag/slas_rag/documents.py:113-120 | a text whose last two paragraphs would fill a chunk exactly and are returned as two |
| Chunker.PacksToTheLimitIff | packages/slas-rag/slas_rag/documents.py:112-122 | the loop packs up to the limit if and only if the ideal packing has, behind its first chunk, no chunk of several pieces within two characters of the limit |
| Chunker.ChunkText | packages/slas-rag/slas_rag/documents.py:70-123 | the two ValueErrors exactly; otherwise the text's pieces packed, with the default overlap when none is given |
| Chunker.ChunksFit | packages/slas-rag/slas_rag/documents.py:108-123 | every chunk is within the limit and opens with a whole piece, the text at its start |
| Chunker.ChunksQuotePassages | packages/slas-rag/slas_rag/documents.py:78-80 | such a passage is quoted whole by some chunk |
| People.AuditDeterminesPeople | apps/api/slas_api/service.py:313-434 | replaying the audit rows of any run gives every person's role and active flag, and no one else's |
| People.AnAdministratorRemains | apps/api/slas_api/service.py:390-408 | with a fixed role set active administrators never fall back to none once there is one |
| People.SessionsAreOwned | apps/api/slas_api/service.py:421-423 | every stored session belongs to an active person |
| People.SessionLife | apps/api/slas_api/service.py:507-588 | expiry minus last-seen stays the lifetime chosen at sign-in, and every gap between uses was shorter |
| People.ResolvesIff | apps/api/slas_api/service.py:559-588 | a session resolves if and only if a token is given, it is stored and less than its lifetime passed since its last use |
| People.ResetEndsSessions | apps/api/slas_api/service.py:437-456 | a token that resolves for a person after a password reset was signed in with after it |
| Passwords.HashIsOfLast | apps/api/slas_api/service.py:313-556 | in every run the stored hash of a person is that of the text hashed last by an accepted add, bootstrap, reset or change, or by a renewal at sign-in |
| Passwords.SignsInIff | apps/api/slas_api/service.py:507-556 | in every run a sign-in is accepted if and only if it is not blocked, the token is new, and an active person has the address and the hash of that text verifies the given password |
| Passwords.OnlyTheLastPassword | apps/api/slas_api/service.py:437-556 | where a hash verifies its own password alone, that is if and only if the given password is the one set last for the person |
| Passwords.ResetHolds | apps/api/slas_api/service.py:437-456 | behind a reset the one-time password stays the person's until another reset or their own change |
| PeopleCalls.AddIff | apps/api/slas_api/service.py:313-377 | a person is added if and only if address, name, role and password are acceptable and neither identifier nor address is taken; the whole new state, and none for a refusal |
| PeopleCalls.UpdateIff | apps/api/slas_api/service.py:380-408 | a change is accepted if and only if the person and the role exist, nobody switches themselves off, and the last administrator is not lost by it |
| PeopleCalls.UpdateDoes | apps/api/slas_api/service.py:409-434 | the person as asked for, the sessions of one switched off ended and counted, one row for each change |
| PeopleCalls.ResetIff | apps/api/slas_api/service.py:437-456 | a reset succeeds exactly for a person who exists: one-time hash, forced change, every session ended and counted |
| PeopleCalls.ChangeOwnIff | apps/api/slas_api/service.py:459-501 | a change of one's own password is accepted if and only if the current one verifies and the policy allows the new one; the whole new state |
| PeopleCalls.SignInIff | apps/api/slas_api/service.py:507-556 | a sign-in is accepted if and only if it is not blocked, the token is new and an active person with the address verifies; it opens one session of that person, may renew the hash, and changes nothing else; a refused one changes nothing |
| PeopleCalls.ResolveDoes | apps/api/slas_api/service.py:559-588 | a stored session not yet due slides, a due one is removed, nothing else changes |
| PeopleCalls.SignOutDoes | apps/api/slas_api/service.py:591-596 | only that session is gone, none for an empty token |
| PeopleCalls.BootstrapDoes | apps/api/slas_api/service.py:602-647 | the administrator is created exactly while nobody is registered and the secret is there and not empty |
| PeopleObject.Tables.AddPersonRow | apps/api/slas_api/service.py:313-377 | rows and reply are those of the call in the model, refusals in the source's order |
| PeopleObject.Tables.CheckUpdate | apps/api/slas_api/service.py:390-408 | refuses exactly an unknown role, switching oneself off, and losing the last administrator |
| PeopleObject.Tables.UpdatePersonRow | apps/api/slas_api/service.py:380-434 | role and active flag, one audit row for each change, sessions revoked on switching off |
| PeopleObject.Tables.ResetPasswordRow | apps/api/slas_api/service.py:437-456 | new hash, forced change, all sessions revoked, one row |
| PeopleObject.Tables.ChangeOwnPasswordRow | apps/api/slas_api/service.py:459-501 | all sessions but the kept one revoked; the bootstrap is consumed once |
| PeopleObject.Tables.SignInRow | apps/api/slas_api/service.py:507-556 | rows and reply are those of the call: the person found by address, verified, active, then the session |
| PeopleObject.Tables.ResolveSessionRow | apps/api/slas_api/service.py:559-588 | slides the expiry, deletes an expired row, revokes for an inactive person |
| PeopleObject.Tables.SignOutRow | apps/api/slas_api/service.py:591-596 | the token is gone, and the answer says whether it was there |
| PeopleObject.Tables.BootstrapRow | apps/api/slas_api/service.py:602-647 | creates the administrator exactly when nobody is registered and the secret is there and not empty |
| Leases.OwnershipIsExclusive | packages/slas-kernel/slas_kernel/leases.py:65-88 | under a monotone clock no two tickets own a target at one instant, by the answers each got |
| Leases.HolderIsOwner | packages/slas-kernel/slas_kernel/leases.py:59-63 | `holder` names a ticket exactly when it owns the target at that instant |
| Leases.FreeTargetsAreUnowned | packages/slas-kernel/slas_kernel/leases.py:99-100 | `free_targets` has exactly the candidates nobody owns |
| Leases.FreeTargetsInOrder | packages/slas-kernel/slas_kernel/leases.py:99-100 | candidate by candidate, in their order |
| Leases.LateReleaseIsRefused | packages/slas-kernel/slas_kernel/leases.py:90-97 | a ticket whose lease was taken over cannot release the new owner's |
| Leases.AcquireFailsIffOwned | packages/slas-kernel/slas_kernel/leases.py:65-77 | `acquire` refuses if and only if another ticket owns the target |
| Leases.LeaseTable.AcquireLease | packages/slas-kernel/slas_kernel/leases.py:65-88 | grants or refuses on that condition; the lease runs from the ticket's own earlier one or from now for the hours asked, and the table changes in that target only |
| Leases.LeaseTable.ReleaseLease | packages/slas-kernel/slas_kernel/leases.py:90-97 | succeeds exactly for the ticket the table names, always for the owner, never against another owner, and the ticket owns nothing there afterwards |
| Leases.LeaseTable.HolderOf | packages/slas-kernel/slas_kernel/leases.py:59-63 | the owner at that instant, or none |
| Leases.LeaseTable.FreeTargetsOf | packages/slas-kernel/slas_kernel/leases.py:99-100 | the unowned candidates in order |
| Alerts.CountsAreConserved | packages/slas-observability/slas_observability/alerts.py:137-189 | after any calls the counts sum to the number of raises |
| Alerts.AcknowledgedIsFinal | packages/slas-observability/slas_observability/alerts.py:179-189 | an acknowledged alert never changes again |
| Alerts.OpenAlertsAreApart | packages/slas-observability/slas_observability/alerts.py:147-175 | of two open alerts with one id the later fired more than the window after the earlier was last seen |
| Alerts.OneRecentPerId | packages/slas-observability/slas_observability/alerts.py:150-162 | of two open alerts with one id the earlier can take no further repeat |
| Alerts.LocalAlertChannel.RaiseAlert | packages/slas-observability/slas_observability/alerts.py:137-177 | a repeat counts on the first open alert of the id seen within the window, with the new sentence and time; otherwise one is added with the call's fields; all others stay |
| Alerts.LocalAlertChannel.AcknowledgeAlert | packages/slas-observability/slas_observability/alerts.py:179-189 | acknowledges the first open alert, or raises and changes nothing exactly when none is open; all others stay |
| Alerts.LocalAlertChannel.IngestAlertmanager | packages/slas-observability/slas_observability/alerts.py:212-238 | item by item, at its own reading: a raise from Alertmanager with the item's id, sentence and severity exactly when it is firing, an acknowledgement of its id exactly when it is resolved, each with that effect on the file; the changed alerts are returned |
| Alerts.ItemShows | packages/slas-observability/slas_observability/alerts.py:212-238 | behind a firing item an alert of its id is open with its sentence, seen at that reading; behind a resolved one the first that was open is acknowledged |
| Throttle.MemoryThrottle.IsBlocked | apps/api/slas_api/throttle.py:104-112 | blocks exactly when ten failures since the last clear lie in the past 15 minutes for either key |
| Throttle.MemoryThrottle.RecordFailure | apps/api/slas_api/throttle.py:114-118 | the failure joins the history of both keys |
| Throttle.MemoryThrottle.Clear | apps/api/slas_api/throttle.py:120-123 | the email's history starts afresh |
| Throttle.FailureKeeps | apps/api/slas_api/throttle.py:104-118 | pruned lists go on counting like all failures since the last clear |
| Throttle.PruneKeeps | apps/api/slas_api/throttle.py:104-108 | so does pruning alone |
| Throttle.BlocksIff | apps/api/slas_api/throttle.py:104-123 | a key blocks if and only if ten of its failures of the past 15 minutes have no clear of the key behind them |
| Throttle.RedisThrottle.IsBlocked | apps/api/slas_api/throttle.py:59-65 | blocks exactly when a live counter of either key reached ten |
| Throttle.RedisThrottle.RecordFailure | apps/api/slas_api/throttle.py:67-76 | both counters count the failure, a new one with a new expiry |
| Throttle.CounterCountsFailures | apps/api/slas_api/throttle.py:67-83 | a counter's value is the number of failures since the last clear in its own window, and that window begins where the failures make it begin |
| Throttle.RedisBlocksIff | apps/api/slas_api/throttle.py:59-76 | the counter blocks if and only if its window is open and ten failures since the last clear lie in it |
| Throttle.ThrottlesAgreeIff | apps/api/slas_api/throttle.py:59-123 | the two throttles agree if and only if the sliding window does not block, or the fixed window is open and holds ten of the recent failures |
| Throttle.RedisBlocksOnlyIfWindowBlocks | apps/api/slas_api/throttle.py:59-123 | for every sequence of calls, when the Redis counter blocks the sliding window blocks |
| Throttle.WindowCanBlockAlone | apps/api/slas_api/throttle.py:59-123 | a sequence where the sliding window blocks and the counter does not |
| Demultiplex.Demultiplex | packages/slas-container/slas_container/api.py:83-98 | the loop gives the split of the payload |
| Demultiplex.SplitInvertsEncode | packages/slas-container/slas_container/api.py:83-98 | decoding encoded frames gives the concatenated stdout and stderr payloads |
| Demultiplex.SplitOfCut | packages/slas-container/slas_container/api.py:83-98 | a stream cut inside a payload gives whole frames and the received part; cut inside a header, whole frames, or the raw bytes when nothing came before |
| Demultiplex.BadHeaderIsRaw | packages/slas-container/slas_container/api.py:87-92 | eight bytes that are no header make the whole payload raw stdout, whatever frames came before |
| Demultiplex.WholeIff | packages/slas-container/slas_container/api.py:87-98 | a payload comes back whole as stdout if and only if it is empty, a header position holds no header, or bytes are left behind headers that announce nothing |
| Demultiplex.FramedLooksAreLost | packages/slas-container/slas_container/api.py:84-98 | eight raw bytes that look like a header give nothing |

## Left out

- Timestamps, titles, trace ids, metrics, events and rendered prose of the kernel; no branch reads them.
- Logs, RCA text and SOP rendering: the analysis is an arbitrary value, the SOP one journal note and one save.
- A journal line torn by a crash inside the append: an append is durable when it returns, and each `write_atomic` is one step.
- Several orchestrators at once: one process works at a time, as packages/slas-kernel/slas_kernel/store.py:75-76 says.
- `agent.verify`, `compile_skill`, owner routing and the library state of skills: deterministic parameters.
- Skipped records: the kernel never sets that status; the model keeps the branch that reads it.
- Refused approvals: `approve` only records consent, and nothing else in the kernel decides one.
- JSON encodings of tickets, journals, leases, alerts and the manifest; the models store the values.
- The opener's own retries (packages/slas-fetch/slas_fetch/fetch.py:256-274), redirects, tokens and the host allowlist: one answer of the model is what they end with.
- FetchedDisk.FetchPlanned: does not model the sort order of SHA256SUMS, progress calls or a crash in the middle of the loop; a file named SHA256SUMS is not a model file, and a path is one name.
- FetchPipeline.PlanModel: `select` and its patterns are left out; the chosen files are an input.
- Free-disk check, `merge_manifest` and source-file parsing: they compare a sum with the free space, fold one manifest into another and split configuration lines; no fetched file, checksum or manifest entry of the model depends on them.
- Chunker.Pack: holds whole pieces where the source holds their texts, since a chunk's start comes from them.
- `chunk_document`, tokens, embedding and retrieval: numbering over the chunks, and model calls.
- Alert names and labels: folded into the id, as their fingerprint is.
- People: display names, `via`, actor and time of audit rows; password hashing, policy and address syntax are parameters; a session's row id and token digest are one key; throttle answers are an input of sign-in.
- SQL isolation and concurrent requests: each call is one transaction.
- Redis itself: counters with expiry under one clock.
- HTTP routes, the WebUI, compose files, Vault, Keycloak, Grafana and Prometheus rendering.
