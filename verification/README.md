# Verification of the anti-APT backend

This project models the parts of the backend that are hardest to get right and proves what they promise.

**The task pipeline.** A submitted file becomes a live task, a duplicate of a live task, or a cached answer. Four
handlers (the sweep over rows that are not in a queue, the pending handler with its goroutines under a semaphore of
50, the running handler and the log handler) move tasks between three channels of capacity 5000 and four tables.
`Machine` is the state machine of all of this: every channel operation, every transaction and every read that
another component can overtake is one step, the sandbox, the scanners and the clock are nondeterministic, and a crash
may come at any moment. `Handlers`, `Requests`, `Store`, `TaskChannels` and `Sandbox` are the same code as programs
over a shared connection, channels and the mock sandbox, each proved to do exactly the steps its contract names.

| module | what it holds |
|---|---|
| `Records`, `Database`, `Transactions`, `Lookups` | rows, queries, the transaction loop, the query lists of a commit, the lookups by hash |
| `Machine`, `Runs` | the state machine and its runs |
| `Conservation`, `Recovery`, `Bounds` | the invariant, what holds in every reachable state, crash repair, the two capacity bounds |
| `Fates`, `Safety`, `NoStranding`, `OrderlyRuns` | which steps forget a live task, exactly, and the orderly runs that never do |
| `Carriers`, `Lifetime` | the one carrier of a live task and how many steps can act on it |
| `FlagLoop` | which steps end the loop of a flagged row, exactly |
| `HashClasses`, `Atomic`, `Coherence`, `Listing` | duplicates and leaders, one verdict per file, the firewall's answer, the list of submissions |
| `Scenes`, `Separation`, `Endless` | complete runs in which the promises that the code does not keep are broken |
| `TaskChannels`, `Store`, `Sandbox`, `Handlers`, `Requests` | the programs |
| `Lockout`, `Histogram`, `Cbc`, `Text`, `VmOs` | the login limiter, the hourly count, padding and chaining, text functions, the VM file |
| `Links`, `Ha` | bridges and bonds, the two-node synchronisation |

Check the whole project with `dafny verify dfyconfig.toml`.

## What the code does not promise

Some promises fail for the code as it is. Each is stated with the exact condition under which it holds, and, where it
is about the pipeline, with a run from the empty pipeline in which it fails.

- A live task can be forgotten: its row ends "in queue" with no copy anywhere, no message and no flag.
  `NoStranding.StrandingTheorem` says of every fine-grained run, with lost pushes and crashes, that no task is ever
  forgotten if and only if no step strands its own task. Three kinds of steps can: the sweep's late row update
  (`Separation.LateUpdateRun`), a goroutine's late "running in queue" message (`Separation.StrandedRun`), and the row
  written because the log queue is full, whose flag an older message takes away (`Separation.FullLogRun`).
- An exhausted running task sends "aborted" and then also "running not in queue" (the branch has no `else`). A task
  whose terminal message is sent stays done whatever follows: `Carriers.DoneKeeps`.
- The flag set when a status push fails is cleared in the row by the sweep but travels on in the message, which sets
  it again. A flagged task without a copy (`Endless.FlaggedRun`) can be sent back for ever, never admitted, resumed or
  ended, with no retry spent (`Endless.FlagReturns`), although the sweep always selects it again
  (`FlagLoop.LoopIsSafe`). `FlagLoop.LoopTheorem` says of every fine-grained run that this goes on if and only if no
  step ends it. Only these do: the log handler applies the message before the sweep has cleared the flag
  (`Endless.FlagGoes`), the sweep fetches the row between the two and sends out a copy of it while the flag comes back
  (`Endless.FlagMultiplies`, again and again), a crash between the two, or a reboot that changes the status.
- A task still being analysed that finds the running queue full gets a new start time without losing a retry:
  `Endless.BounceGivesAllBack`. That takes 5000 waiting copies. `Endless.UnderAnalysis` reaches such a state with
  copies that the loop of a flagged row left behind. `Lifetime.LifetimeTheorem` charges every bounce to its bound; a
  run that reaches one like this has lost a message before and is not one of its smooth runs.
- A duplicate can be left without a live row to wait for: `HashClasses.LeadershipTheorem` names the steps,
  `Separation.OrphanRun` is a submission whose live row is reported between its count and its insert. Two submissions
  of one file never both become live, because they would need the same id: `HashClasses.OneLeaderTheorem`.
- The list of all submissions is read in four transactions. With a commit in between it can miss a submission or show
  one twice: `Listing.ListingTheorem` says which, `Separation.NotListed` and `Separation.ListedTwice` are runs.
- The firewall's lookups are separate transactions. A file overridden from allowed to blocked in between is answered as
  unknown, and that is the only wrong answer: `Coherence.FirewallTheorem`, `Separation.OverriddenBetween`.
- An abort records "allow" for the task while a waiting duplicate is analysed on its own, so rows of one file can
  disagree: `Coherence.AbortCoherentExactly`, `Separation.AbortedClass`. A second report can do the same:
  `Coherence.RepeatedReportCoherentExactly`, `Separation.ReportedAgain`.
- A listed file that nobody submitted is stored as critical with score 7, a score the rating bands call a high risk.
  That is the only row whose rating is not its score's: `Recovery.RatingsAreTheScores`, `Separation.ListedRow`.
- The guard "at least two members" counts repeated and empty names: `Links.GuardExactly`, `Links.RepeatedNamePasses`.
- Padding removal looks at one byte: `Cbc.UnpadAcceptsMore`. Merging keeps the dedicated interface's address by
  position, not by name: `Ha.MergeKeepsDedicatedExactly`.

## Assumptions

The bounds of `Bounds` hold for every run and grow with each sandbox listing or live count that fails and is taken for
zero. `NoStranding.StrandingTheorem`, `HashClasses.OneLeaderTheorem`, `HashClasses.LeadershipTheorem`,
`Listing.ListingTheorem`, `FlagLoop.LoopTheorem` and everything in `Recovery` hold for every fine-grained run. Orderly
runs are those in which the log queue takes the workers' messages, the sweep writes a row directly after its push to a
work queue, and a goroutine reports "running in queue" directly after its push; nothing else is kept together.
`Lifetime` is about orderly runs without a crash, in which two checks that find the task still under analysis are at
least one tick apart. `Coherence` is about runs in which a submission looks up and inserts in one piece, an override
reads and writes in one piece and the log handler reads and commits in one piece; it also needs no abort, no task
finished twice (both visible in the finished table) and hash triples that agree in all columns or in none. `Cbc` takes
any invertible block function and any reversible text encoding. Programs that start from the tables ask for what holds
in every reachable state: positive submission ids and submissions that stay in `Requests`, a sound topology in
`Links.UpdateLink`.

## Model

| member | source | states |
|---|---|---|
| `Records.RatingsAreMonotone` | util/utils.go:156-170 | A higher score never gets a milder rating, the bands end at 0, 3, 5 and 7, exactly score 0 is clean and allowed, only negative scores are unknown, and a scanner's 3.5 is a blocked medium risk |
| `Database.Connection.ExecQuery` | dao/task_crud.go:50-66 | The loop over the query list takes effect as the whole list in order, or, at the first database error, not at all |
| `Database.ExecAllAppend` | dao/task_crud.go:50-66 | Running two lists in one transaction is running the second on what the first left, and an error in either undoes both |
| `Transactions.BuildDuplicatesForReported` | service/queue/db.go:69-117 | The two loops that grow the query list produce one decision per duplicate, one multi-row insert and one delete, or nothing at all without duplicates |
| `Transactions.ReportOutcome` | service/queue/queue.go:488-495 | The list committed for a report is one simultaneous move: task and all listed duplicates decided with one score, out of their tables and into the finished table |
| `Transactions.AbortOutcome` | service/queue/queue.go:507-513 | The list committed for an abort decides the task with score 0, finishes it and makes the chosen duplicate live without hashes |
| `TaskChannels.Channel.Push` | service/queue/queue.go:83-92 | A push never waits: it succeeds exactly when fewer than 5000 tasks are in the channel and otherwise changes nothing |
| `TaskChannels.Channel.Fetch` | service/queue/queue.go:94-112 | What is taken and what stays is the old content split in order; -1 takes everything, other counts at most that many |
| `Store.FetchNotInQueueTasks` | service/queue/db.go:20-35 | Returns each live row with one of the two "not in queue" statuses or with the flag exactly once and nothing else, with its own columns and the time of its submission |
| `Store.SelectDuplicates` | service/queue/db.go:76-85 | Returns exactly the duplicates whose MD5, SHA-1 or SHA-256 column is the task's, each once |
| `Store.SelectFirstDuplicate` | service/queue/db.go:128-150 | Returns the smallest matching duplicate, or none exactly when nothing matches |
| `Conservation.StepKeeps` | service/queue/queue.go:143-582 | Every step of every handler, goroutine, request, the sandbox and a crash keeps the invariant of tables, channels, batches and goroutines |
| `Conservation.ReportKeeps` | service/queue/db.go:50-117 | A report keeps the partition of submissions even when the task was already finished and the duplicates were read before the transaction |
| `Conservation.AbortKeeps` | service/queue/db.go:119-160 | An abort keeps the partition and the ratings, repeated or not |
| `Conservation.SubmitKeeps` | service/fileOnDemand.go:211-244 | Each of the three kinds of submission keeps the partition and adds an id that no task table holds |
| `Conservation.PostKeeps` | service/queue/queue.go:566-582 | A status message, or the flagged row written when the log queue is full, keeps the invariant |
| `Recovery.ConservationTheorem` | service/queue/queue.go:488-556 | In every reachable state an analysed submission is in exactly one of live, duplicate and finished, and nothing else is in any of them |
| `Recovery.InsertsAreFresh` | service/queue/db.go:152-156 | No insert into the live or duplicate table, by submission or promotion, ever meets an existing row |
| `Recovery.StillAnalysingIsExact` | service/overrideVerdict.go:84-96 | A rating is empty exactly while the submission is live or a duplicate, so the "still analysing" refusal is exact |
| `Recovery.RatingsAreTheScores` | service/fileOnDemand.go:311-351 | In every reachable state a decided submission has a verdict, and its rating is its score's exactly unless it is the row stored for a listed file |
| `Recovery.RetriesBounded` | service/queue/queue.go:69-73 | On all runs queue retries stay at most 3 and running retries at most 5, in the table and in every copy, wherever it is: channels, batches, goroutines, the task being admitted, the message in hand and the owed one |
| `Recovery.RecoveryTheorem` | dao/task_crud.go:116-141 | After losing all channels in any reachable state, the start-up repair makes the sweep's query return every live row and changes no key |
| `Recovery.MissedWithoutRepair` | service/queue/db.go:24-24 | Without the repair the query misses exactly the unflagged rows whose status is one of the two "in queue" statuses |
| `Recovery.ResetIdempotent` | dao/task_crud.go:122-140 | Repairing twice is repairing once, in every combination of reboot flags that can follow each other |
| `Bounds.AdmissionTheorem` | service/queue/queue.go:191-200 | At most four live rows were ever admitted to the pending queue and at most four have left the first status, plus one for every failed live count |
| `Bounds.OvershootTheorem` | service/queue/queue.go:243-300 | Unreported sandbox tasks, sends not yet made, the batch and what may still be taken never exceed 55, plus five for every failed listing; at most 50 goroutines run, and one more is started exactly while there are fewer |
| `Bounds.CountAdmission` | service/queue/queue.go:191-200 | The count keeps the admission bound even though submissions land between the count and the push |
| `NoStranding.StrandingTheorem` | service/queue/queue.go:143-582 | For every fine-grained run, with full channels, lost pushes and crashes: no live task is ever forgotten if and only if no step strands the one task it writes or reports |
| `NoStranding.StepExactly` | service/queue/queue.go:143-582 | One step leaves every live task safe if and only if the task it endangers has a copy left, or older messages that delete the row or hand it back |
| `Safety.PostExactly` | service/queue/queue.go:566-582 | A status message, or the flagged row written when the log queue is full, strands exactly the task without another copy whose row older messages leave unselected |
| `OrderlyRuns.NoStrandingTheorem` | service/queue/queue.go:143-582 | From the start, or from the restart after a crash in any reachable state, no orderly run ever strands a live task, flags not even counted |
| `NoStranding.CommitSafe` | service/queue/queue.go:468-556 | A commit strands neither the rows it leaves nor the row it promotes |
| `Separation.StrandedRun` | service/queue/queue.go:350-357 | A run without full channels or failed reads at whose end a live row is "in queue" with no copy, no message and no flag: the goroutine reported after the running handler had lost the task |
| `Separation.LateUpdateRun` | service/queue/queue.go:217-236 | The same with the sweep writing the row after the goroutine and the running handler were done with the copy |
| `Separation.FullLogRun` | service/queue/queue.go:566-577 | A run in which the log queue holds 5000 messages, the lost status leaves a flag, and an older message takes the flag away |
| `FlagLoop.LoopTheorem` | service/queue/queue.go:143-237 | In every fine-grained run from a flagged row without a copy, with lost pushes and crashes, the task stays without a copy and with all its counters exactly as long as no message about it is applied before the flag is cleared, no fetch comes between the clearing and the application, and no crash comes there or reboots |
| `FlagLoop.LoopExactly` | service/queue/queue.go:143-237 | The same for one step |
| `FlagLoop.LoopIsSafe` | service/queue/queue.go:162-229 | Such a task counts as safe, for it will be selected again, but no copy of it is anywhere |
| `Endless.FlaggedRun` | service/queue/queue.go:566-577 | A reachable state with such a row: the log queue holds 5000 messages when the task is given up |
| `Endless.FlagReturns` | service/queue/queue.go:162-229 | Five steps of the sweep and the log handler send the flagged row back and leave the state as it was |
| `Endless.FlagGoes` | service/queue/queue.go:217-229 | With the message applied before the flag is cleared the row ends unflagged |
| `Endless.FlagMultiplies` | service/queue/queue.go:203-237 | With a fetch between the clearing and the application, the state differs by one more copy of the task in the running queue |
| `Endless.UnderAnalysis` | service/queue/queue.go:393-432 | A reachable state in which the running queue holds 5000 waiting copies while its handler is about to check a task still under analysis |
| `Endless.BounceGivesAllBack` | service/queue/queue.go:393-432 | From every such state a run leads back to such a state: the task bounces, its row is written and taken up again, it has all its counters and a new start time, and the queue is full of the same copies; the second time nothing else changes |
| `Separation.OrphanRun` | service/fileOnDemand.go:211-238 | A reachable state in which a submission inserts a duplicate of a live row that was reported after it was counted |
| `Separation.ListedTwice` | service/getProfiles.go:1075-1098 | A reachable state in which a report between the second and the third query puts a task into the list twice |
| `Separation.NotListed` | service/getProfiles.go:1087-1108 | A reachable state in which a report between the last two queries leaves a submission out of the list |
| `Separation.ListedRow` | service/fileOnDemand.go:335-340 | A reachable state with a row rated critical whose score is rated a high risk |
| `Separation.AbortedClass` | service/queue/queue.go:504-513 | A reachable coherent state in which the abort about to be committed makes two rows of one file disagree |
| `Separation.ReportedAgain` | service/queue/queue.go:488-495 | A reachable coherent state in which a second report about to be committed makes two rows of one file disagree |
| `Separation.OverriddenBetween` | service/firewall_calls.go:13-37 | Two reachable states, one override apart, between whose lookups a file with a verdict in both is answered as unknown |
| `HashClasses.OneLeaderTheorem` | service/fileOnDemand.go:101-244 | However submissions overlap, no two live rows share a recorded hash, and the ids in use are exactly those up to the largest |
| `HashClasses.NobodyBetween` | service/fileOnDemand.go:101-112 | While the id given to a submission is still free, no other submission has been added since it was given |
| `HashClasses.LeadershipTheorem` | service/fileOnDemand.go:211-244 | In every fine-grained run every duplicate always has a live row to wait for if and only if no step orphans one |
| `HashClasses.StepLedExactly` | service/queue/queue.go:468-556 | A step breaks this if and only if it inserts a duplicate whose live row has gone, or commits and leaves a duplicate without another live row of its file |
| `HashClasses.ReportClosesClass` | service/queue/db.go:69-117 | A report leaves no matching duplicate, and the task and all of them are finished with the same score, rating and verdict |
| `HashClasses.AbortPromotesSmallest` | service/queue/db.go:119-160 | An abort moves exactly the smallest matching duplicate to the live table, unrated and in the first status, and leaves the others |
| `Atomic.AtomicIsRun` | service/fileOnDemand.go:101-248 | A request or message handled in one piece is a run of the machine, transaction by transaction |
| `Atomic.AtomicClasses` | service/queue/queue.go:480-513 | Every request and message handled in one piece, and every other step in between, keeps the duplicates with their live rows as long as nothing was aborted |
| `Atomic.AtomicLedTheorem` | service/fileOnDemand.go:211-238 | After any run in such pieces without an abort every duplicate has a live row to wait for |
| `Coherence.CoherenceTheorem` | service/fileOnDemand.go:250-369 | In regular atomic runs all rows of one file carry the same verdict or none, through reports, cached answers and overrides, and a file of the signature table is always decided |
| `Coherence.CachedAgrees` | service/fileOnDemand.go:264-351 | A cached answer always has a verdict and agrees with every row of its file, whichever matching row was picked |
| `Coherence.ReportCoherent` | service/queue/db.go:69-117 | A first report decides the whole class at once |
| `Coherence.OverrideCoherent` | service/overrideVerdict.go:96-98 | An override rewrites the whole class and nothing else |
| `Coherence.FirewallTheorem` | service/firewall_calls.go:9-38 | For lookups in any two states of a regular atomic run the firewall hears the file's verdict of one of the two moments, if and only if an unlisted file was not overridden from allowed to blocked in between |
| `Coherence.FirewallExactly` | service/firewall_calls.go:9-38 | The same for any two coherent tables; from one state, or with the same verdict at both moments, the answer is right |
| `Coherence.FileVerdictIsRows` | dao/filehash.go:11-78 | The verdict found for a file by its digest is the verdict of every one of its rows |
| `Coherence.FirewallUnknown` | dao/filehash.go:11-78 | A file nobody submitted is answered from the signature table alone and a blank question never |
| `Coherence.FirewallAnswers` | service/firewall_calls.go:9-38 | In full: 1 if some allowed row has the digest in any column, else 2 if a listed file or a blocked row has it, else 0 |
| `Coherence.AbortCoherentExactly` | service/queue/queue.go:504-513 | An abort keeps the class coherent if and only if no duplicate waits for the task |
| `Coherence.RepeatedReportCoherentExactly` | service/queue/queue.go:488-495 | A report of a finished task keeps coherence if and only if the other rows of its file have the new verdict and the duplicates it decides are all rows of their files |
| `Coherence.DecideExactly` | service/queue/db.go:50-117 | Deciding any rows keeps coherence if and only if the rest of each of their files has that verdict |
| `Listing.ListingTheorem` | service/getProfiles.go:1060-1119 | With the four queries at four moments of any run: of the submissions made before exactly those are missed that were duplicates at the second query and neither finished by the third nor duplicates at the fourth; repeated are exactly those live at the second and finished by the third, or finished twice |
| `Listing.QuietListing` | service/getProfiles.go:1060-1119 | While nothing is committed in between every submission is listed, and strictly descending without repetition if and only if no task was finished twice |
| `Listing.LabelsAreExact` | service/getProfiles.go:1075-1098 | A listed submission shows its own columns of that moment, its label tells exactly in which table it was when its query ran, and the two undecided labels go with an empty rating |
| `Listing.FetchAllFods` | service/getProfiles.go:1110-1118 | The four results are kept completely and come out sorted by descending id |
| `Listing.SortByIdDescending` | service/getProfiles.go:1114-1116 | Sorting keeps every row with its multiplicity and orders the ids |
| `Lifetime.LifetimeTheorem` | service/queue/queue.go:281-432 | In smooth runs, while a task is live and its terminal message not sent, at most 29 steps plus six per tick of the longest timeout have acted on it, plus a timeout and three for every bounce |
| `Lifetime.SingleCarrierTheorem` | service/queue/queue.go:143-582 | Such a task has exactly one carrier: one copy (with the goroutine that still has to report it) while its messages keep the row "in queue", or no copy and a row that will be selected; the sweep holds it at most once and never beside a copy |
| `Lifetime.StepFollows` | service/queue/queue.go:143-582 | Every step either ends the life, or keeps the one carrier and takes one of its budget exactly if it acts on the task; only a bounce gives some back |
| `Lifetime.CheckCosts` | service/queue/queue.go:393-432 | A check costs a retry or a tick of waiting, or is the terminal message; a bounce gives back at most the longest timeout and three |
| `Lifetime.FailureCosts` | service/queue/queue.go:304-344 | A failed send costs two, or one when the task goes back through the table |
| `Carriers.DoneKeeps` | service/queue/queue.go:401-410 | Once the terminal message of a task is sent, nothing but a crash brings the task back: its row only waits to be removed |
| `Sandbox.FetchSandboxTaskCountWhichAreNotReported` | service/queue/sandbox.go:187-201 | The counting loop returns the number of sandbox tasks that are pending, running, completed or in an unnamed status, and 0 for a failed listing |
| `Sandbox.IndexListing` | service/queue/queue.go:377-381 | The index built from the listing is the sandbox's own table |
| `Sandbox.MockCuckooClient.CreateTaskFile` | service/queue/cuckoo.go:80-94 | A new sandbox task gets an id that no task has or had and starts as pending; a failing service changes nothing |
| `Sandbox.MockCuckooClient.UpdateTaskStatuses` | service/queue/cuckoo.go:53-78 | One pass advances every task by its age and touches no other |
| `Sandbox.MockCuckooClient.ListAllTasks` | service/queue/cuckoo.go:96-105 | The listing names every task once with its status |
| `Sandbox.MockCuckooClient.TasksDelete` | service/queue/cuckoo.go:131-139 | Exactly the named task goes; a failing service removes nothing |
| `Sandbox.AdvanceMonotone` | service/queue/cuckoo.go:58-75 | A task is running after 2 seconds, completed after 4 and reported after 6, one stage a pass and never back; the score is drawn once, on becoming reported |
| `Sandbox.ReportedInThree` | service/queue/cuckoo.go:58-75 | A task older than six seconds is reported after three more passes |
| `Handlers.Pipeline.ChangeStatusAndPushToLogQueue` | service/queue/queue.go:566-582 | With fewer than 5000 messages waiting the task is sent under the new status and no table changes; otherwise only its row changes, flagged and under the old status |
| `Handlers.Pipeline.PushAndUpdate` | service/queue/queue.go:217-237 | Only the picked channel grows, and only after a successful push the row gets its flag cleared or its status written |
| `Handlers.Pipeline.SweepTask` | service/queue/queue.go:160-238 | One loop body of the sweep does exactly the named machine steps: a flagged row is sent back "not in queue", an infected one or one too many is ended, the others go into their work queue, and the row is written |
| `Handlers.Pipeline.SweepPass` | service/queue/queue.go:149-238 | A whole pass is a machine run that starts with the query's result and uses up the batch |
| `Handlers.Pipeline.PollAndFetch` | service/queue/queue.go:254-276 | Takes from the front of the pending queue as many tasks as machines are free of the five, as the machine's steps do |
| `Handlers.Pipeline.StartTask` | service/queue/queue.go:281-298 | A goroutine is started exactly for fewer than three queue retries within the timeout, and then nothing is sent; otherwise "aborted" is sent |
| `Handlers.Pipeline.RouteFailed` | service/queue/queue.go:304-344 | A failed send counts a retry: the fifth aborts the task, an earlier one puts it back into the pending queue, and when that is full it is sent back "pending not in queue" or, the third time, aborted; exactly the machine step |
| `Handlers.Pipeline.RouteAccepted` | service/queue/queue.go:345-359 | An accepted task goes into the running queue and "running in queue" is sent, or "running not in queue" when that queue is full; exactly the two machine steps |
| `Handlers.Pipeline.SendTask` | service/queue/queue.go:298-360 | The whole goroutine against the mock sandbox is a machine run, and the machine's sandbox stays the mock's |
| `Handlers.Pipeline.CheckRunningTask` | service/queue/queue.go:393-434 | A reported task is sent as reported; one still analysed goes back into the queue without a message until the timeout, then is aborted; a failed or unknown status aborts it; a missing one counts a retry and is sent back, at the fifth after "aborted"; exactly the machine steps |
| `Handlers.Pipeline.RunningPass` | service/queue/queue.go:370-436 | A whole pass lists, takes the whole queue and checks every task, as a machine run |
| `Handlers.Pipeline.ProcessLogQueueTask` | service/queue/queue.go:468-564 | A report decides the task and exactly its duplicates with the sandbox's score, or 3.5 (medium, blocked) for a scanner's hit, and finishes them; an abort decides the task alone with 0 and makes its first duplicate live; other statuses write the row; equal to the machine's steps |
| `Handlers.Pipeline.LogPass` | service/queue/queue.go:444-466 | A pass takes at most twenty messages, oldest first, and finishes each before the next |
| `Requests.NextFodId` | service/fileOnDemand.go:101-112 | The allocated id is one more than the largest in use, so positive and new |
| `Requests.CheckIfHashAlreadyPresent` | service/fileOnDemand.go:250-369 | A file is known exactly if an allowed or a blocked submission or a listed file shares a hash column at the moments of the lookups; its row, with a copied decision or the fallback, is stored unless the id was taken |
| `Requests.CreateFileOnDemand` | service/fileOnDemand.go:101-248 | Whatever others do between its transactions: what it stores follows from the lookups of their moments; a new file becomes an undecided submission with a live row, or a duplicate if a live row shares a hash column; all of it is stored if the id is still free, and nothing otherwise |
| `Requests.UndisturbedIsAtomic` | service/fileOnDemand.go:101-248 | Undisturbed, a submission writes what the machine's uninterrupted submission writes |
| `Requests.OverrideFileVerdict` | service/overrideVerdict.go:65-127 | The four answers under exactly their conditions on the text and the row; in the success case, at a later moment, every row of the file gets the verdict the text names and the mark of an override, and no other row changes |
| `Requests.ResetQueueDb` | dao/task_crud.go:116-188 | The repair writes every status as the flag file asks and nothing else, matches the machine's reset, and leaves a flag file that never asks for a reboot repair |
| `Lockout.LockoutTheorem` | service/retryAttempLimiter.go:17-46 | In any stretch of at most 300 seconds without a successful login at most five comparisons fail, for every sequence of attempts |
| `Lockout.FiveClose` | service/authenticate.go:36-56 | After five wrong passwords every attempt up to 300 seconds later is refused, right password or not, and the next one is compared again with the count restarted |
| `Lockout.FailuresWithinBudget` | service/retryAttempLimiter.go:17-46 | From any record at most the remaining number of comparisons can fail within the hold time |
| `Lockout.LockedNeedsFive` | service/authenticate.go:36-56 | From a count of zero, in every sequence of attempts, one is refused unseen only if five comparisons have failed since the last successful login |
| `Lockout.Accounts.Authenticate` | service/authenticate.go:15-61 | Locked exactly with five failures up to 300 seconds after the last; a successful login leaves the count 0, a wrong password adds one or restarts a lapsed count at 1, and nobody else's record changes |
| `Lockout.Accounts.CheckUnderTimeout` | service/retryAttempLimiter.go:17-28 | Closed exactly while the limit is reached and the hold lasts; otherwise a reached limit is cleared |
| `Histogram.ScannedCount` | service/dashboard.go:165-195 | Bucket i starts i + 1 durations ago and holds the number of tasks finished after that and not after the start before; the last bucket is the oldest task's |
| `Histogram.Advance` | service/dashboard.go:177-188 | The gap-filling loop ends in the bucket of the task, filling the gap with zeros |
| `Histogram.CountsSumToTasks` | service/dashboard.go:172-195 | Every task is counted in exactly one bucket |
| `Histogram.BucketBounds` | service/dashboard.go:174-186 | A time is in a bucket exactly between its start and the previous one, later times in bucket 0 |
| `Cbc.RoundTrip` | util/utils.go:488-578 | Decrypting what was encrypted returns it, for every text and every vector |
| `Cbc.SealedForm` | util/utils.go:516-529 | What is stored is the vector, then the padded and chained text |
| `Cbc.DecryptFails` | util/utils.go:532-578 | How decryption of undecodable text, of text shorter than a vector or not of whole blocks, and of a vector alone ends, and that nothing else ends so |
| `Cbc.UnchainChain` | util/utils.go:516-521 | Unchaining undoes chaining for any invertible block function |
| `Cbc.ChainBlock` | util/utils.go:516-521 | Every block is encrypted after it was combined with the encrypted block before it, the first with the vector |
| `Cbc.UnchainBlock` | util/utils.go:554-557 | Every decrypted block is combined with the encrypted block before it, the first with the vector |
| `Cbc.PadExactly` | util/utils.go:506-513 | One to sixteen bytes are added up to a whole block, each holding their number |
| `Cbc.UnpadIsInverseExactly` | util/utils.go:559-569 | Removing the padding undoes padding exactly on input padded as the standard says |
| `Cbc.UnpadExactly` | util/utils.go:559-569 | The text left is the prefix the last byte asks for; zero and more than there is are refused, and so is empty input |
| `Cbc.UnpadAcceptsMore` | util/utils.go:564-568 | Only the last byte is looked at, so input that no padding produces is accepted |
| `Cbc.EncryptBlocks` | util/utils.go:516-521 | The buffer filled block by block is the chained text |
| `Cbc.DecryptBlocks` | util/utils.go:554-557 | The buffer filled block by block is the unchained text |
| `Cbc.EncryptText` | util/utils.go:488-530 | The program's result is the encrypted text and decrypts to the input |
| `Cbc.DecryptText` | util/utils.go:532-578 | The program's result is the decryption, with each failure it can have |
| `VmOs.TableReadsBack` | service/troubleshoot.go:282-286 | A table written in any order of its keys reads back as itself |
| `VmOs.UpdateOsConfig` | service/troubleshoot.go:255-287 | The rewritten file parses to the old parse with one entry replaced, for any previous content |
| `VmOs.AlterVmOs` | service/troubleshoot.go:227-253 | Numbers other than 1 to 8 and systems other than the six spellings are refused; otherwise exactly that machine's entry becomes "Windows 7" or "Ubuntu 20" |
| `VmOs.ReadVmOs` | service/getProfiles.go:1136-1167 | The table read is the parse, with "windows7" for those of the machines 1 to 8 that the file does not name |
| `VmOs.AlterThenRead` | service/getProfiles.go:1160-1166 | After an alteration the reader sees the new system for that machine and the old one for every other |
| `VmOs.LineReadsBack` | service/troubleshoot.go:265-284 | A printed line reads back as its number and name, with spaces in the name |
| `VmOs.LineExactly` | service/troubleshoot.go:264-278 | A line counts exactly if a number stands before its first space, and all that follows is the name |
| `Text.TrimSpaceBlank` | service/firewall_calls.go:10-12 | A text trims to nothing exactly when it is all white space |
| `Text.TrimSpaceExactly` | service/firewall_calls.go:10-12 | Exactly the white space at both ends goes |
| `Text.AtoiItoa` | service/troubleshoot.go:273-284 | Every 64-bit number printed in decimal reads back |
| `Text.AtoiExactly` | service/troubleshoot.go:227-236 | Exactly digits with or without a sign, with a value of 64 bits, are a number |
| `Links.TopologyTheorem` | service/interfaces/bridge/bridge.go:196-232 | Along any sequence of accepted requests every bridge and bond always keeps two physical members if and only if every update asks for two different ones |
| `Links.HandleExactly` | service/interfaces/bond/bond.go:189-226 | One accepted request keeps the topology sound if and only if it does not update to fewer than two different members |
| `Links.OthersKeepTheirs` | validation/interface_validations/validations.go:167-177 | No accepted request takes a member from a bridge or bond it does not name |
| `Links.GuardExactly` | service/interfaces/bridge/bridge.go:204-206 | The guard's arithmetic equals the number of requested members if and only if the joining names are distinct and non-empty, and is larger otherwise |
| `Links.UpdateKeepsExactly` | service/interfaces/bond/bond.go:189-226 | An accepted update keeps the topology if and only if two different members were requested |
| `Links.UpdatedMembers` | util/interface_utils/utils.go:553-579 | The members after an update are exactly the requested set and every other bridge or bond keeps its own |
| `Links.RepeatedNamePasses` | service/interfaces/bridge/bridge.go:204-206 | A repeated name passes the guard and leaves a bridge with a single member |
| `Links.CreateKeeps` | service/interfaces/bridge/bridge.go:53-69 | A created link has exactly the requested members and the topology stays sound |
| `Links.DeleteKeeps` | service/interfaces/bond/bond.go:451-472 | A deleted link releases its members and nobody else's |
| `Links.FetchAddRemoveFromList` | util/interface_utils/utils.go:553-579 | The two lists are the differences in order, repetitions included |
| `Links.HasCommon` | util/interface_utils/utils.go:515-524 | Finds a repeated name if and only if there is one |
| `Links.FindCommonMemberInterfaces` | util/interface_utils/utils.go:497-513 | Finds a non-empty common name if and only if there is one |
| `Links.AllJoinable` | validation/interface_validations/validations.go:150-179 | Accepts exactly the lists whose interfaces are physical, free of bridges and bonds, and down for a bond |
| `Links.CreateLink` | service/interfaces/bond/bond.go:15-86 | Refuses exactly an empty or used name, fewer than two members, a repeated one, and one that is missing, not physical, in a bridge or bond, or up when it is to join a bond; after a kernel error a bond is taken back and a bridge stays with the members so far |
| `Links.RollbackRestores` | service/interfaces/bond/bond.go:65-72 | Taking a bond back leaves the table as it was when its links had no master before |
| `Links.UpdateLink` | service/interfaces/bridge/bridge.go:179-232 | The list differences applied one by one give exactly the requested members and touch nothing else of any link, or the update is refused and nothing changes |
| `Links.DeleteLink` | service/interfaces/bridge/bridge.go:437-456 | Deletes exactly an existing link of the kind, and releases its members |
| `Ha.RoleSafety` | service/ha.go:138-184 | Whatever syncs are asked for, stopped and overlapped, with edits between, no node changes its role, peer address or dedicated interface |
| `Ha.CompleteSyncAgrees` | service/ha.go:669-714 | After a complete sync both nodes monitor the same interfaces, carry the same stamp, and the primary's keepalived priority is above the backup's |
| `Ha.CompleteSyncSeparates` | service/ha.go:837-902 | After a complete sync the two nodes carry different addresses on every monitored interface with two different ones set |
| `Ha.WrongSideIsRefused` | service/ha.go:1343-1397 | A sync asked for on a node that is not primary, or towards one that is not backup, changes nothing |
| `Ha.SyncBegins` | service/ha.go:1343-1410 | A sync begins exactly on a primary with a peer address towards a backup of the same model and password with a dedicated interface and a peer address; then the peer gets the configuration without statistics, and otherwise nothing changes |
| `Ha.RefusedStep` | service/ha.go:822-835 | A refused step changes nothing, except that a backup whose kernel fails half way has set the addresses of the interfaces before |
| `Ha.MergeIdempotent` | service/ha.go:1142-1191 | Merging the same configuration twice is merging it once |
| `Ha.MergeKeepsIdentity` | service/ha.go:1155-1178 | The receiver's role, peer address and dedicated interface with its address stay, aliases are emptied and everything else comes from the sender |
| `Ha.MergeKeepsDedicatedExactly` | service/ha.go:1142-1191 | With equal counts the dedicated interface keeps its address if and only if the receiver's entry at the position where the sender lists that interface has it, or neither side lists it |
| `Ha.MergeKeepsDedicated` | service/ha.go:1166-1170 | With the interfaces in the same order the dedicated interface keeps its address |
| `Ha.WriteInterfaceConfigFile` | service/ha.go:1142-1191 | The field-by-field merge is the merge function, and a count mismatch writes nothing |
| `Ha.Appliance.SetIpAfterSyncBackup` | service/ha.go:837-921 | Every interface has its turn in list order, up to the first one the kernel does not know |
| `Ha.Appliance.SetAddresses` | service/ha.go:869-902 | After flush, set, flush and set an unmonitored interface carries its own address, and a monitored one the base or peer address of its first entry with 24 bits, by role |
| `Ha.Appliance.CreateHaConfig` | service/ha.go:434-637 | Writes priority 10 or 9, state, tracked interfaces and, as virtual addresses, exactly those recorded for monitored interfaces that have an address, or nothing without a dedicated interface |
| `Ha.MonitoredAddress` | service/ha.go:881-902 | A monitored interface carries its role's address whatever comes before or after it in the list |
| `Ha.OwnAddress` | service/ha.go:873-879 | An unmonitored interface carries its own address, if it has one, after all turns |
| `Ha.SkippedKeep` | service/ha.go:855-867 | The loop-back device, the dedicated interface and what is no Ethernet port keep their addresses |
| `Ha.EnabledIsSound` | service/ha.go:195-280 | An accepted configuration has a role and a partner, a backup monitors nothing yet, and base and peer address always differ |
| `Ha.AcceptedExactly` | service/ha.go:195-280 | Exactly which requests are accepted, by mode, role, dedicated interface, partner and every monitored interface |
| `Ha.EnabledExactly` | service/ha.go:51-99 | What is stored of an accepted request: trimmed texts, the address of every monitored interface, and nothing monitored on a backup |

## Left out

- Database outages: the only error of `Database` is a repeated primary key, which a submission overtaken by another
  one meets; a commit of the log handler that the database refuses is not a step of `Machine`.
- SQL text, and the choice between query and command by the letters "select" in it; quotes in file names.
- Rounding of scores: scores are real numbers, and the score printed into SQL with six decimals is taken as exact.
- Sandbox tasks that others created, and a sandbox that answers a creation with a task and an error at once.
- The messages for sandbox tasks that timed out on their own: their producer is commented out at
  service/queue/queue.go:385, so the log handler's branch for them is kept but nothing sends them.
- Files on disk, acknowledgements to clients, deletion of sandbox data after a report.
- Submission requests: form parsing, size and content checks, file names and comments; a hash that cannot be computed
  is the empty string like in the original.
- Times in the pipeline are whole ticks, and the pause of the running handler between two passes is at least one.
- The clock is read once per login attempt; two attempts of one user at the same time are not modelled.
- Handlers.Pipeline.SendTask: runs against the mock sandbox only; the real client's network errors are the failing case.
- Names of bridges and bonds (prefix, length, letters), hardware addresses, MTU, spanning tree, aliases and addresses
  of bridges and bonds; kernel errors while updating or deleting.
- Links.UpdateLink: assumes that all kernel calls succeed; `Links.CreateLink` has the failing case.
- The HTTP calls between the two appliances: a call that does not arrive is a sync that stops. The order of the
  steps is a function of two nodes, not a program, because the original spreads it over two processes.
- The role text of a stored configuration is one of the three that enabling can store.
- Write-back of speed, MTU and state of an interface after setting addresses; only addresses and aliases are written.
- AES itself, base64, YAML, routing daemons, the layout of the keepalived file beyond what is compared.
- URL submissions, whose malicious rating is drawn at random, and everything in the repository not named above.
