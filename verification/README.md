# CodePilot for GitFlame: a verified model

CodePilot turns an issue of a GitFlame repository into an implementation plan and, once the plan is
approved, into a set of file operations. A Go backend keeps the workflow and publishes jobs to a
Redis stream, a Go worker executes them, a Python agent engine talks to the model, and a web
frontend lets people choose which files take part. This project models the parts of that system whose
behaviour depends on unbounded state, and proves what they promise. `dafny verify dfyconfig.toml`
checks everything.

Loops and objects of the source are methods and classes with loops; each is proved against a
specification function, and the theorems are about those functions. Protocols are state machines:
a run is a list of steps in any order, and the theorems hold for every list.

| files | what they model |
|---|---|
| `ExcludePaths`, `TreeShape`, `ExcludeTheorems`, `RepositoryTree` | the exclude patterns of the repository tree and the tree itself |
| `PlanPaths`, `GeneratedFiles`, `FileContract` | paths, merging, filtering and validating generated file operations, and what applying them does |
| `Resp` | the Redis serialization protocol, as the broker prints and parses it |
| `TaskQueue`, `TaskRetries`, `TaskWorker`, `TaskProgress`, `TaskAttempts` | the task queue under faults, redelivery and crashes, the worker loop that runs on it, how its rounds settle every job, and how often exactly one that fails is tried |
| `IndexJobs`, `IndexJobProtocol` | the registry of background indexing jobs, and its goroutines in every interleaving |
| `FetchPool`, `TreeWalk`, `TreeWalkTheorems`, `TreeListing` | fetching file contents with a worker pool, and listing a repository directory by directory |
| `IssueWorkflow`, `WorkflowTheorems`, `WorkflowOperations`, `WorkflowLimits`, `WorkflowMethods` | sessions, tasks, jobs and applied contracts over the store, for all runs, and exactly when results are stored elsewhere or taken back |
| `Nucleus`, `NucleusTheorems`, `ToolSandbox` | which search results become evidence |
| `ContextFit`, `AgentLoop`, `AgentLoopTheorems`, `AgentTranscript` | what is sent to the model, the bounded agent loop, and the loop read from its log |
| `Text`, `Collections` | strings: prefixes, trimming, splitting; optional values, sequences without duplicates, filtering |

Where the code and its comments differ, the model follows the code: `begin` says a forced job's recent
predecessor is reused, but the code reuses a recent success only when the job is *not* forced
(backend/internal/httpapi/repository_index_jobs.go:87-103); `_select_file_nucleus` speaks of a ranked
file set, but the code takes the files in the order of the results, and
`NucleusTheorems.FewestExactlyWhenDescending` says exactly for which results the set is the smallest; `compress_text` with a limit
no larger than its marker returns more than the limit, because `value[-0:]` is the whole text, and
`ContextFit.CompressBound` says exactly when the limit is kept.

Assumptions the theorems state as hypotheses: the names in an excluded tree are not empty and hold no
'/', no '*' and no outer white space; the scores descend where the fewest files are claimed; a server
lists a directory the same way each time where the exact listing is claimed, and its kinds agree in
the listings the walk saw where an answer is claimed to be closed; commands succeed from some moment on
where the queue is claimed to settle; new ids were never used before, and an issue is not named like a
session id, where the workflow's run theorems are claimed; no answer of GitFlame is stored with an
outdated session where nothing is claimed to go back, which is exactly when nothing does.

## Model

| member | source | states |
|---|---|---|
| ExcludePaths.FlattenFiles | frontend/src/utils/excludePaths.js:100-108 | the loop returns the full paths of all files in tree order, for every tree and base |
| ExcludePaths.ComputeExcludedSet | frontend/src/utils/excludePaths.js:111-115 | the set holds exactly the files that some pattern matches; what each form of pattern matches is said by the rows of ExcludeTheorems |
| ExcludePaths.Walk | frontend/src/utils/excludePaths.js:144-161 | the nested walk, which updates two variables shared by all its calls, ends with the patterns and the covered set of the specification |
| ExcludePaths.SerialiseExcludes | frontend/src/utils/excludePaths.js:140-170 | tree patterns first, then each original pattern that matches no file of the tree and is not listed yet |
| ExcludePaths.ToggleFileExclude | frontend/src/utils/excludePaths.js:173-180 | the list after a click on a file is the serialisation of the flipped set; a protected path changes nothing |
| ExcludePaths.ToggleFolderExclude | frontend/src/utils/excludePaths.js:183-194 | the same for a folder, by its unprotected files; without any the list is returned as it was |
| ExcludeTheorems.FolderPatternMeans | frontend/src/utils/excludePaths.js:38-42 | for every path without outer white space, '*' or a trailing '/', path/**, path/* and path/ match exactly the path and what lies below it |
| ExcludeTheorems.ExactPatternMeans | frontend/src/utils/excludePaths.js:36-36 | and the path itself as a pattern matches exactly that file |
| ExcludeTheorems.SpelledPatternMeans | frontend/src/utils/excludePaths.js:36-54 | any pattern without a '*' and without a trailing '/' matches the one path it spells |
| ExcludeTheorems.StarPatternMeans | frontend/src/utils/excludePaths.js:44-53 | any other pattern with a '*' matches the path it spells, and what the expression accepts of the last name or of the whole path, a leading **/ left aside |
| ExcludeTheorems.OuterSpaceIgnored | frontend/src/utils/excludePaths.js:33-35 | white space around a pattern changes nothing, and a blank pattern matches nothing |
| ExcludeTheorems.FolderExcludes | frontend/src/utils/excludePaths.js:38-62 | a folder pattern in the list, in any of its forms and with white space around it, excludes every tree file at or below the folder |
| ExcludeTheorems.WalkEmits | frontend/src/utils/excludePaths.js:144-160 | the covered set never suppresses a file: the walk emits the maximal fully excluded nodes and nothing else |
| ExcludeTheorems.CustomMatchesNothing | frontend/src/utils/excludePaths.js:163-168 | every original pattern that matches no file of the tree is kept, nothing else is added to the tree patterns, and the exclusion of every tree file stays as it was |
| ExcludeTheorems.RoundTrip | frontend/src/utils/excludePaths.js:111-170 | for every tree, set and custom patterns: expanding the serialised list gives back exactly the unprotected files of the set |
| ExcludeTheorems.Minimal | frontend/src/utils/excludePaths.js:137-170 | the patterns the walk writes head the serialised list and expand to the excluded set, every later entry matches no tree file, and no list of folder and exact patterns with that expansion is shorter than they are |
| ExcludeTheorems.FileToggleFlips | frontend/src/utils/excludePaths.js:173-180 | toggling an unprotected file of the tree flips that file and leaves every other file as it was |
| ExcludeTheorems.FileToggleElsewhere | frontend/src/utils/excludePaths.js:173-180 | toggling a protected path or a path outside the tree leaves the unprotected exclusions alone |
| ExcludeTheorems.FileToggleTwice | frontend/src/utils/excludePaths.js:173-180 | toggling a file twice restores the unprotected excluded set |
| ExcludeTheorems.FolderToggleSets | frontend/src/utils/excludePaths.js:183-194 | a folder toggle excludes all its unprotected files, or includes them all when they all were excluded, and touches no other file |
| RepositoryTree.BuildRepositoryTree | frontend/src/utils/repositoryTree.js:1-22 | the tree is the sorted result of inserting the entries in order, with empty paths skipped |
| RepositoryTree.LevelsInOrder | frontend/src/utils/repositoryTree.js:1-34 | for every list of entries and every comparison sibling names are unique, and each level is sorted with directories first when the comparison is an order |
| RepositoryTree.SortKeeps | frontend/src/utils/repositoryTree.js:24-34 | sorting keeps the nodes of each level, their uniqueness, and puts them in order |
| RepositoryTree.PartsMean | frontend/src/utils/repositoryTree.js:5-8 | the parts of a path are the names between its slashes, wherever and however many they are |
| RepositoryTree.FilesDistinct | frontend/src/utils/excludePaths.js:100-108 | flattening a tree with unique sibling names lists no file twice |
| RepositoryTree.TreeRoundTrip | frontend/src/utils/repositoryTree.js:1-22 | when no path is both a file and a directory, flattening the built tree gives exactly the normalised file paths, each once |
| RepositoryTree.RoundTripExactly | frontend/src/utils/repositoryTree.js:10-19 | for every list of entries the round trip holds if and only if no file entry stands below an earlier file or where an earlier entry made a directory, said of the entries alone |
| RepositoryTree.DirectoriesExactly | frontend/src/utils/repositoryTree.js:10-19 | and when every file entry is in place, the tree has exactly the directories the entries made |
| RepositoryTree.FilesRoundTripExactly | frontend/src/utils/repositoryTree.js:1-22 | for every list of files it holds if and only if no path is both a file and a folder |
| RepositoryTree.ClashLosesOne | frontend/src/utils/repositoryTree.js:10-19 | for every list, order and comparison: of two listed files, one below the other, at most one is in the tree |
| RepositoryTree.OrderDecides | frontend/src/utils/repositoryTree.js:10-19 | with a directory entry of the same path the order decides whether the file is there |
| RepositoryTree.ClashMisplaces | frontend/src/utils/repositoryTree.js:10-18 | a file below a path that is itself a file is placed beside it under its bare name |
| PlanPaths.CleanTwice | backend/internal/service/plan_validation.go:95-97 | path.Clean by its four rules is idempotent |
| PlanPaths.CleanLeadsToSamePlace | backend/internal/service/plan_validation.go:95-97 | cleaning never changes the place a path leads to, from any starting place |
| PlanPaths.NormalizeTwice | backend/internal/service/plan_validation.go:95-97 | normalisation is idempotent |
| PlanPaths.NormalizeNotEmpty | backend/internal/service/plan_validation.go:95-97 | a normalised path is never empty |
| PlanPaths.SafeStaysInside | backend/internal/service/plan_validation.go:95-100 | a normalised path that passes the safety test is relative, has no empty, '.' or '..' element, and its first element is not .git |
| PlanPaths.SafeExactly | backend/internal/service/plan_validation.go:98-100 | a normalised path is refused if and only if it is the root itself, rooted, leads above the root or starts in .git |
| GeneratedFiles.NormalizeGeneratedFiles | backend/internal/service/workflow.go:539-568 | the loop over a slice and an index map gives one operation per normalised path, merged from all on that path |
| GeneratedFiles.FirstUseOrder | backend/internal/service/workflow.go:539-568 | the paths are distinct and stand in the order of their first occurrence |
| GeneratedFiles.FirstUseIsFirst | backend/internal/service/workflow.go:539-568 | the index that orders them is the first occurrence of the path |
| GeneratedFiles.MergedKeepsLast | backend/internal/service/workflow.go:549-566 | a merged operation carries the last non-blank action, content and diff of its group, the joined distinct explanations, and the rest of the last one |
| GeneratedFiles.LastWithIsLast | backend/internal/service/workflow.go:549-566 | the index used there is the last one with a non-blank value, and there is none only when all are blank |
| GeneratedFiles.GroupMeans | backend/internal/service/workflow.go:545-566 | the group merged for a path is the operations with that normalised path, in order |
| GeneratedFiles.CrlfBecomesLf | backend/internal/service/workflow.go:665-667 | each CRLF in a text becomes an LF |
| GeneratedFiles.NoCrlfStays | backend/internal/service/workflow.go:665-667 | and a text without one stays as it is |
| GeneratedFiles.NormalizedPath | backend/internal/service/workflow.go:539-568 | every merged operation stands under its own normalised path |
| GeneratedFiles.NormalizeFilesTwice | backend/internal/service/workflow.go:539-568 | normalising the list a second time changes nothing |
| FileContract.DropNoopGeneratedFiles | backend/internal/service/workflow.go:570-583 | exactly the modifications whose content equals the stored one, up to CRLF, are dropped; a missing file counts as empty |
| FileContract.DropUnsafePartialModifyFiles | backend/internal/service/workflow.go:600-616 | exactly the modifications of known files that look incomplete are dropped |
| FileContract.FiltersMean | backend/internal/service/workflow.go:570-616 | each filter keeps exactly the operations its rule keeps, in order, for every list |
| FileContract.StoredPaths | backend/internal/service/workflow.go:571-574 | a path is known exactly when some file of the repository has it as its normalised path |
| FileContract.ContentIsLast | backend/internal/service/workflow.go:571-574 | and its content is that of the last such file |
| FileContract.ValidateGeneratedFiles | backend/internal/service/workflow.go:684-736 | accepted if and only if there are 1 to 500 operations with distinct safe paths, each acceptable for its target |
| FileContract.ValidExactly | backend/internal/service/workflow.go:684-736 | the validator accepts exactly 1 to 500 operations on distinct paths, each of them safe, explained, creating an unknown path with content, modifying a known one with content, or deleting a known one with neither content nor diff |
| FileContract.AllOkMeans | backend/internal/service/workflow.go:690-733 | acceptability of a list means: every operation is acceptable and no two have the same path |
| FileContract.CheckOperation | backend/internal/service/workflow.go:698-733 | one round of the validator accepts exactly the acceptable operations on a path not seen before |
| FileContract.NoopsMeanNothing | backend/internal/service/workflow.go:570-583 | applying the filtered list leaves the same repository files as applying the whole list, up to CRLF against LF |
| FileContract.ValidatedNoopsMeanNothing | backend/internal/service/workflow.go:570-598 | and that holds for every list the validator accepts |
| FileContract.GenerateContract | backend/internal/service/workflow.go:244-278 | merging, the two filters, the validator and the stamping, with the three ways to fail, in this order |
| FileContract.ContractMeans | backend/internal/service/workflow.go:244-278 | a contract holds the merged operations that pass both filters, in order, with normalised paths and marked valid; otherwise the outcome names the stage that refused |
| FileContract.StampedValid | backend/internal/service/workflow.go:275-278 | stamping normalised paths and the status does not change the validator's verdict |
| FileContract.StatusKeepsContract | backend/internal/httpapi/server.go:380-424 | marking the operations with any status changes neither the validator's verdict nor what the filter before applying keeps |
| FileContract.ContractAppliesUnchanged | backend/internal/httpapi/server.go:381-397 | a contract that code generation accepts is not empty, is valid for the session's files, and loses nothing in the filter before it is applied |
| Resp.Writer.WriteCommand | backend/internal/queue/redis.go:204-214 | the writer appends the array of bulk strings of the command |
| Resp.Reader.ReadResp | backend/internal/queue/redis.go:216-280 | the recursive reader over a buffer does what the parsing function says: value, error or panic, and the bytes left |
| Resp.Reader.ReadLine | backend/internal/queue/redis.go:221-224 | a line ends at the first LF, which is consumed, and loses one CR before it |
| Resp.Reader.ReadItems | backend/internal/queue/redis.go:269-276 | the items of an array are read one after the other, and the first failure ends it |
| Resp.CommandRoundTrip | backend/internal/queue/redis.go:204-280 | every command, whatever bytes its arguments hold, followed by any suffix, is read back as the same list and leaves exactly the suffix |
| Resp.ReadEncoded | backend/internal/queue/redis.go:216-280 | every nested reply encoded as the protocol says is read as its meaning and leaves exactly the suffix |
| Resp.ReadAllEncoded | backend/internal/queue/redis.go:269-276 | the same for the items of an array |
| Resp.ReadExtends | backend/internal/queue/redis.go:216-280 | more input never changes a value that was read, it only lengthens what is left |
| Resp.TruncatedIsRefused | backend/internal/queue/redis.go:216-280 | no proper prefix of an encoded reply is taken for a complete one |
| Resp.WireFormat | backend/internal/queue/redis.go:204-280 | commands and encoded replies, byte by byte, as the protocol writes them |
| Resp.DecimalDigits | backend/internal/queue/redis.go:204-214 | sizes and numbers are decimal and printed without leading zeros |
| Resp.NumberExactly | backend/internal/queue/redis.go:234-243 | a number is an optional sign and digits within the 64-bit range |
| Resp.NoNumber | backend/internal/queue/redis.go:234-243 | and everything else is refused |
| Resp.MalformedReplies | backend/internal/queue/redis.go:216-280 | no input, an unknown prefix, or a line without an end are errors of their own |
| Resp.MalformedHeaders | backend/internal/queue/redis.go:221-276 | a header line with a bad number, nil sizes, negative sizes, sizes out of range and payloads cut short, each with its result |
| TaskQueue.ApplyKeeps | backend/internal/queue/redis.go:65-166 | each command keeps the queue sound whenever it takes effect, at once or long after its client gave up |
| TaskQueue.ActKeeps | backend/cmd/agent-worker/main.go:69-152 | every step of a worker or a publisher, every fault and every crash keeps the invariant |
| TaskQueue.RunGrows | backend/cmd/agent-worker/main.go:69-152 | from any sound state every run stays sound, and no accepted or settled entry is forgotten |
| TaskQueue.NoJobLost | backend/cmd/agent-worker/main.go:108-152 | in every reachable state each accepted job, or the entry its chain of retries has reached, is undelivered or pending with its job intact, or done, or dead-lettered with its job unless that could not be decoded |
| TaskQueue.QueueBounded | backend/internal/queue/redis.go:65-79 | with n clients the stream never holds more than maxLength + n - 1 entries, plus one for each XADD that arrived after its client gave up |
| TaskQueue.BoundReached | backend/internal/queue/redis.go:65-79 | the bound is exact: for every n and every number of late additions a run with no other fault reaches it |
| TaskRetries.CalmStep | backend/cmd/agent-worker/main.go:120-148 | with one worker that does not crash: entries are executed once, retried once, and a chain's attempts differ |
| TaskRetries.RetriesBounded | backend/cmd/agent-worker/main.go:120-148 | a job published at attempt a is executed at most max(1, maxRetries - a + 1) times, its retries included |
| TaskRetries.ExecutedIsOver | backend/cmd/agent-worker/main.go:112-148 | an executed entry the worker has let go of is never handed out again: it is done, or dead-lettered, or has a retry with a smaller maxRetries - attempt, which is never negative |
| TaskRetries.FinishedOrBuried | backend/cmd/agent-worker/main.go:112-148 | when every entry of a chain was executed and the worker is between two messages, none of them is handed out again, and the job succeeded or is dead-lettered |
| TaskWorker.RedisBroker.SendCommand | backend/internal/queue/redis.go:168-202 | a command sent is one step of the protocol, under every fault |
| TaskWorker.RedisBroker.Publish | backend/internal/queue/redis.go:65-79 | XLEN, the limit, XADD: the steps of a client that publishes; without a fault the entry is added if and only if the stream is below its limit |
| TaskWorker.RedisBroker.Read | backend/internal/queue/redis.go:89-119 | XAUTOCLAIM, then XREADGROUP when nothing was claimed; without a fault the message is the claimable pending entry, else the oldest that was never delivered |
| TaskWorker.RedisBroker.Ack | backend/internal/queue/redis.go:150-157 | XACK, then XDEL when it succeeded; without a fault the entry is neither pending nor in the stream |
| TaskWorker.RedisBroker.DeadLetter | backend/internal/queue/redis.go:159-166 | the entry added to the dead-letter stream with its job, or an error |
| TaskWorker.RedisBroker.Process | backend/cmd/agent-worker/main.go:108-152 | the decisions and broker calls for one message end where the protocol ends for that outcome and those faults; without a fault the queue afterwards is stated outright: done, retried with one attempt more, or dead-lettered |
| TaskWorker.ProcessEffect | backend/cmd/agent-worker/main.go:108-152 | what processing one message without a fault does to the queue, for every outcome: success, a retry below the limit with room in the stream, or a dead letter and no new entry |
| TaskAttempts.RetriesExactly | backend/cmd/agent-worker/main.go:128-152 | in calm runs a job published at attempt a whose executions all fail for now, and whose retries find room, is executed exactly max(1, maxRetries - a + 1) times before it is dead-lettered |
| TaskAttempts.BuriedWhenExhausted | backend/cmd/agent-worker/main.go:69-152 | served round by round such a job is executed once in each round, that many times, and then nothing but its dead letter is left |
| TaskWorker.RedisBroker.Serve | backend/cmd/agent-worker/main.go:69-95 | the read loop, stopped between two rounds, went through a run of the protocol from any valid queue, forgets nothing and leaves every accepted job accounted for |
| TaskWorker.RedisBroker.PublishNew | backend/internal/queue/redis.go:65-79 | a publish by a client with nothing else to do keeps the queue valid, and on success its job is accepted |
| TaskWorker.PublishThenServe | backend/cmd/agent-worker/main.go:69-95 | jobs are published and then served: every job whose publish succeeded is accounted for when the loop stops |
| TaskWorker.OneOfMany | backend/cmd/agent-worker/main.go:69-95 | whatever any number of clients did before, the loop may start on the queue they left |
| TaskProgress.RoundWorks | backend/cmd/agent-worker/main.go:69-152 | a round without faults takes away more of the executions left than its retry adds, until none is left, and leaves nothing new pending |
| TaskProgress.WorkRunsOut | backend/cmd/agent-worker/main.go:69-152 | from every sound state, once commands succeed and old pending entries get claimed, as many rounds as executions are left settle every accepted job: none undelivered or pending, each done or dead-lettered along its chain |
| TaskProgress.NothingToClaim | backend/cmd/agent-worker/main.go:69-95 | with nothing pending at the start no entry has to be claimed for that |
| TaskProgress.ServeUntilSettled | backend/cmd/agent-worker/main.go:69-95 | so the loop, served long enough without a fault, empties the queue |
| IndexJobs.IndexJobRegistry.Begin | backend/internal/httpapi/repository_index_jobs.go:91-117 | the caller owns a new job exactly when no running job and, unforced, no success younger than a minute is there; otherwise nothing changes |
| IndexJobs.IndexJobRegistry.Finish | backend/internal/httpapi/repository_index_jobs.go:122-151 | a running job becomes failed with the cause, or completed with the counts and a non-empty commit of the result, its times set and the rest kept, and is released; a job that does not run is left alone; other repositories never change |
| IndexJobs.IndexJobRegistry.Status | backend/internal/httpapi/repository_index_jobs.go:155-163 | the state of the repository's job, if there is one |
| IndexJobs.IndexJobRegistry.RunningCount | backend/internal/httpapi/repository_index_jobs.go:201-211 | the loop counts exactly the repositories with a running job |
| IndexJobProtocol.ActKeeps | backend/internal/httpapi/repository_index_jobs.go:91-198 | every step of every goroutine keeps the invariant of the registry |
| IndexJobProtocol.BeginMatches | backend/internal/httpapi/repository_index_jobs.go:91-117 | begin as a step of the protocol changes the registry as the method does |
| IndexJobProtocol.FinishMatches | backend/internal/httpapi/repository_index_jobs.go:122-149 | and so does finish, with the outcome stated field by field |
| IndexJobProtocol.SingleFlight | backend/internal/httpapi/repository_indexing.go:91-105 | in every interleaving a repository has at most one running job, and it has exactly one owner, the goroutine that began it |
| IndexJobProtocol.FinishLandsOnOwnJob | backend/internal/httpapi/repository_index_jobs.go:119-151 | an owner's finish, though it looks the job up by repository, always lands on its own job, with the outcome stated field by field |
| IndexJobProtocol.ReleasedOnce | backend/internal/httpapi/repository_index_jobs.go:148-151 | a job's waiters are released at most once and only after it left running; a job that is over was released or one goroutine is about to |
| IndexJobProtocol.WaitMeansOver | backend/internal/httpapi/repository_index_jobs.go:169-198 | a wait that joined a job returns without an error only after that job is over; it answers the job's own final state or the state of a newer job of the repository, a running state only of a newer one |
| IndexJobProtocol.OverByOwner | backend/internal/httpapi/repository_index_jobs.go:122-151 | in every run the state of a job that is over is the outcome of exactly one finish, by the goroutine that began it |
| IndexJobProtocol.WaitAnswersOutcome | backend/internal/httpapi/repository_index_jobs.go:169-198 | an answer read from the joined job is that outcome: completed if and only if its owner finished it without a cause |
| IndexJobProtocol.WakeAnswers | backend/internal/httpapi/repository_index_jobs.go:187-192 | waking reads the repository's current entry, which is the joined job in its final state exactly when no newer job was begun |
| IndexJobProtocol.WaitMayAnswerNewer | backend/internal/httpapi/repository_index_jobs.go:189-192 | a schedule in which the answer is the state of a newer job that still runs |
| FetchPool.EnqueueBlank | backend/internal/httpapi/gitflame_client.go:643-649 | the queue holds exactly the indexes of the files without content, in order |
| FetchPool.QueueExactly | backend/internal/httpapi/gitflame_client.go:643-649 | that list is the filter of all indexes by blank content |
| FetchPool.FilesKept | backend/internal/httpapi/gitflame_client.go:630-680 | for every schedule: length, order, paths and kinds never change, and a file that had content keeps it |
| FetchPool.TakenOnce | backend/internal/httpapi/gitflame_client.go:651-661 | each index is taken by at most one of at most eight workers |
| FetchPool.NilMeansFetched | backend/internal/httpapi/gitflame_client.go:663-680 | a nil result means every blank file holds what the server answered to a request for its own path |
| FetchPool.ErrorWasReported | backend/internal/httpapi/gitflame_client.go:664-680 | an error returned was reported by some request or is the caller's cancellation |
| FetchPool.FirstErrorWins | backend/internal/httpapi/gitflame_client.go:651-680 | in every schedule the error recorded first is the one returned, and the others were cancelled before all workers are gone |
| TreeWalk.RepositoryTree | backend/internal/httpapi/gitflame_client.go:732-787 | the queue, the visited set and the seen set of the loop compute the walk of the specification, for every server |
| TreeWalkTheorems.EachDirectoryOnce | backend/internal/httpapi/gitflame_client.go:732-787 | whatever the server answers: at most 10001 requests, no directory twice, no path listed twice, at most 10000 entries |
| TreeWalkTheorems.ListsExactlyTheReachable | backend/internal/httpapi/gitflame_client.go:732-787 | for a server that lists a directory the same way each time: when some set of at most 10000 entries is closed under listing, the walk answers the least one, each path with its kind |
| TreeWalkTheorems.ListingCovers | backend/internal/httpapi/gitflame_client.go:732-787 | conversely, for such a server, an answer is closed under listing when the kinds agree in the listings the walk has seen |
| TreeWalkTheorems.SucceedsExactlyWhen | backend/internal/httpapi/gitflame_client.go:732-787 | so for such a server the walk succeeds, with kinds that agree in what it saw, if and only if some set of at most 10000 entries is closed under listing |
| TreeWalkTheorems.WalkComplete | backend/internal/httpapi/gitflame_client.go:753-783 | every item of every requested directory is listed, and every listed directory is requested or queued |
| TreeListing.ListingInOrder | backend/internal/httpapi/gitflame_client.go:732-787 | for every server: directories are requested breadth first in the order they are listed, a tree is what the listings offered without paths that came before, and a walk fails at its last request or because more than 10000 entries were offered |
| TreeListing.DirectoryExactly | backend/internal/httpapi/gitflame_client.go:767-777 | an item is a directory exactly when its trimmed kind is one of four words in any case |
| TreeListing.PathOfItem | backend/internal/httpapi/gitflame_client.go:756-756 | the path of an item is its path, else its name, else its title, without outer white space and then without outer slashes |
| TreeListing.NamelessItem | backend/internal/httpapi/gitflame_client.go:756-759 | an item with none of the three is skipped |
| TreeListing.LocatedWhole | backend/internal/httpapi/gitflame_client.go:760-762 | a path with a slash, or in the root, is taken as it is |
| TreeListing.LocatedBelow | backend/internal/httpapi/gitflame_client.go:760-762 | a bare name is placed in the directory that listed it |
| Nucleus.CollectScores | recommendations/src/agent_engine/tools.py:206-208 | the map holds each file's best chunk score, at least zero, in the order of first appearance |
| Nucleus.PositiveMass | recommendations/src/agent_engine/tools.py:210-210 | the sum of the positive scores |
| Nucleus.SelectPaths | recommendations/src/agent_engine/tools.py:214-223 | the loop keeps the shortest prefix of the positive files whose mass reaches the target |
| Nucleus.SelectFileNucleus | recommendations/src/agent_engine/tools.py:195-224 | the chunks of the chosen files in their order, or the error for a top_p outside (0, 1] |
| Nucleus.ScoreIsBest | recommendations/src/agent_engine/tools.py:206-208 | the score of a file is the best of its chunks, zero when none is positive |
| Nucleus.OrderOfFirst | recommendations/src/agent_engine/tools.py:206-208 | files stand in the order of their first chunk |
| Nucleus.RankingKeeps | recommendations/src/agent_engine/tools.py:215-219 | the files considered are those with a positive score, in order |
| Nucleus.ChunksKeep | recommendations/src/agent_engine/tools.py:224-224 | the answer is the chunks of the chosen files, in order |
| Nucleus.ChosenIsHead | recommendations/src/agent_engine/tools.py:213-224 | for every list of results the chosen files are the shortest head of those whose mass reaches the target |
| NucleusTheorems.NucleusCovers | recommendations/src/agent_engine/tools.py:213-224 | the files kept carry at least top_p of the total mass |
| NucleusTheorems.NucleusIsFewest | recommendations/src/agent_engine/tools.py:195-224 | when the best scores descend in the order of first appearance, as on ranked results, no set of fewer files carries that much |
| NucleusTheorems.FewestExactlyWhenDescending | recommendations/src/agent_engine/tools.py:195-224 | the files kept are the fewest for every share of the mass if and only if the best scores descend in that order |
| NucleusTheorems.RankingDescends | recommendations/src/agent_engine/tools.py:206-219 | on results ranked by non-increasing score they do |
| NucleusTheorems.NucleusMonotone | recommendations/src/agent_engine/tools.py:213-223 | asking for more mass never drops a file |
| NucleusTheorems.TotalIsAll | recommendations/src/agent_engine/tools.py:206-210 | the total is the mass of all files met |
| NucleusTheorems.UnrankedIsNotFewest | recommendations/src/agent_engine/tools.py:196-200 | without the ranking more files than needed may be kept |
| ToolSandbox.ToolSandbox.BoundResults | recommendations/src/agent_engine/tools.py:164-175 | the loop with its count per file keeps the results the specification admits |
| ToolSandbox.DecidedInTurn | recommendations/src/agent_engine/tools.py:164-175 | each result is kept or not by its own file and those kept before it, and a dropped one does not end the loop |
| ToolSandbox.ToolSandbox.PrefetchRepository | recommendations/src/agent_engine/tools.py:141-180 | the results, or the first error that applies, said of the arguments; the evidence grows by the paths returned and by nothing on an error |
| ToolSandbox.BoundsHold | recommendations/src/agent_engine/tools.py:164-175 | kept results are allowed, of few enough files, with few enough snippets of each |
| ToolSandbox.NothingDroppedWithinBounds | recommendations/src/agent_engine/tools.py:164-175 | and results already within the bounds are kept whole |
| ToolSandbox.RetrievedIsNucleus | recommendations/src/agent_engine/tools.py:155-180 | the evidence of a ranked search carries the mass asked for and no fewer files would |
| ContextFit.CompressBound | recommendations/src/agent_engine/context.py:13-20 | the limit is kept if and only if the text fits or the limit exceeds the marker; a cut text then has exactly the limit's length |
| ContextFit.CompressKeepsEnds | recommendations/src/agent_engine/context.py:13-20 | a cut text is a beginning, the marker and an end of the text for every limit; above the marker's length they fill the limit, two to one up to rounding, without overlap, and below it the end is the whole text |
| ContextFit.ContextCompressor.FitMessages | recommendations/src/agent_engine/context.py:26-40 | the reversed loop over the budget gives the fitted list of the specification |
| ContextFit.KeepFromIsLeast | recommendations/src/agent_engine/context.py:33-37 | the newest messages kept verbatim are the longest suffix that fits |
| ContextFit.FittedSizes | recommendations/src/agent_engine/context.py:31-40 | roles and calls stay, each message keeps its limit, and one of at most 512 characters is never altered |
| ContextFit.FittedExactly | recommendations/src/agent_engine/context.py:26-40 | each message, said of the total of the newer ones: whole, cut to what is left but at least 512 characters, or cut to 512 |
| ContextFit.NewestKept | recommendations/src/agent_engine/context.py:31-40 | every suffix that fits is sent verbatim |
| ContextFit.FittedTotal | recommendations/src/agent_engine/context.py:26-40 | the total sent is at most max_context_chars plus 512 for each message not kept verbatim |
| AgentLoop.AgentLoop.Run | recommendations/src/agent_engine/loop.py:76-222 | the loop with its counters, flags and lists plays the run of the specification, for every model, tool and validator |
| AgentLoop.AgentLoop.ExecuteCalls | recommendations/src/agent_engine/loop.py:168-193 | the calls of a reply are executed in order, each adding its message with the text it brought, and its evidence |
| AgentLoop.FirstDuplicateToolCall | recommendations/src/agent_engine/loop.py:225-234 | the first call seen before, with the keys of the calls before it added |
| AgentLoopTheorems.ToolBudget | recommendations/src/agent_engine/loop.py:95-193 | at most max_tool_calls executed calls with pairwise distinct keys; tools are offered in a first stretch of steps outside the reserved ones, and every offer but perhaps the last was executed in full |
| AgentLoopTheorems.ReservedSteps | recommendations/src/agent_engine/loop.py:90-100 | the first step always offers tools, and the reserved steps are there when there are steps to spare |
| AgentLoopTheorems.OutcomeExplained | recommendations/src/agent_engine/loop.py:76-222 | at most max_steps completions; usage is their sum; evidence is what sources and executed calls brought; a returned plan has no validation error against that evidence |
| AgentLoopTheorems.ConversationWellFormed | recommendations/src/agent_engine/loop.py:101-216 | in every request each assistant message with tool calls is followed by one tool message per call in order, and a request without tools carries the notice uncut |
| AgentLoopTheorems.ToolOutputsShown | recommendations/src/agent_engine/loop.py:168-193 | over whole runs: as many tool messages as executed calls, in order, the k-th with the id, the name and the text of the k-th executed call |
| AgentTranscript.LogExplains | recommendations/src/agent_engine/loop.py:76-222 | every run is what its log of turns says: each request is the fitted conversation of that moment, tools are offered exactly by the rules, the conversation holds replies, tool outputs, feedback and notices in order, and the run stops at the first turn that ends it with that turn's outcome |
| AgentLoopTheorems.FreshJoin | recommendations/src/agent_engine/loop.py:225-234 | calls that were never seen keep the executed keys distinct |
| WorkflowMethods.MemoryStore.CreateSession | backend/internal/repository/memory.go:152-165 | an issue known in its repository gives its session back, a new one is stored and indexed |
| WorkflowMethods.MemoryStore.GetSession | backend/internal/repository/memory.go:166-178 | an id is looked up as an issue first |
| WorkflowMethods.MemoryStore.UpdateSession | backend/internal/repository/memory.go:179-188 | the session is stored under its id and indexed by its issue again |
| WorkflowMethods.MemoryStore.LatestTaskExists | backend/internal/repository/memory.go:206-219 | whether the session has a task |
| WorkflowMethods.Workflow.Analyze | backend/internal/service/workflow.go:33-63 | a new session gets a first task and job; a known one only when it has no task and waits for one |
| WorkflowMethods.Workflow.Correct | backend/internal/service/workflow.go:65-91 | only a generated plan can be corrected; the feedback is appended and a revision task dispatched |
| WorkflowMethods.Workflow.Retry | backend/internal/service/workflow.go:93-135 | only failed tasks with a temporary error are retried, as a new task of the same kind |
| WorkflowMethods.Workflow.Dispatch | backend/internal/service/workflow.go:137-150 | a job that cannot be published fails its task and session |
| WorkflowMethods.Workflow.Start | backend/internal/service/workflow.go:155-194 | the segment of ExecuteTask before the generator |
| WorkflowMethods.Workflow.EndPlan | backend/internal/service/workflow.go:196-232 | the segment after it for a plan: stored with a new revision only when it passes the rules |
| WorkflowMethods.Workflow.EndFiles | backend/internal/service/workflow.go:234-298 | and for generated files: stored only when the contract is accepted |
| WorkflowMethods.Workflow.Requeue | backend/internal/service/workflow.go:300-316 | RetryTask puts the task and its session back to queued |
| WorkflowMethods.Workflow.FailTask | backend/internal/service/workflow.go:318-334 | the task and its session become failed |
| WorkflowMethods.Workflow.Approve | backend/internal/service/workflow.go:339-382 | an edited plan must pass the rules and counts as a revision; the contract starts empty |
| WorkflowMethods.Workflow.Reject | backend/internal/service/workflow.go:384-398 | a plan that was not approved becomes rejected |
| WorkflowOperations.ApproveDoes | backend/internal/service/workflow.go:339-382 | over all runs: an approval succeeds exactly when there is a generated plan and the edit is absent, unchanged or valid; the approved plan is stored, is a revision exactly when it changed, and goes to code generation with the session's files; otherwise nothing changes |
| WorkflowOperations.RejectDoes | backend/internal/service/workflow.go:384-398 | over all runs: exactly the sessions not yet approved become rejected |
| WorkflowOperations.AnalyzeNew | backend/internal/service/workflow.go:33-63 | over all runs: a new issue gets a session with its request, a first task and a job with its files |
| WorkflowOperations.AnalyzeKnown | backend/internal/service/workflow.go:46-63 | over all runs: a known one changes nothing when it has a task, and gets a first task only while it waits for one |
| WorkflowOperations.CorrectDoes | backend/internal/service/workflow.go:65-91 | over all runs: feedback that is not blank is appended to a generated plan's session, and a revision is dispatched with that plan and that feedback |
| WorkflowOperations.RetryDoes | backend/internal/service/workflow.go:93-135 | over all runs: exactly tasks that failed for now are retried, as a new task of the kind with one attempt more, with the plan and the latest feedback where the kind needs them |
| WorkflowOperations.StartDoes | backend/internal/service/workflow.go:173-190 | over all runs: the task and the session of a job become processing, and the error of the task is cleared |
| WorkflowOperations.EndPlanDoes | backend/internal/service/workflow.go:196-232 | over all runs: the plan is stored in task and session, or the task fails with the engine's error or as invalid output |
| WorkflowOperations.EndFilesDoes | backend/internal/service/workflow.go:234-298 | over all runs: the contract is stored, or the task fails with the engine's error or for invalid files |
| WorkflowOperations.RequeueDoes | backend/internal/service/workflow.go:300-316 | over all runs: task and session of a job are queued again with its attempt |
| WorkflowOperations.FailDoes | backend/internal/service/workflow.go:318-334 | over all runs: the failure is recorded in the task and fails its session, and nothing else changes |
| WorkflowOperations.ApprovalUnpublished | backend/internal/service/workflow.go:137-150 | an approval whose job cannot be published fails the task it created and its session |
| WorkflowOperations.CorrectionUnpublished | backend/internal/service/workflow.go:137-150 | and so does a correction |
| WorkflowOperations.RetryUnpublished | backend/internal/service/workflow.go:137-150 | and so does a retry |
| WorkflowOperations.AnalysisUnpublished | backend/internal/service/workflow.go:137-150 | and so does a first analysis |
| WorkflowOperations.ApplyStartDoes | backend/internal/httpapi/server.go:367-407 | over all runs: the answer before GitFlame is called, check by check; a request carries the stored session and all its files |
| WorkflowOperations.ApplyEndDoes | backend/internal/httpapi/server.go:407-425 | over all runs: the session as it was read is stored with the outcome, its operations marked when they were applied |
| WorkflowOperations.NobodyNamed | backend/internal/repository/memory.go:166-178 | a name that stands for no session changes nothing |
| WorkflowOperations.AllowedExactly | backend/internal/service/workflow.go:202-206 | a plan may cite exactly the normalised paths of the files and of those the generator reported |
| WorkflowTheorems.ActKeeps | backend/internal/service/workflow.go:33-398 | every operation and every segment keeps the invariant, and nothing goes back unless GitFlame's answer is stored with an outdated session |
| WorkflowTheorems.CodeNeedsApprovedPlan | backend/internal/service/workflow.go:339-382 | over all runs: a code generation task exists only for a session whose plan is not blank, passed the rules and has revision at least 1, and its job carries such a plan |
| WorkflowTheorems.StoredContractsValid | backend/internal/service/workflow.go:234-298 | over all runs: a stored contract that is not empty passes the validator against its session's files, and the filter before it is applied drops none of it |
| WorkflowTheorems.NothingGoesBack | backend/internal/service/workflow.go:65-398 | over all runs: sessions and tasks stay, requests do not change, revisions never decrease and feedback histories only grow at their end, as long as no answer of GitFlame is stored with an outdated session |
| WorkflowTheorems.NothingGoesBackExactly | backend/internal/httpapi/server.go:367-429 | for every run: no step takes anything back if and only if no answer of GitFlame is stored with a session whose revision or feedback changed since it was read |
| WorkflowTheorems.AppliedContractsValid | backend/internal/httpapi/server.go:367-408 | over all runs: what is sent to GitFlame is the whole stored contract, passes the validator and belongs to a plan that passed; the answer that there are no effective changes is never given |
| WorkflowTheorems.ApplyEndKeeps | backend/internal/httpapi/server.go:407-425 | storing the answer keeps the invariant however old the session is, and takes nothing back if and only if the stored session is not ahead of it |
| WorkflowMethods.Workflow.ApplyStart | backend/internal/httpapi/server.go:367-407 | the handler before GitFlame: no files, already applied, nothing effective, no client, or a request with the filtered operations |
| WorkflowMethods.Workflow.ApplyEnd | backend/internal/httpapi/server.go:407-425 | and after it: the session that was read is stored with the outcome, each operation marked when it was applied |
| WorkflowMethods.Workflow.MarkFiles | backend/internal/httpapi/server.go:422-424 | the loop sets the status of every operation and nothing else |
| WorkflowLimits.AnswerTakesPlanBack | backend/internal/httpapi/server.go:407-425 | from every sound state: a plan stored while GitFlame applies the contract is taken back by the answer, revision included |
| WorkflowLimits.LateAnswerTakesPlanBack | backend/internal/httpapi/server.go:367-425 | a concrete run of one issue in which that happens, for any two plans that pass and any accepted contract |
| WorkflowLimits.PlanLandsInItsSession | backend/internal/service/workflow.go:196-232 | over all runs: an execution answers with success if and only if the plan passes, and then the plan is stored in the session of its task and no other session changes |
| WorkflowLimits.FilesLandInTheirSession | backend/internal/service/workflow.go:234-298 | over all runs the same for an accepted contract |
| WorkflowLimits.PlanLandsExactly | backend/internal/repository/memory.go:166-178 | on any consistent store an accepted plan changes exactly the session the lookup finds, which is the session of its task if and only if its id is not indexed for another session |
| WorkflowLimits.NewSessionLookup | backend/internal/repository/memory.go:152-178 | storing a new session keeps every session findable by its own id if and only if its issue is not named like a stored session and its id is no other issue's |
| WorkflowLimits.PlanLandsElsewhere | backend/internal/repository/memory.go:166-178 | and without that a concrete run stores the plan of one session in another |

## Left out

- HTTP handlers, cookies, sign-in, webhooks, the OpenAPI surface, deployment files, dashboards, metrics, logging and configuration parsing: plumbing.
- PostgreSQL and its migrations: the workflow is modelled over the in-memory store, whose calls do not fail.
- The commit, the pull request and the connection record of an applied contract: the request to GitFlame succeeds or fails; the handler itself is modelled by `ApplyStart` and `ApplyEnd`.
- The network clients and the language model: they are parameters that may answer anything or fail. Real time is a parameter too: timeouts, the age of a pending entry and the time-to-live of a job arrive as arbitrary values.
- Interleaving inside an operation of the workflow: each operation, each half of an execution around the generator call, and each half of a request to apply a contract around the call of GitFlame, is one atomic step; updates lost between a separate read and write of the store inside such a step are not modelled. An execution may end any number of times in the model, which only adds runs.
- TaskQueue.NoJobLost: assumes Redis keeps what it acknowledged, and speaks of entries added by Publish; an entry written by something else may lack a payload and is then only covered as undecodable.
- TaskWorker.RedisBroker.Serve: runs one worker between whose commands nobody else acts, and stops only between whole rounds; interleaved runs and crashes inside a round are covered by the state machine, not by the loop.
- TaskProgress.WorkRunsOut: speaks of one worker and of commands that all succeed from the start of the rounds on; commands left behind before that do not arrive during them.
- TaskRetries.RetriesBounded: needs one worker, no crash of it, and acknowledgements and dead letters that succeed; with redelivery to a second worker the same entry may be executed again.
- The classification of an engine error as temporary (backend/cmd/agent-worker/main.go:154-163): how an execution ends is a free choice in the queue model; the workflow's own test for a recoverable error is modelled by `Recoverable`.
- Connecting, AUTH and SELECT before each command, and reconnecting: a command either takes effect, is lost, or arrives late.
- Resp.Reader.ReadResp: memory for huge announced lengths is not modelled, only the panic for a negative one; errors of the underlying connection appear as the end of the input.
- The regular expression for `*` patterns is the parameter `glob`; no theorem depends on it.
- String.prototype.localeCompare is the parameter `compare`; the order of a level is proved for every comparison that is total and transitive.
- RepositoryTree.BuildRepositoryTree: nodes are values, so the moving reference into nested arrays and the in-place sort are modelled by inserting into and sorting values; aliasing is not captured.
- isFolderPartiallyExcluded and excludePathOptionsFromTree: simpler relatives of the modelled functions.
- DropNoopGeneratedFilesForApply has the same body as DropNoopGeneratedFiles and is modelled once.
- The size thresholds that recognise an incomplete rewrite are the parameter `partial`; the Go and Python versions round differently and no agreement is claimed.
- The headings, bullets and path rules inside ValidatePlan are the parameter `rules`; the workflow model keeps the test for a blank plan and the set of paths a plan may cite.
- ValidateAnalyze and ParseAIConfig: a request that fails them never reaches the store, so the model starts with an accepted one.
- Branch names, commit messages, summaries, usage numbers and timestamps of a contract or a task: they take no part in the properties.
- The memory model of Go beyond mutexes, channels and contexts as the source uses them; in the fetch pool a worker may also overlook a cancellation, which only adds runs.
- The handlers read_file, list_dir and grep of the sandbox: any output of a tool is allowed.
- The total timeout of an agent run: it ends a run between two steps and returns nothing.
- Floating point: scores and masses are real numbers.
