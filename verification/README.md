# Verified models of the agent service's coordination and text algorithms

This project models the parts of the repository whose correctness does not depend on the I/O around them, and
proves what they are for. `dafny verify dfyconfig.toml` checks all of it.

How the protocols are modelled. Redis is a record of maps, sequences and sets with integer or real expiry times, and a
`Tick` event advances the clock and drops what has expired. Each Redis command, pipeline or Lua script is one event of a
total function `Apply` (an event that cannot happen changes nothing), `Run` folds a list of events, and the theorems are
about `Run` for every list: every interleaving, with crashes and lapses anywhere. Beside each protocol a class holds the
same state in mutable fields and has the methods of the source, line by line; a method logs the events it causes, and
its contract says that the fields are where the log leads. What other actors do at an `await` is a parameter.

What is in which file:

- `InMemoryLimiter.dfy`, `RedisLimiter.dfy`: the two sliding-window rate limiters, with a history of all grants;
  `RedisLimiterExact.dfy`: the runs that reach the bounds, and exactly when the bounds hold.
- `JobQueue.dfy`: the job queue with crash reclaim; each method is one step, and a worker may also die inside a pull.
- `WorktreeLock.dfy`: the worktree lease lock, at the granularity of commands.
- `ResumeProtocol.dfy`: concurrent resumes of one session under the nonce lock, workers, and the recovery sweep.
- `StreamSession.dfy`: the consumer of an SDK session's message stream.
- `PromptBudget.dfy`: the budgeted assembly of the system prompt, and the truncation of a text.
- `TranscriptReader.dfy`, `TurnBuilder.dfy`: the resumable JSONL reader, and the grouping of rows into turns.
- `FileTree.dfy`: the bounded directory listing.
- `SessionToken.dfy`, `RedisKeys.dfy`: the session token and the Redis keys.
- `RetryQueue.dfy`: the retry loop with its dead-letter list.
- `Basics.dfy`, `Text.dfy`: counting, options, lines, strip and join.

Where the code does less than its documentation or a first reading suggests, the model follows the code and the exact
boundary is a theorem:

- The Redis limiter reads its clock in a command of its own, so `max + n - 1` grants per window is not the bound for
  `n` workers: `max + 2n - 2` is, and it is reached for every window length and every positive slack. Here the slack
  is how long a worker may take from its clock reading to its EXPIRE, and the bound holds in all runs if and only if
  the slack is at most `floor(window) + 60 - window`, the time by which the key outlives a window. Under the same
  condition `max + n - 1` bounds runs whose prunes are in clock order, and all runs if and only if there is one worker.
  Slower workers are possible (a Redis call may block for 60 seconds and be retried), and the run that breaks the
  limit is given. A live entry is dropped by the expiring key in some run if and only if the slack exceeds that time,
  the maximum is at least two, and the workers are enough to bridge the key's TTL with windows.
- The worktree lock excludes if and only if no two holders carry the same job id. A reclaimed job runs again under its
  own id, so its old and its new run do not exclude each other. Updating a field does not check the owner.
- Reclaim loses no job if and only if scans are at most one job TTL apart, but for a job whose worker dies inside the
  pull, between BLPOP and the backup: that one never waits again.
- A job's status tells where the job is, unless a run that outlived its data completes it after it was requeued: then
  the job waits while its status says that it succeeded.
- The session signature is documented as always included; when the budget is exceeded it is kept whole if and only if
  it fits together with the prompt. A prompt is dropped if and only if its first line alone is over budget, and then
  the signature goes with it while lower tiers stay.
- `build_turns` keeps rows without an id apart if and only if no message id equals the synthetic id of such a row.
- A session token decodes to its key if and only if no part holds a high surrogate right before a low one; a JSON
  string of four characters is also accepted as a token payload.
- Two repositories share a sanitized key exactly when an owner's name contains a double dash or ends in a dash.
- Recording a job id within the stale limit of set_running does not keep the recovery sweep off a live resume: when an
  earlier resume records after a later one has marked, the key names the wrong job, and the run that requeues a pending
  job is given. Theorems over every run say exactly when a decision requeues: within the stale limit, if and only if
  the list is older than the resume and nothing looks alive; while a recorded job is live, if and only if the session
  is listed and unlocked and the key was written since for a job that is not live. So the job of an earlier resume is
  requeued over once a later one's is finished, even with all in order; that run is given too. A sweep that lists afresh never
  requeues within the stale limit, whatever lapses.
- Calls of `handle_resume` that take less than `d` seconds from the lock to set_running create at most one job for each
  time the session left "running" if and only if `d` is at most the 30 seconds of the lease, or there is only one
  caller (`OneResumePerLeaveIff`); for any larger `d` the run that resumes twice is given.

## Model

| member | source | states |
|---|---|---|
| InMemoryLimiter.SpacingBoundsEveryWindow | shared/rate_limiter.py:46-65 | no window of the configured length, wherever it starts, holds more grants than allowed |
| InMemoryLimiter.DequeIsTheWindow | shared/rate_limiter.py:55-61 | after pruning, the deque counts exactly the grants of the window that ends now |
| InMemoryLimiter.OldestHasLeft | shared/rate_limiter.py:73-82 | once the computed wait is over the window has room again |
| InMemoryLimiter.InMemoryRateLimiterBackend.TakeTurn | shared/rate_limiter.py:53-79 | one turn under the lock grants if and only if the window ending now holds fewer than the maximum; times out, waits or fails exactly otherwise; and no window anywhere exceeds the limit |
| InMemoryLimiter.InMemoryRateLimiterBackend.Acquire | shared/rate_limiter.py:46-82 | over any interleaving, from waiting for the lock on: no window exceeds the limit, success is one more grant at the current time, it times out exactly at the first refusal that comes the timeout after the call, and a waiter that nobody overtakes is granted on its first wake-up, which without delays is when the request a maximum back leaves the window |
| RedisLimiter.ExpireDropsOnlyDeadEntries | shared/rate_limiter.py:139-142 | an entry that an expiring key takes along has been outside all windows for as long as the slack |
| RedisLimiter.SpareIsAMinute | shared/rate_limiter.py:139-142 | the key outlives a window by floor(window) + 60 - window, more than 59 seconds and at most 60, for every window length |
| RedisLimiter.EveryWindowIsBounded | shared/rate_limiter.py:116-142 | n workers in any interleaving whose slack is within the key's spare time: at most max + 2n - 2 grants in any window |
| RedisLimiter.OrderedWindowIsBounded | shared/rate_limiter.py:116-142 | at most max + n - 1 when in addition prunes happen in the order of their clock readings |
| RedisLimiterExact.BoundIsReached | shared/rate_limiter.py:116-142 | for every n, max, window, start and positive slack a run has a window with exactly max + 2n - 2 grants |
| RedisLimiterExact.ExpiryOvertakes | shared/rate_limiter.py:136-142 | for every slack beyond the spare time a run, with its prunes in clock order, has a window with max + 2n - 1 grants |
| RedisLimiterExact.BoundHoldsIffSlackIsSpare | shared/rate_limiter.py:116-142 | max + 2n - 2 bounds every window of every run of a given slack if and only if the slack is at most floor(window) + 60 - window |
| RedisLimiterExact.OrderedBoundHoldsIffSlackIsSpare | shared/rate_limiter.py:116-142 | the same for max + n - 1 and runs in clock order |
| RedisLimiterExact.SmallerBoundHoldsIffAlone | shared/rate_limiter.py:116-142 | max + n - 1 bounds every window of every run if and only if n is 1 and the slack is within the spare time |
| RedisLimiterExact.StalledWorkersLoseEntries | shared/rate_limiter.py:136-142 | a run in which the key expires while it holds an entry that is still live |
| RedisLimiterExact.ShortChainsKeepLive | shared/rate_limiter.py:116-142 | with few enough workers for the window, or a maximum of one, no run at all drops a live entry, however slow the workers |
| RedisLimiterExact.LiveEntriesAreKeptIff | shared/rate_limiter.py:116-142 | no run of a given slack drops a live entry if and only if the slack is within the spare time, or (n + 1) windows fit into the TTL, or the maximum is at most one |
| RedisLimiter.RunInv | shared/rate_limiter.py:116-142 | what every command keeps: the expiry outlives every stored score, and each window is intact, sealed or closed |
| RedisLimiter.RedisRateLimiterBackend.Acquire | shared/rate_limiter.py:102-160 | the worker's own grants grow by one on success and not otherwise, whatever the others do at each await; every round but a granted last one is a refusal at a place in the log, at least a tenth of a second apart; it times out exactly at the first refusal that comes the timeout after the call, and sleeps on after every other |
| RedisLimiter.RedisRateLimiterBackend.Attempt | shared/rate_limiter.py:117-142 | one round is stamp, prune and count, then for an admitted worker the add, and for a new member the EXPIRE, in this order; granted exactly for an admitted worker with a new member |
| RedisLimiter.RedisRateLimiterBackend.Pause | shared/rate_limiter.py:150-160 | a refused worker sleeps until the oldest stored request leaves the window of its reading, and at least a tenth of a second |
| JobQueue.EveryRunKeepsQueue | shared/job_queue.py:124-434 | in every run the queue is first-in first-out, no id waits twice or while it is processed, every created id is somewhere, and data and backup of an id pushed once are the job as created, of one pushed again the job without its token |
| JobQueue.NoJobIsLost | shared/job_queue.py:368-434 | over any number of crashes, scans at most one TTL apart leave every created job pending, processing with a live backup of it, dead-lettered or completed, but for those whose worker died inside the pull |
| JobQueue.DeathInPullLoses | shared/job_queue.py:188-236 | a job whose worker dies between BLPOP and the backup is never again pending nor restorable, whatever follows |
| JobQueue.LosingRunLoses | shared/job_queue.py:425-430 | for any longer gap, a run in which a job is dropped for want of a backup |
| JobQueue.CadenceIsExact | shared/job_queue.py:230-236 | one TTL is exactly the largest gap between scans that drops no job but those whose worker died inside the pull |
| JobQueue.PullDelivers | shared/job_queue.py:188-247 | what a pull hands out is the job as it was created, with its token if the id was pushed once and without it after a reclaim |
| JobQueue.JobQueue.CreateJob | shared/job_queue.py:124-166 | a fresh id with its data as given and the status "pending" under the TTL, at the end of the list |
| JobQueue.JobQueue.GetNextJob | shared/job_queue.py:173-247 | hands out the longest waiting job exactly if its data is live: as submitted at the first pull, without its token after a reclaim; moves it to processing with a backup for two TTLs; dead-letters it otherwise |
| JobQueue.JobQueue.CompleteJob | shared/job_queue.py:277-314 | stores result and outcome under the TTL, takes the id out of processing and its backup away, and leaves data and list as they are |
| JobQueue.JobQueue.ReclaimJob | shared/job_queue.py:378-430 | a member is requeued exactly when its data is gone and its backup is there: at the end of the list, with the data of the backup without the token, status "pending", out of processing, backup gone; else at most its place in processing goes |
| JobQueue.StatusTellsPlace | shared/job_queue.py:321-339 | in every run, unless a completion has replaced it, a waiting job reads "pending" exactly while it can still be handed out, a processed one "processing" at least as long as it cannot be reclaimed, and a dead letter nothing |
| JobQueue.LateCompletionHidesWaitingJob | shared/job_queue.py:302-312 | a run in which a job waits with live data and its status says that it succeeded |
| JobQueue.JobQueue.ReclaimStaleJobs | shared/job_queue.py:368-434 | every member of the processing set is looked at once, in some order, and the result counts the requeued ones |
| WorktreeLock.EveryRunKeepsLease | shared/worktree_lock.py:125-240 | in every run with distinct job ids the key is the lease of whoever holds one, and never lacks an expiry |
| WorktreeLock.ExclusionIffDistinctJobs | shared/worktree_lock.py:150-200 | at most one object ever holds an unexpired lease, in every run, if and only if the job ids are distinct |
| WorktreeLock.LockChangesOnlyByAcquire | shared/worktree_lock.py:150-240 | the stored job id changes only through a fresh SET NX, field updates move no expiry, only the owner's id or its expiry deletes the key |
| WorktreeLock.StaleReleaseFreesIffSameJob | shared/worktree_lock.py:178-201 | the release of a lapsed holder frees the current holder's lock if and only if both run the same job |
| WorktreeLock.SharedIdBreaksExclusion | shared/worktree_lock.py:178-201 | two objects with one job id: a run after which both hold a lease |
| WorktreeLock.Worktree.Acquire | shared/worktree_lock.py:125-176 | tries once, and a second time only after waiting for a lock that was there; success is a SET NX of its own and leaves the lease with it, and a vain wait leaves an empty pending prompt of its job |
| WorktreeLock.Worktree.WaitForRelease | shared/worktree_lock.py:312-332 | true only when it saw the key gone, false only after every second of the timeout; it writes nothing |
| WorktreeLock.Worktree.ReleaseLock | shared/worktree_lock.py:178-201 | deletes the key exactly when this object acquired and the stored id is its own |
| WorktreeLock.Worktree.UpdateLockField | shared/worktree_lock.py:203-240 | one field changes exactly when the key exists with time to live; job id and expiry stay, whoever owns it |
| WorktreeLock.Worktree.SetSessionId | shared/worktree_lock.py:242-250 | issues the update exactly when this object has acquired |
| WorktreeLock.Worktree.SetInterrupted | shared/worktree_lock.py:252-257 | the same for the status |
| WorktreeLock.Worktree.SetPendingPrompt | shared/worktree_lock.py:272-285 | stores the prompt with its own expiry and touches no lock |
| WorktreeLock.Worktree.GetPendingPrompt | shared/worktree_lock.py:287-303 | hands a prompt out once |
| WorktreeLock.EveryRunKeepsPending | shared/worktree_lock.py:272-303 | in every run a pending prompt carries the job id of some object and at most five minutes to live |
| WorktreeLock.PromptIsTakenOnce | shared/worktree_lock.py:272-303 | a stored prompt waits as stored, with the job id of the one that stored it, for five minutes and no longer; taking it leaves none |
| ResumeProtocol.EveryRunKeepsLock | services/session_service/resume.py:177-212 | in every run the resume lock belongs to the one call whose lease runs, and the tallies of jobs and run counts agree |
| ResumeProtocol.OneLease | services/session_service/resume.py:192-195 | at most one call holds an unexpired resume lease |
| ResumeProtocol.ReleaseKeepsLock | services/session_service/resume.py:198-212 | a release never frees the lock of another call |
| ResumeProtocol.OneResumePerLeave | services/session_service/resume.py:74-162 | in every interleaving with workers, crashes and lapses, resume jobs never exceed the times the session left running, and the run count grows by exactly one per resume, if each set_running falls in its lease or there is one caller |
| ResumeProtocol.OneResumePerLeaveIff | services/session_service/resume.py:74-104 | for any number of callers, runs whose calls take less than d from lock to set_running never create more jobs than departures if and only if d is at most the lease or there is no second caller |
| ResumeProtocol.LapsedLeaseResumesTwice | services/session_service/resume.py:83-104 | for every d beyond the lease and two or more callers, a run with two resume jobs for one departure from running |
| ResumeProtocol.SweepRequeuesIff | services/agent_worker/worker.py:81-147 | a sweep requeues if and only if the session is there with status running, no worktree, no SDK session id and last_run beyond the stale limit, no worktree lock is held, and the job key names no pending or processing job with a live status; it then marks the session errored, and otherwise leaves it as it is |
| ResumeProtocol.DecisionRequeuesIff | services/agent_worker/worker.py:106-147 | a decision on a list made earlier requeues if and only if the session is listed and neither a worktree lock nor the job key speaks for it now, whatever its status has become |
| ResumeProtocol.OrphanIsRequeued | services/agent_worker/worker.py:81-147 | a run in which no worker comes and the job expires: the next sweep requeues the session and marks it errored |
| ResumeProtocol.CompletedIsLeftAlone | shared/session_store.py:926-931 | a run that was completed is left alone by every later sweep, after any time |
| ResumeProtocol.LoneResume | services/session_service/resume.py:56-174 | a call that nobody disturbs, on a session that is not running, leaves it running with one more run, a fresh last_run and no SDK session id, a pending job at the end of the list that the job key names, and no lock |
| ResumeProtocol.RefusedResume | services/session_service/resume.py:74-104 | a call that finds the lock taken, or the session gone or running, changes neither session nor jobs and leaves the lock as it was |
| ResumeProtocol.FailuresTouchNothing | services/session_service/resume.py:83-174 | a command that raises takes the call to its release, and a process that dies to nothing; neither touches session, jobs or lock |
| ResumeProtocol.FreshResumeIsRequeuedIff | services/agent_worker/worker.py:81-139 | in every run with any number of overlapping sweeps, within the stale limit of the latest set_running: a sweep that lists afresh requeues nothing, and a decision requeues if and only if its sweeper's list is older than the resume and neither a live job nor a worktree lock speaks for the session |
| ResumeProtocol.LiveResumeIsRequeuedIff | services/agent_worker/worker.py:122-139 | in every run, the session is requeued over any recorded live job if and only if it is listed and unlocked and the job key was written since that record, by another resume or for a new session, for a job that is not live |
| ResumeProtocol.EarlierJobIsRequeuedOver | services/agent_worker/worker.py:122-127 | a run, all within leases and in order, in which a fresh sweep requeues over an earlier resume's pending job because the later one's is finished |
| ResumeProtocol.SweepSparesLatestResume | services/agent_worker/worker.py:106-139 | when no call records its job after a later resume has marked, the sweep requeues nothing within the stale limit of set_running, nor while the latest resume's recorded job is pending or processing with a live status |
| ResumeProtocol.LeasesKeepRecordOrder | services/session_service/resume.py:177-195 | calls that mark and record inside their leases record in the order they mark |
| ResumeProtocol.LateRecordRequeuesLiveResume | services/session_service/resume.py:279-289 | a run with every mark inside its lease and every record within the stale limit in which a fresh sweep requeues a session whose job is pending |
| ResumeProtocol.EveryRunKeepsKey | services/session_service/resume.py:279-289 | in every run the job key names a recorded job exactly unless it was written again since |
| ResumeProtocol.EveryRunKeepsLists | shared/session_store.py:926-931 | in every run last_run is no older than the latest set_running, and a sweeper's list that is not older than it is past its stale limit; what a listing takes is SweepRequeuesIff |
| ResumeProtocol.OldListRequeuesDuringResume | services/agent_worker/worker.py:88-93 | a sweep that decides on a list from before the resume requeues a session that is being resumed |
| ResumeProtocol.SessionService.AcquireResumeLock | services/session_service/resume.py:177-195 | acquires exactly when no lock is there, with a fresh nonce |
| ResumeProtocol.SessionService.ReadSession | services/session_service/resume.py:83-98 | resumable exactly when the session exists and is not running |
| ResumeProtocol.SessionService.SetSessionRunning | shared/session_store.py:961-980 | the session is running with a fresh last_run, in one command |
| ResumeProtocol.SessionService.SetJobId | shared/session_store.py:982-990 | the job key names the job |
| ResumeProtocol.SessionService.ReleaseResumeLock | services/session_service/resume.py:198-212 | compare-and-delete on the nonce |
| ResumeProtocol.SessionService.CreateJob | services/session_service/resume.py:270-293 | data, status, recorded id and push, in that order up to the first that raises, whatever others do between |
| ResumeProtocol.SessionService.HandleResume | services/session_service/resume.py:56-174 | issues exactly the commands of a full resume when it creates a job, only the lock's and the read when it is refused, and a prefix of them when one raises; the lock is released on every path |
| StreamSession.InFlightMeans | shared/sdk_executor.py:36-69 | the set is the tasks started and not ended since, for every message sequence |
| StreamSession.SettledMeans | shared/sdk_executor.py:288-300 | the set is the tasks ended with neither output nor a result frame after |
| StreamSession.FrameTest | shared/sdk_executor.py:298-355 | the code's tests at a result frame decide the declarative notions of an accepted and of a provisional frame |
| StreamSession.TextsMeans | shared/sdk_executor.py:302-321 | the texts of a message list are those of its assistant messages and no others |
| StreamSession.MessagesMeans | shared/sdk_executor.py:201-388 | the messages of a run are those received, in order |
| StreamSession.HeldEnds | shared/sdk_executor.py:240-268 | a held result is the frame that decides how the grace time and the end of the stream are met |
| StreamSession.StreamConsumer.TrackTaskLifecycle | shared/sdk_executor.py:36-70 | in flight are a task started with a deferring type, and those before but for one that ends; settled are those before and one that ends; both follow the fold over the messages |
| StreamSession.StreamConsumer.Consume | shared/sdk_executor.py:272-379 | a message ends the run if and only if it is an accepted, not provisional frame; the held result stays the last accepted frame nothing followed |
| StreamSession.StreamConsumer.Stream | shared/sdk_executor.py:201-388 | the loop goes on past every event that does not stop a run and stops at the first that does; the end of the stream gives the accepted frame after which the run did not go on, if there is one, and otherwise no result; the grace time gives a held frame; only a failure of the pump raises |
| PromptBudget.TruncationIsLongest | shared/sdk_factory.py:986-1034 | a text over its limit keeps the longest prefix (or suffix) of lines that fits, loses at least one line, and is dropped exactly when not even one fits |
| PromptBudget.CutTextIsMarked | shared/sdk_factory.py:1002-1034 | a cut text is its first lines with a marker below, or its last lines with a marker above |
| PromptBudget.EstimateMeans | shared/sdk_factory.py:986-1000 | the estimate is 1.3 tokens a word rounded down, and at least one |
| PromptBudget.TruncateText | shared/sdk_factory.py:1002-1034 | the line-by-line loop computes that truncation |
| PromptBudget.OnlyTheLastIsCut | shared/sdk_factory.py:932-973 | at most one component is cut and nothing of lower priority follows it |
| PromptBudget.HeadThatFitsStaysWhole | shared/sdk_factory.py:932-940 | components that fit together at the head of the priority order all stay whole |
| PromptBudget.SignatureIsWholeIffItFits | shared/sdk_factory.py:932-944 | over budget, the signature stays whole if and only if it fits together with the prompt |
| PromptBudget.PromptIsDroppedIff | shared/sdk_factory.py:933-944 | over budget, nothing of the prompt is kept if and only if not even its first line fits; then the signature goes too and the lower tiers get the whole budget |
| PromptBudget.LongLineLosesToTree | shared/sdk_factory.py:933-944 | such an input: a one-line prompt is dropped with its signature, and the file tree stays |
| PromptBudget.GreedyCost | shared/sdk_factory.py:929-973 | the words of the parts stay within the budget and the slack of rounding and one marker |
| PromptBudget.AddCore | shared/sdk_factory.py:932-944 | the first loop is the greedy choice on prompt and signature, and leaves the budget the greedy choice leaves |
| PromptBudget.AddTier | shared/sdk_factory.py:946-973 | the later loops are the greedy choice on their one component |
| PromptBudget.SDKOptionsBuilder.AssembleSystemPrompt | shared/sdk_factory.py:871-983 | everything joined if it fits, else the greedy choice by priority; the estimate of the result is at most the budget plus 6, for all inputs |
| PromptBudget.SDKOptionsBuilder.PresentMeans | shared/sdk_factory.py:880-911 | a component is the given text without the whitespace around it, and is absent exactly when there is nothing else |
| PromptBudget.SDKOptionsBuilder.SignedMeans | shared/sdk_factory.py:896-907 | the signature component is there exactly for a non-empty link, and its text contains the link |
| PromptBudget.SDKOptionsBuilder.ListedMeans | shared/sdk_factory.py:880-927 | what is joined is in the order structure, history, prompt, signature; the order of priority is prompt, signature, history, structure, with the same components |
| PromptBudget.SDKOptionsBuilder.SixOverIsReached | shared/sdk_factory.py:929-973 | inputs whose assembled prompt is estimated at exactly the budget plus 6, so no smaller constant bounds it |
| TranscriptReader.ReadResumes | hooks/langfuse_hook.py:347-380 | reading on from a saved offset and buffer yields what reading everything at once yields |
| TranscriptReader.EveryRunKeepsReader | hooks/langfuse_hook.py:317-380 | over every sequence of appends and hook runs the rows so far are the parse of the complete lines before the offset, and the buffer is the partial line |
| TranscriptReader.RowsAreAcceptedLines | hooks/langfuse_hook.py:370-378 | the rows are the parses of exactly the lines that are not blank and that the parser accepts, one for each, in their order |
| TranscriptReader.EveryRunReadsRows | hooks/langfuse_hook.py:317-380 | in every run of appends and hook runs the rows so far are those of the complete lines before the offset |
| TranscriptReader.IncrementalEqualsOneShot | hooks/langfuse_hook.py:337-380 | after a hook run the rows returned so far are those of one read of the whole file |
| TranscriptReader.Reader.ReadNewJsonl | hooks/langfuse_hook.py:337-380 | the rows of this call are the parses of the accepted complete lines of the saved buffer and what is new in the file, in order; the partial last line becomes the buffer and the end of the file the offset; a missing file, or one with nothing new, changes nothing |
| TranscriptReader.Reader.WriteSessionState | hooks/langfuse_hook.py:326-334 | loading what was saved gives the state back, and other keys are untouched |
| TurnBuilder.AssistantsAreLatestInOrder | hooks/langfuse_hook.py:443-457 | as many assistant messages as first appearances if and only if no id clashes with the synthetic id of a row without one; and then each is the last row of its id, in order of first appearance |
| TurnBuilder.SyntheticLookingIdMergesRows | hooks/langfuse_hook.py:448-451 | a clash: three entries become one |
| TurnBuilder.LastResultWins | hooks/langfuse_hook.py:426-431 | for each non-empty tool use id the last result wins, and no other id is there |
| TurnBuilder.ResultsAreLastPerId | hooks/langfuse_hook.py:424-432 | the same for the rows of a turn |
| TurnBuilder.OneTurnPerOpener | hooks/langfuse_hook.py:410-464 | the turns are exactly those of the user rows that an assistant row follows before the next user row, in order, each with the messages and results of the rows between |
| TurnBuilder.BuildTurns | hooks/langfuse_hook.py:391-464 | the loop over rows computes those turns |
| FileTree.WalkListsPrefix | shared/file_tree.py:217-257 | the entries listed are exactly the first of the preorder of the filtered, depth-limited tree, as many as the budget allows |
| FileTree.MarkersAreExact | shared/file_tree.py:240-245 | each truncation marker counts exactly the unlisted entries of its directory |
| FileTree.LevelCounts | shared/file_tree.py:239-240 | the preorder has each visible entry of a directory once, and none of them below it |
| FileTree.EveryDirectoryIsListed | shared/file_tree.py:217-257 | the preorder has every visible entry of every readable directory down to the depth limit, once each, and of every other none |
| FileTree.VisibleMeans | shared/file_tree.py:217-238 | the visible entries of a directory are those that are not hidden, in their order |
| FileTree.ExampleListing | shared/file_tree.py:217-257 | a hidden entry, a directory with two files and one entry more than the limit, drawn: connectors, prefixes, slash and marker |
| FileTree.TreeLister.WalkDir | shared/file_tree.py:217-257 | the recursive walk with its shared counter appends the budgeted walk of the directory and counts its entries |
| FileTree.TreeLister.GenerateFileTree | shared/file_tree.py:178-268 | the listing is the first max_entries of the preorder, with exact markers; the text is its lines under the root's name, and the summary |
| SessionToken.TokenRoundTrip | services/session_service/main.py:122-149 | decoding a token gives its key up to joined surrogate pairs, hence the key itself if and only if no part holds an unjoined pair; and the token is URL-safe |
| SessionToken.TokensCollideIffJoinedAlike | services/session_service/main.py:122-127 | two keys share a token if and only if they differ only in joining surrogate pairs |
| SessionToken.ReadsString | services/session_service/main.py:126-143 | reading an escaped string back (section 7 of RFC 8259) gives it with its pairs joined, for every string of code points |
| SessionToken.LoadsDumps | services/session_service/main.py:126-143 | loading a dumped list of strings gives the list |
| SessionToken.ScanReadsBase64 | services/session_service/main.py:127-142 | base64url decoding inverts encoding (sections 4 and 5 of RFC 4648) |
| SessionToken.PaddingIsRestored | services/session_service/main.py:127-140 | the padding that was stripped is restored from the length (section 3.2 of RFC 4648) |
| SessionToken.FourCharactersDecode | services/session_service/main.py:143-146 | a payload that is a JSON string of four characters decodes to a key of its characters |
| SessionToken.KeysComeFromFour | services/session_service/main.py:143-149 | of the values that load, exactly an array of four strings and a string of four characters give that key; a scalar, and an object of four keys, raise what is not turned into a status 400 |
| SessionToken.TokensOfLists | services/session_service/main.py:122-149 | a token of any number of strings decodes to the key of these strings if there are four, and is refused otherwise |
| SessionToken.OddTokenIsRefused | services/session_service/main.py:136-142 | a token one symbol longer than a multiple of four is refused |
| SessionToken.LoadsAround | services/session_service/main.py:143 | whitespace around a list is skipped; anything else after it, or a byte order mark before, is refused (section 2 of RFC 8259) |
| SessionToken.StringsRead | services/session_service/main.py:143 | in a string a control character is refused, any other plain one stands for itself, a slash may be escaped, hex digits are of either case (section 7 of RFC 8259) |
| SessionToken.ItemsNeedCommas | services/session_service/main.py:143 | items that no comma separates are refused (section 5 of RFC 8259) |
| SessionToken.PlainAlphabetDecodes | services/session_service/main.py:142 | the decoder takes the plain alphabet for the URL-safe one |
| SessionToken.Base64Vectors | services/session_service/main.py:127 | the test vectors of section 10 of RFC 4648, and the two symbols that make the encoding URL-safe |
| SessionToken.ShortEscapes | services/session_service/main.py:126 | the two-character escapes that are written, and characters that are written as they are |
| SessionToken.HexEscapes | services/session_service/main.py:126 | four hex digits for a control character and beyond ASCII, and a surrogate pair beyond the first plane |
| SessionToken.DumpsExample | services/session_service/main.py:126 | a list of two strings as it is written |
| RedisKeys.RestoreIffPlainOwner | shared/constants.py:201-207 | a sanitized key tells its repository if and only if the owner has no double dash and does not end in a dash; otherwise another repository has the same key |
| RedisKeys.KeysAreInjective | shared/constants.py:210-309 | two keys of any kinds with colon-free parts and plain owners are the same string only if they stand for the same thing; typed and legacy lookups never coincide |
| RedisKeys.FieldsOfRender | shared/constants.py:210-309 | splitting a key at its colons gives its parts |
| RedisKeys.KeyExamples | shared/constants.py:210-309 | one key of each kind, written out |
| RedisKeys.Collisions | shared/constants.py:201-309 | a colon inside a part, or an owner that is not plain, makes two keys collide |
| RedisKeys.ScanTakesSessionKeys | shared/session_store.py:897-912 | the two-colon filter accepts exactly the keys of session hashes with a colon-free token, and reads the token from them |
| RedisKeys.ScanSeparatesKinds | shared/session_store.py:907-912 | of all the session keys, the scan takes those of session hashes and no others |
| RetryQueue.EveryRunConserves | shared/dlq.py:53-84 | with any number of workers, every message is in one place exactly once, is processed at most max(1, max - attempts) times, and each dead letter records why |
| RetryQueue.DeadLetterIsDue | shared/dlq.py:62-77 | without a permanent error a message is given up after exactly its allowance of tries |
| RetryQueue.VerdictsAreFinal | services/memory_worker/memory_worker.py:180-205 | in every run a message that succeeded, was lost or failed permanently is settled once, the last as a dead letter with that error, and is not on its way again |
| RetryQueue.MemoryWorker.EnqueueForRetry | shared/dlq.py:53-84 | the message with one more attempt and its error goes to the end of the dead-letter list exactly when its attempts reach the maximum, and else to the end of the queue |
| RetryQueue.MemoryWorker.HandleNext | services/memory_worker/memory_worker.py:172-197 | one turn takes the oldest message, processes it exactly once unless it is no JSON, and acts on the verdict as the history says; it uses up some of the work that is left, whatever its outcome |
| RetryQueue.MemoryWorker.Drain | services/memory_worker/memory_worker.py:170-205 | without new messages the loop empties the queue, and every message has come to rest exactly once |

## Left out

- Connections, reconnects and backoff, pub/sub, GitHub clients, git, subprocesses, MCP, HTTP routes, WebSockets, Langfuse emission: I/O, replaced by atomic steps and parameters.
- InMemoryLimiter: one object is one key of the backend with the limit its callers pass; `cleanup` is not modelled.
- RedisLimiter: time is real; one `Tick` serves wall clock and Redis clock; the monotonic clock of the timeout is the same clock.
- JobQueue: methods are single steps, so two concurrent reclaimers (which can push one id twice at command granularity) and the timestamp key are not modelled. Of crashes inside a method only those of a pull are.
- GetNextJob: ids are those that `create_job` made and data is JSON, so the branches for ill-formed ids and corrupt JSON are not modelled.
- EveryRunKeepsQueue: a job that outlives the TTL can be reclaimed while it still runs; the statement is about ids and payloads, not about exclusive running.
- WorktreeLock: one worktree; cancel signals and subscriptions are not modelled, and neither is an error of the Redis client.
- ResumeProtocol: one session; publishing, history and inbox commands change nothing that the statements mention. Initial session creation is an environment step, since the request processor is not part of this model.
- SetJobId: the 30-day expiry of the job key is not modelled, so the statements about it are for jobs that live less long.
- SetSessionRunning: the TTL that it renews is not modelled; the session hash may vanish at any time instead.
- StreamSession: publishing to the bridge, logging and the text filter of a collected message are not modelled.
- PromptBudget: the token estimate is the exact floor of 13n/10 and not the floating-point product; logging is left out.
- ReadNewJsonl: offsets count characters of the decoded text, and a file that cannot be read is not modelled.
- TranscriptReader: chunks end on character boundaries, so UTF-8 replacement decoding is not modelled; a parser is any function that may fail.
- TurnBuilder: rows come classified by role, message id and tool results, with opaque contents.
- FileTree: which entries are hidden is a parameter, `iterdir` order after sorting is the order of the children, and the summary line is a parameter.
- SessionToken: UTF-8 beyond ASCII and JSON values other than strings and arrays are parameters of the decoder; the token itself has no lone surrogates.
- RedisKeys: thread ids are strings; `session_pattern`, cleanup, deduplication and webhook keys are left out as easy.
- RetryQueue: the transient-error test is part of the outcome of processing; attempts are natural numbers; a worker's death or a failing push loses the message in hand, as it does in the source.
- Inbox draining, subscriber counters, event filters, mapping tables and configuration: easy, or not guaranteed by the code.
