# Slurm bridge operator: a verified model

The bridge lets Kubernetes run Slurm jobs. An operator turns a `SlurmBridgeJob` into a size-car pod, a virtual kubelet
submits that pod to an agent on the Slurm side, the agent calls `sbatch`, and log files are tailed or read back to
Kubernetes clients. This project models the parts with the most state, concurrency and text handling, and proves what
they promise over every input and every interleaving of their steps.

`dafny verify dfyconfig.toml` verifies everything.

## How the model is built

Code that several goroutines or processes run at once is written twice. A class has the source's fields and one method
for each stretch of code that nobody can interrupt; its postcondition ties the new fields to a step function on values.
A second module interleaves those step functions with everything else that can happen (writers, pollers, clients, lost
replies, disappearing pods), and its theorems speak of all runs: all finite sequences of steps. Sequential code is a
method with the source's loops, proved against a specification function whose own laws are proved as lemmas.

| files | what they model |
|---|---|
| `Lines`, `Follower`, `FollowerRuns`, `FollowerProgress` | the goroutine that follows a growing file in follow mode |
| `Polling`, `WakeUps`, `Delivery` | the poller and the one-slot notification channels that wake it, and what the three together deliver |
| `TailReader`, `TailStream`, `StreamProgress`, `LastLine` | readTail, Read, the agent's TailFile handler and the kubelet's reader, end to end; what the end of a stream can cost |
| `FileStreams` | OpenFile and the reader over the streams of several files |
| `Tracker`, `TrackerRuns`, `TrackerProgress` | the shared inotify tracker, its server goroutine and its clients |
| `LeakyBucket`, `BucketStore` | the rate limiter and its store with garbage collection |
| `GoText`, `Durations`, `SbatchScript`, `ScriptLaws`, `LastSetting`, `ContainerScript` | durations, `#SBATCH` directives, and the script built for a container |
| `ResourceRequests` | resource requests from the job's specification to the command line of sbatch |
| `Submission`, `SubmissionRuns`, `Overlaps` | CreatePod, UpdatePod and DeletePod of the kubelet and SubmitJob of the agent; the second without overlapping requests, the third with them |
| `JobPhase` | the pod's phase from the states of its Slurm jobs |
| `Operator`, `OperatorSteps`, `OperatorRuns` | the reconcile pass, what one step of a run does, and the life of a SlurmBridgeJob |
| `Partitions` | the configurator's pass over partitions and kubelet pods |
| `Kubernetes`, `Options`, `Seqs` | phases, replies, options and small facts that several modules share |

## Where the code falls short

Each of these is kept as the code has it. Lemmas give a failing input or run, the exact condition, or both.

- A request to watch that the inotify watcher refuses leaves its channels behind; a later event can then block the
  tracker's goroutine for ever (`RefusedRequestCanWedge`; exactly when: `WedgedIffStuck`; every
  client's call is then caught in it: `CallsCanEndIff`; never without refusals: `NeverStuck`).
- A client of the tailed file can be told end of file while the last line is still in the reader's buffer, because
  `isClosed` is read after the lock is released, although the comment above Read promises EOF only after Close
  (`EndOfFileCanComeTooEarly`; at most that line: `MissesAtMostTheLastLine`; exactly when: `CanEndIncompleteIff`).
- `parse.go:58` compares the position of the equals sign where it means the position of the parameter, so a bare last
  parameter indexes out of range (`BareNodesPanics`; exactly when: `PanicIsUnpaired`).
- If the size-car pod of an unfinished job disappears, the pass means to record Failed but dereferences a nil pod and
  stores nothing; the job then never ends (`WedgeIsReached`, `WedgedPass`; exactly when: `CanFinishIff`).
- A fetch job whose creation is not recorded can be created twice, and how fetching ended can then change
  (`TwoFetchJobsAreReached`; exactly when: `SecondFetchJobIff`, `FetchOutcomeCanChangeIff`).
- Overlapping requests for one pod can submit it twice and change the answer (`OverlapSubmitsTwice`), and so can an
  `sbatch` that prints something other than a number (`GarbledOutputSubmitsTwice`; exactly when, in every run:
  `SecondSubmissionIff`, `AnswerCanChangeIff`).
- After a lost reply the kubelet does not know the pod's job, so deleting the pod leaves the job in the queue
  (`LostReplyLeavesTheJob`; exactly when: `DeletionCancelsTheJobIff`).
- A bucket that is full, and whose draining takes longer than a 64-bit duration, is collected as if it were drained
  (`OverflowIsObserved`; exactly when: `EvictionIsUnobservableIff`).
- `--time=UNLIMITED` does not undo an earlier limit (`LimitSurvivesUnlimited`; in general: `UnlimitedDoesNotReset`).
- A script's wall time comes back wrong when its nanoseconds do not fit 64 bits, and a negative number of nodes cannot
  be read back at all (exactly when: `RoundTripIsExact`).

## Model

| member | source | states |
|---|---|---|
| Lines.PartitionString | pkg/tail/util/util.go:28-48 | the pieces concatenate to the text, all but the last are full, the last is not empty unless it is the only one; there is no other such cutting |
| Lines.PartitionUnique | pkg/tail/util/util.go:26-48 | full pieces and a rest determine the cutting |
| Lines.PartitionIsPartition | pkg/tail/util/util.go:26-48 | the specification function of the cutting has those three properties |
| Lines.PiecesOfOneMoreLine | pkg/tail/tail.go:405-416 | one more newline-terminated line in a text is exactly its own pieces more to send, after all others |
| Lines.PiecesAreAPartition | pkg/tail/tail.go:405-416 | the pieces of a line are its text again: the one cutting into full pieces and a rest if there is a limit, and the line itself if there is none |
| Lines.PiecesFit | pkg/tail/tail.go:408-416 | with a limit no piece of any line is longer |
| Lines.LinesOfHalfLine | pkg/tail/tail.go:209-223 | text after the last newline adds no line |
| Lines.UnlinesOfPieces | pkg/tail/tail.go:405-416 | without a limit on line length the pieces of the lines, with newlines, are the text again |
| Follower.BufferSize | pkg/tail/tail.go:380-387 | the size of the read buffer is never below bufio's minimum |
| Follower.Tail.constructor | pkg/tail/tail.go:240-253 | following begins at the requested location with empty buffers |
| Follower.Tail.Tell | pkg/tail/tail.go:141-158 | the noted position is the file offset less what is buffered, and reading begins with no fragments |
| Follower.Tail.Fill | pkg/tail/tail.go:209-215 | one read moves bytes of the file, as it is now, to the end of the buffer |
| Follower.Tail.Spill | pkg/tail/tail.go:209-215 | a full buffer without a newline is collected, not lost |
| Follower.Tail.TakeLine | pkg/tail/tail.go:209-223 | the line is everything collected up to the first newline; its pieces are queued and the rest stays buffered |
| Follower.Tail.HitEof | pkg/tail/tail.go:267-296 | at end of file the follower knows whether it holds a half-line |
| Follower.Tail.BackUp | pkg/tail/tail.go:393-401 | the offset returns to the noted position and the buffer is dropped |
| Follower.Tail.BeginWait | pkg/tail/tail.go:336-348 | waiting changes nothing else |
| Follower.Tail.SendPiece | pkg/tail/tail.go:414-416 | the first queued piece is what the receiver gets |
| Follower.Tail.FinishLine | pkg/tail/tail.go:322-330 | after a line only a plain stop ends the loop |
| Follower.Tail.Wake | pkg/tail/tail.go:348-350 | a Modified token returns to the loop's check |
| Follower.Tail.Abandon | pkg/tail/tail.go:375-377 | a dying tomb ends the wait |
| FollowerRuns.StepKeeps | pkg/tail/tail.go:225-331 | no step of any interleaving breaks the invariant between file, buffer, fragments, position and what was sent |
| FollowerRuns.ExactOutput | pkg/tail/tail.go:209-331 | at every loop top the position is the start or just after a newline, and what was sent is exactly the lines between start and position, cut into pieces: no half-line, none lost, none twice |
| FollowerRuns.NeverAhead | pkg/tail/tail.go:209-331 | at every moment what was sent is a prefix of what is to be sent |
| FollowerRuns.CaughtUpAtEof | pkg/tail/tail.go:288-315 | from end of file until it moves on, the follower has sent every line that was complete at that end of file |
| FollowerRuns.StopAtEofLosesNothing | pkg/tail/tail.go:166-172 | a follower that was never told to stop at once returns only when caught up |
| FollowerRuns.NothingTooLong | pkg/tail/tail.go:405-416 | with a limit nothing longer is ever sent |
| FollowerProgress.NeverBlocked | pkg/tail/tail.go:255-331 | in every reachable state some step of the goroutine is possible, unless it waits or has stopped |
| FollowerProgress.OwnStepsEnd | pkg/tail/tail.go:255-331 | the goroutine cannot be kept busy for ever: from any moment its own steps without new bytes are limited |
| FollowerProgress.CatchesUp | pkg/tail/tail.go:255-331 | from every reachable state, unless told to stop at once or returned, the goroutine's own steps bring it to rest with every complete line of the file sent |
| FollowerProgress.StopIsObeyed | pkg/tail/tail.go:322-330 | once told to stop at once the goroutine begins at most one more iteration |
| FollowerProgress.BufferFits | pkg/tail/tail.go:380-387 | in any run the read buffer never holds more than its size |
| FollowerProgress.EofAndBack | pkg/tail/tail.go:288-315 | at end of file all that was read is accounted for; after backing up the half-line is what is read next, and there is nothing more to back up |
| Polling.Slot.SendOnlyIfEmpty | pkg/tail/watch/filechanges.go:31-36 | posting leaves a token whether or not one was there |
| Polling.PollingFileWatcher.ChangeEvents | pkg/tail/watch/polling.go:44-60 | the poller starts from the caller's position and knows no modification time |
| Polling.PollingFileWatcher.Stat | pkg/tail/watch/polling.go:67-68 | a stat is taken at one moment and looked at later |
| Polling.PollingFileWatcher.Compare | pkg/tail/watch/polling.go:88-108 | a size known and changed decides, else a new modification time; which of them posts, and what is remembered |
| Polling.SameFilePostsNothing | pkg/tail/watch/polling.go:88-108 | a file that is as remembered posts nothing |
| Polling.SizeIsReported | pkg/tail/watch/polling.go:88-101 | a shrunk file is reported as truncated and not as modified, a grown one as modified and not as truncated |
| Polling.EmptyFileByTime | pkg/tail/watch/polling.go:88-108 | after size 0 only a new modification time is reported |
| Polling.TwoLooksRemember | pkg/tail/watch/polling.go:86-108 | after two looks at a file that rests its size and time are remembered |
| Polling.PollingFileWatcher.Receive | pkg/tail/tail.go:348-350 | taking the token empties the slot only |
| WakeUps.NoLostWakeUp | pkg/tail/watch/polling.go:44-113 | in every reachable state a follower that waits at a file grown since its last end of file has a token pending, or the poller's memory differs so that its next look posts one; Truncated is never posted |
| WakeUps.TwoComparisonsWakeUp | pkg/tail/watch/polling.go:58-110 | while the follower waits at a grown file at most two comparisons, under any further appends, put the token there |
| WakeUps.WokenWithinTwoComparisons | pkg/tail/tail.go:336-378 | so every sleep of this kind ends within two comparisons |
| WakeUps.NoIdleWakeUp | pkg/tail/watch/polling.go:58-110 | once the poller remembers the file, no run in which the file rests brings a token |
| WakeUps.EveryTokenWakesOnce | pkg/tail/watch/filechanges.go:31-36 | over every run the wake-ups are no more than the poller's looks and a token that was left |
| Delivery.EverythingIsDelivered | pkg/tail/tail.go:255-378 | from every reachable state of writers, poller and follower, unless told to stop at once or returned: poller and follower alone can get to a state in which the follower sleeps and every complete line of the file has been sent |
| TailReader.Reader.ReceiveLine | pkg/common/tail/reader.go:73-77 | readTail holds a line until it has written it |
| TailReader.Reader.WriteLine | pkg/common/tail/reader.go:84-86 | the line and a newline go to the end of the buffer |
| TailReader.Reader.FinishReadTail | pkg/common/tail/reader.go:67-77 | the reader is closed only after the Lines channel |
| TailReader.Reader.ReadLocked | pkg/common/tail/reader.go:51-54 | the caller's buffer gets the first bytes there are, nothing else in it changes, and what is left stays in order |
| TailReader.Reader.ReadCheck | pkg/common/tail/reader.go:55-60 | end of file is answered when the read was short and the reader is closed by now |
| TailReader.TailFileHandler.Read | pkg/slurm-agent/api/slurm.go:280-281 | a tick takes the first bytes there are out of the reader |
| TailReader.TailFileHandler.Answer | pkg/slurm-agent/api/slurm.go:282-288 | an error ends the loop only if no bytes came with it; an empty read is tried again |
| TailReader.TailFileHandler.Send | pkg/slurm-agent/api/slurm.go:290-292 | the bytes read go out as one chunk, after all earlier ones |
| TailReader.TailFileReader.Read | pkg/slurm-virtual-kubelet/reader.go:52-69 | each Read hands out the next bytes of the current or next chunk and keeps the rest |
| TailStream.EndToEnd | pkg/slurm-agent/api/slurm.go:240-295 | for every interleaving and all buffer sizes: received bytes and all bytes on their way are, in order, the complete lines read so far, a prefix of the file from the start |
| StreamProgress.EverythingCanArrive | pkg/slurm-agent/api/slurm.go:240-295 | from every reachable state with the handler in its loop, reader, handler and client can bring every line sent to the client without the follower |
| TailStream.EndOfFileIsComplete | pkg/common/tail/reader.go:51-92 | if the read that ends the stream was locked after closing, the client has every line that was sent |
| LastLine.MissesAtMostTheLastLine | pkg/common/tail/reader.go:51-92 | for every interleaving in which only Close stops the follower: a client that reads to the end has all lines that were sent, or all but the last |
| LastLine.CanEndIncompleteIff | pkg/common/tail/reader.go:51-60 | once the follower has stopped, the stream can still end without a line if and only if readTail holds it, or it was written after a Read that found nothing was locked and before that Read looks at isClosed |
| TailStream.LastLineCanStayBehind | pkg/common/tail/reader.go:51-60 | from every state with the last line in readTail's hand, end of file can come before it |
| TailStream.EndOfFileCanComeTooEarly | pkg/common/tail/reader.go:51-60 | a run in which the client of a one-line file gets end of file and no byte |
| FileStreams.OpenFileReader.Recv | pkg/slurm-virtual-kubelet/reader.go:21-33 | a stream gives its chunks in order and then its end |
| FileStreams.OpenFileReader.FillBuffer | pkg/slurm-virtual-kubelet/reader.go:19-35 | the retry loop ends, moving on only over streams that ended well |
| FileStreams.OpenFileReader.Read | pkg/slurm-virtual-kubelet/reader.go:15-45 | the caller's buffer holds the bytes of the step and is unchanged behind them |
| FileStreams.ReadConserves | pkg/slurm-virtual-kubelet/reader.go:15-45 | one Read hands out the next bytes of all that is to come, or reports an end when nothing is; the error says whether all streams ended well, or that there are none |
| FileStreams.ReadGivesAllItCan | pkg/slurm-virtual-kubelet/reader.go:37-44 | a successful Read fills the caller's buffer or hands out all that is left of the chunk |
| FileStreams.ReadsConserve | pkg/slurm-virtual-kubelet/reader.go:15-45 | over any sizes of reads: what was received and what is to come are what was to come |
| FileStreams.EndMeansEverything | pkg/slurm-virtual-kubelet/reader.go:19-33 | an end is reported only after everything was delivered |
| FileStreams.EventuallyEnds | pkg/slurm-virtual-kubelet/reader.go:15-45 | enough reads into non-empty buffers reach that end, empty chunks included |
| FileStreams.OpenFile | pkg/slurm-agent/api/slurm.go:208-234 | the chunks, of 1 to 128 bytes, are the file, or a prefix of it up to a failed read |
| FileStreams.FilesArrive | pkg/slurm-virtual-kubelet/provider.go:292-300 | what the streams of several files deliver is the files' bytes one after the other |
| FileStreams.LogsAreReadWhole | pkg/slurm-virtual-kubelet/reader.go:15-45 | received bytes are a prefix of the log files, and all of them at end of file |
| Tracker.InotifyTracker.Release | pkg/tail/watch/inotify_tracker.go:98-109 | the done channel is removed and closed, and nothing else changes |
| Tracker.InotifyTracker.AddWatch | pkg/tail/watch/inotify_tracker.go:132-158 | the new state is the add step; what that step does is stated below without its functions |
| Tracker.InotifyTracker.RemoveWatch | pkg/tail/watch/inotify_tracker.go:162-181 | the new state is the removal step, and the answer says whether it was the last watch of the path |
| Tracker.InotifyTracker.Unsubscribe | pkg/tail/watch/inotify_tracker.go:183-193 | only the subscription ends |
| Tracker.InotifyTracker.LookUp | pkg/tail/watch/inotify_tracker.go:196-202 | both channels are looked up in one locked section |
| Tracker.DirIff | pkg/tail/watch/inotify_tracker.go:143-147 | a path has exactly one parent: f is k, a slash and a slash-free name, or stands in the root or in the working directory |
| Tracker.AddCounts | pkg/tail/watch/inotify_tracker.go:143-158 | an accepted request for a file to be created counts once for its parent directory, any other once for the path itself; that path is then subscribed and no other count changes |
| Tracker.RefusedCountsNowhere | pkg/tail/watch/inotify_tracker.go:132-158 | a refused request counts nowhere and leaves the channels of its file behind |
| Tracker.AddKeepsChannels | pkg/tail/watch/inotify_tracker.go:132-141 | channels that are there are kept, missing ones are new, and those of other files stay |
| Tracker.RemoveCounts | pkg/tail/watch/inotify_tracker.go:162-193 | a removal counts once for that same path and no other, closes the events channel, and the last one ends the subscription of that path |
| TrackerRuns.AnswersMatch | pkg/tail/watch/inotify_tracker.go:74-113 | at most one client receives from the shared reply channel, and a reply on it is the reply to that client's request |
| TrackerRuns.NoPanic | pkg/tail/watch/inotify_tracker.go:98-210 | no run closes a channel twice or stands before a send on a closed one |
| TrackerRuns.CountsAreExact | pkg/tail/watch/inotify_tracker.go:132-193 | over all interleavings the count of k is the number of clients that watch k or wait for the creation of a file whose parent is k, added and not yet removed; never negative; subscribed exactly while positive or during the unsubscribing call |
| TrackerRuns.EventsReachTheirWatcher | pkg/tail/watch/inotify_tracker.go:196-210 | an event goes only to a client of its own file |
| TrackerRuns.RemoveOpensEscape | pkg/tail/watch/inotify_tracker.go:98-113 | passing the locked part of remove opens the escape of a send to that file that is blocked |
| TrackerRuns.EscapeIffReleased | pkg/tail/watch/inotify_tracker.go:196-210 | a blocked send can escape exactly when its file has no done channel in the map |
| TrackerRuns.NewWatchShutsEscape | pkg/tail/watch/inotify_tracker.go:132-141 | a run in which a later watch of the same file shuts the escape again |
| TrackerRuns.StuckForever | pkg/tail/watch/inotify_tracker.go:196-210 | a blocked send to a file nobody watches lasts for ever |
| TrackerRuns.WedgedIffStuck | pkg/tail/watch/inotify_tracker.go:196-246 | a blocked server can never be freed exactly in those states |
| TrackerRuns.NeverStuck | pkg/tail/watch/inotify.go:27-133 | if no request to watch is refused the server never wedges |
| TrackerRuns.RefusedRequestCanWedge | pkg/tail/watch/inotify_tracker.go:132-158 | a run in which a refused request wedges it |
| TrackerProgress.CallsCanEndIff | pkg/tail/watch/inotify_tracker.go:74-246 | in every reachable state a call that a client has begun can still end if and only if the server is not stuck |
| TrackerProgress.WatcherCanTakeIt | pkg/tail/watch/inotify_tracker.go:196-210 | an event that is being sent can be taken by a client that has just begun to watch its file, whether it then leaves or stays |
| TrackerProgress.NobodyListensInVain | pkg/tail/watch/inotify_tracker.go:115-181 | in every reachable state a client listens to the channel its file's events are sent on, or sees that its channel is closed |
| LeakyBucket.LeakyBucket.constructor | pkg/tail/ratelimiter/leakybucket.go:16-26 | a new bucket is empty and up to date |
| LeakyBucket.LeakyBucket.UpdateFill | pkg/tail/ratelimiter/leakybucket.go:28-39 | the level sinks by what leaked, not below zero |
| LeakyBucket.LeakyBucket.Pour | pkg/tail/ratelimiter/leakybucket.go:41-53 | accepted if and only if every suffix of the accepted pours with this one stays within the size plus what leaked; a refused pour is not remembered |
| LeakyBucket.LevelIsSuffixMaximum | pkg/tail/ratelimiter/leakybucket.go:28-39 | the lazily kept level is at most x exactly when every suffix of the pours, less its leak, is |
| LeakyBucket.FitsIffAdmissible | pkg/tail/ratelimiter/leakybucket.go:41-48 | the comparison of levels decides the specification that knows no level |
| LeakyBucket.PourIsExact | pkg/tail/ratelimiter/leakybucket.go:28-53 | from an empty bucket every sequence of attempts is answered as the specification answers it |
| LeakyBucket.RefusedPoursLeaveNoTrace | pkg/tail/ratelimiter/leakybucket.go:41-53 | a refused pour changes no later answer |
| LeakyBucket.NoWindowOverflows | pkg/tail/ratelimiter/leakybucket.go:41-53 | in every window the accepted amount is at most the size plus what leaks in it |
| LeakyBucket.DrainedIsFresh | pkg/tail/ratelimiter/leakybucket.go:55-58 | a drained bucket answers everything to come as a fresh one |
| LeakyBucket.CollectedIsDrained | pkg/tail/ratelimiter/memory.go:46-60 | as long as a full bucket's duration fits 64 bits, the test of the collector implies drained, in spite of truncation to nanoseconds and seconds |
| BucketStore.Memory.GetBucketFor | pkg/tail/ratelimiter/memory.go:25-33 | the stored bucket, or a miss |
| BucketStore.Memory.SetBucketFor | pkg/tail/ratelimiter/memory.go:35-44 | collects first when there are more than 100 buckets, then stores |
| BucketStore.Memory.GarbageCollect | pkg/tail/ratelimiter/memory.go:46-60 | exactly the collectable buckets go, at most once a minute |
| BucketStore.OnceAMinute | pkg/tail/ratelimiter/memory.go:46-50 | a collection takes place from the sixtieth second after the last one on, and not before |
| BucketStore.DrainedIsCollected | pkg/tail/ratelimiter/memory.go:46-60 | it leaves no bucket behind that had drained a second before |
| BucketStore.EvictionIsUnobservableIff | pkg/tail/ratelimiter/memory.go:35-60 | over every sequence of uses of any keys the answers are those of a store that keeps everything, if and only if size times leak interval fits a duration |
| BucketStore.OverflowIsObserved | pkg/tail/ratelimiter/leakybucket.go:55-58 | if it does not fit, a run of 103 uses gets another answer |
| BucketStore.DeletedBucketsAreFresh | pkg/tail/ratelimiter/memory.go:46-60 | if it fits, each deleted bucket would have answered like a fresh one |
| GoText.FieldsAppend | pkg/slurm-bridge-operator/parse.go:48 | words on both sides of white space do not run together |
| GoText.SpacesByNumber | pkg/slurm-bridge-operator/parse.go:48 | which characters separate words: among the ASCII ones exactly tab, line ends and blank |
| GoText.ParseOfDigits | pkg/slurm-bridge-operator/parse.go:98 | digits with at most one sign are their value if it fits 64 bits |
| GoText.OnlyDigitsParse | pkg/slurm-bridge-operator/parse.go:98 | nothing else is a number |
| GoText.ParseOfFormat | pkg/slurm-virtual-kubelet/provider.go:56-58 | a printed 64-bit number is read back |
| Durations.ParseDuration | pkg/slurm-agent/parse.go:36-109 | the duration is what the text's clock shows in seconds, as nanoseconds in 64 bits; unlimited and malformed texts are told apart; each form is pinned by the rows below |
| Durations.AddUp | pkg/slurm-agent/parse.go:104-108 | four additions that wrap around are one sum that wraps around once |
| Durations.PrintedIsParsed | pkg/slurm-agent/parse.go:36-109 | days-hours:minutes:seconds gives the seconds back, exactly if and only if their nanoseconds fit 64 bits |
| Durations.PlainPrinting | pkg/slurm-agent/parse.go:36-109 | plain decimal printing of any second count is such a text |
| Durations.DaysAsHours | pkg/slurm-agent/parse.go:50-108 | d-h:m:s and (24d+h):m:s mean the same, also on overflow and with bad numbers |
| Durations.MinutesAsHours | pkg/slurm-agent/parse.go:73-101 | m:s means 0:m:s |
| Durations.MinutesAlone | pkg/slurm-agent/parse.go:73-101 | m means m:0 |
| Durations.ShortFormsAreLong | pkg/slurm-agent/parse.go:50-71 | d-h is d-h:0:0 and d-h:m is d-h:m:0, also with bad numbers |
| Durations.ClockIsWorth | pkg/slurm-agent/parse.go:50-108 | what d-h:m:s is worth in nanoseconds, invalid if one of its numbers is bad |
| Durations.ShortFormsAreWorth | pkg/slurm-agent/parse.go:50-59 | d-h is 86400 d + 3600 h seconds and d-h:m is 60 m more, invalid if one of their numbers is bad |
| Durations.OtherTexts | pkg/slurm-agent/parse.go:38-49 | four parts are malformed; the empty text and UNLIMITED are no limit |
| SbatchScript.ApplySbatchParam | pkg/slurm-bridge-operator/parse.go:82-124 | one setting changes its own field or fails; unknown settings change nothing |
| SbatchScript.ApplyLine | pkg/slurm-bridge-operator/parse.go:48-66 | the loop over the parameters of a line applies its settings left to right, and panics at a bare last parameter |
| SbatchScript.ExtractBatchResourcesFromScript | pkg/slurm-bridge-operator/parse.go:26-69 | the scan skips blank and #! lines, and stops at the first other line that is no directive |
| LastSetting.PanicIsUnpaired | pkg/slurm-bridge-operator/parse.go:52-61 | a script panics if and only if a bare last parameter without a value is reached and every setting before it is valid |
| LastSetting.BareNodesPanics | pkg/slurm-bridge-operator/parse.go:58-61 | the script `#SBATCH -N` panics |
| ScriptLaws.RewriteParameter | pkg/slurm-bridge-operator/parse.go:52-61 | writing `--p v` for `--p=v` in any directive of any script changes nothing, whatever stands above and below, at any length and with any line ends |
| ScriptLaws.SplitDirective | pkg/slurm-bridge-operator/parse.go:36-68 | splitting a directive line at a boundary between settings changes nothing in any script, unless the line was too long to be scanned |
| ScriptLaws.NothingAfterDirectives | pkg/slurm-bridge-operator/parse.go:37-46 | from the first line on that is no directive nothing has any effect, whatever stands above and below |
| ScriptLaws.SkippedLinesDoNothing | pkg/slurm-bridge-operator/parse.go:40-42 | a blank line or one that begins with #! can be struck out of any script |
| ScriptLaws.LineLimit | pkg/slurm-bridge-operator/parse.go:36-38 | a line of 65535 characters is scanned, a longer one ends the scan |
| ScriptLaws.NodesOfARange | pkg/slurm-bridge-operator/parse.go:92-102 | of a range of nodes the number before the dash is taken |
| LastSetting.LastSettingWins | pkg/slurm-bridge-operator/parse.go:30-124 | for every script: extraction fails exactly when a setting that is reached is invalid, else panics exactly when a bare last parameter is reached, and else every field has the value of the last setting that sets it |
| LastSetting.UnlimitedDoesNotReset | pkg/slurm-bridge-operator/parse.go:82-124 | a later unlimited time leaves the earlier limit |
| LastSetting.LimitSurvivesUnlimited | pkg/slurm-bridge-operator/parse.go:82-124 | a script that asks for five minutes and then for unlimited time is given five minutes |
| ContainerScript.BuildSLURMScript | pkg/slurm-agent/api/slurm.go:475-526 | the script is its directive lines, those of zero left out, and then its commands |
| ContainerScript.RunImage | pkg/slurm-agent/api/slurm.go:511-525 | the lines of the container's commands are appended to the given ones; which they are is stated below |
| ContainerScript.BuildRunCommand | pkg/slurm-agent/api/slurm.go:528-567 | the command is srun, the flags in the source's order, and the place for the image |
| ContainerScript.FlagsAreAskedFor | pkg/slurm-agent/api/slurm.go:541-558 | each flag without a value is given exactly if its option is set |
| ContainerScript.ValuesAreGiven | pkg/slurm-agent/api/slurm.go:528-567 | app, host name and binds are given under their own flag and between quotes exactly if set |
| ContainerScript.CommandReads | pkg/slurm-agent/api/slurm.go:559-567 | the command as written, with flags and without |
| ContainerScript.LocalImageIsVerified | pkg/slurm-agent/api/slurm.go:511-518 | in the script for a local image the last line runs it; directly before stands its verification unless unsigned images are allowed, and then no line verifies anything |
| ContainerScript.OtherImageIsPulled | pkg/slurm-agent/api/slurm.go:519-524 | the script for any other image ends by pulling it under an id, with -U exactly if unsigned ones are allowed, running that id and removing that id |
| ContainerScript.MemoryIsAskedFor | pkg/slurm-agent/api/slurm.go:491-505 | there is a line for memory exactly if some is requested, and it asks for that much |
| ContainerScript.ScriptRoundTrip | pkg/slurm-agent/api/slurm.go:475-526 | for every image and options the operator reads back nodes, cpus and the wall time in 64 bits, and nothing else |
| ContainerScript.RoundTripIsExact | pkg/slurm-bridge-operator/parse.go:30-124 | the round trip is exact if and only if nodes are not negative and the wall time's nanoseconds fit |
| ResourceRequests.GetResourceRequestLabelsForPod | pkg/slurm-bridge-operator/pod.go:164-187 | a label for each positive number and a non-empty array, and no other |
| ResourceRequests.NewSubmitRequest | pkg/slurm-virtual-kubelet/provider.go:74-124 | each number is what its label says, or 0 when the label is missing or no number |
| ResourceRequests.GetSbatchOpts | pkg/slurm-agent/slurm.go:189-229 | the arguments, in order, with the tasks per node given twice; the rows below say which value goes to which option |
| ResourceRequests.ArgIsReadable | pkg/slurm-agent/slurm.go:189-229 | an argument determines its option and value |
| ResourceRequests.ParsableIsFirst | pkg/slurm-agent/slurm.go:190-191 | sbatch is always asked for parsable output |
| ResourceRequests.TextsAreGiven | pkg/slurm-agent/slurm.go:192-228 | partition, user, group, array, job name and directory each go under their own option exactly if not empty |
| ResourceRequests.ArgInSbatchOpts | pkg/slurm-agent/slurm.go:189-229 | for any name and value: the argument is given exactly if it is a non-empty text of that name or a positive number of that name, printed |
| ResourceRequests.RequestsSurvive | pkg/slurm-agent/api/slurm.go:94-107 | for each of nodes, cpus, memory, tasks and tasks per node: sbatch gets the option with v exactly when the specification has that number positive and v is it printed; `--array=v` exactly when it has the array v |
| Submission.Slurm.SubmitJob | pkg/slurm-agent/api/slurm.go:86-115 | undisturbed: a known uid is answered from the table, an unknown one is submitted and stored, a failed one is not |
| Submission.Slurm.Load | pkg/slurm-agent/api/slurm.go:92 | the table decides whether to submit |
| Submission.Slurm.Store | pkg/slurm-agent/api/slurm.go:111-115 | the id is stored before it is answered |
| Submission.Provider.BeginCreatePod | pkg/slurm-virtual-kubelet/provider.go:35-48 | only an unlabelled size-car pod with one container and one command leads to a request |
| Submission.Provider.FinishCreatePod | pkg/slurm-virtual-kubelet/provider.go:49-60 | the printed id is remembered and put on the pod unless it has one |
| Submission.Provider.UpdatePod | pkg/slurm-virtual-kubelet/provider.go:144-154 | a label is remembered, a missing one changes nothing |
| Submission.CancelJobs | pkg/slurm-virtual-kubelet/provider.go:167-178 | every number in the list is cancelled up to the first that fails; other parts are skipped |
| Submission.Provider.DeletePod | pkg/slurm-virtual-kubelet/provider.go:156-181 | the pod is forgotten in any case, and the jobs under its id are cancelled |
| Submission.CancelsWhatWasPrinted | pkg/slurm-virtual-kubelet/provider.go:56-178 | the id that CreatePod prints is cancelled as itself |
| Submission.CancelsTheWholeList | pkg/slurm-virtual-kubelet/provider.go:167-178 | of printed ids with commas between them every one is cancelled, in order, up to the first failure |
| Submission.SkipsWhatIsNoNumber | pkg/slurm-virtual-kubelet/provider.go:169-173 | a part that is no number changes nothing |
| SubmissionRuns.WorkersNeverSubmit | pkg/slurm-virtual-kubelet/provider.go:127-142 | in any run only size-car pods reach sbatch |
| SubmissionRuns.SubmittedOnce | pkg/slurm-agent/api/slurm.go:86-115 | with lost replies and retries that do not overlap, and an sbatch that prints the id of what it queues, a pod is submitted at most once and every answer names that job |
| SubmissionRuns.DeletionCancelsTheJobIff | pkg/slurm-virtual-kubelet/provider.go:144-181 | without overlaps and with printed ids, deleting a size-car pod cancels exactly its job if and only if the kubelet knows an id for it or it has no job, and nothing otherwise |
| SubmissionRuns.RequestArrivesIff | pkg/slurm-virtual-kubelet/provider.go:35-48 | a step brings the agent a request exactly if it is CreatePod of an unlabelled size-car pod that is no daemon set's, with one non-empty command |
| SubmissionRuns.KnowsIff | pkg/slurm-virtual-kubelet/provider.go:49-181 | after any step the kubelet knows this id for a pod exactly if an answer or a label has just brought it, or it knew it and the pod was not deleted and nothing else brought |
| SubmissionRuns.LabelledIff | pkg/slurm-virtual-kubelet/provider.go:49-60 | a size car keeps its label until an answer that reaches the API server gives it the answered id |
| SubmissionRuns.AnsweredCanBeCancelled | pkg/slurm-virtual-kubelet/provider.go:49-181 | deleting a pod right after its answer cancels just the answered job |
| Overlaps.DeletionCancelsOneOfItsJobs | pkg/slurm-virtual-kubelet/provider.go:144-181 | in every run deleting a size-car pod cancels nothing if no id is known for it, and else exactly one job, which is its own |
| Overlaps.LostReplyLeavesTheJob | pkg/slurm-virtual-kubelet/provider.go:156-165 | a run with a lost reply after which deleting the pod cancels nothing while its job is queued |
| Overlaps.StoredIsFinal | pkg/slurm-agent/api/slurm.go:86-115 | once a job is stored and no request for the pod stands between its look into the table and its store, no later requests, overlapping ones included, submit again or change the answer |
| Overlaps.AnswerCanChangeIff | pkg/slurm-agent/api/slurm.go:92-113 | in any world a stored answer can change exactly if a request for the pod has looked in vain or is about to store another id |
| Overlaps.SecondSubmissionIff | pkg/slurm-agent/api/slurm.go:92-113 | after every run, overlapping and garbled ones included: sbatch can run once more for a pod exactly if it is a size car that may be submitted and has no stored job, or a request for it has looked in vain |
| Overlaps.OverlapSubmitsTwice | pkg/slurm-agent/api/slurm.go:92-113 | a run in which two requests both look before either stores: two jobs, and the stored answer changes |
| Overlaps.GarbledOutputSubmitsTwice | pkg/slurm-agent/slurm.go:167-187 | a queued job whose id is not printed as a number is submitted again by the next try |
| JobPhase.SlurmState2PodPhase | pkg/slurm-virtual-kubelet/status.go:21-43 | the fold gives the phase defined by which states occur |
| JobPhase.IsAllSlurmJobEnded | pkg/slurm-virtual-kubelet/status.go:45-53 | ended means no unknown, pending or running job |
| JobPhase.PodPhase | pkg/slurm-virtual-kubelet/status.go:62-77 | no jobs at all are Unknown, not Succeeded |
| JobPhase.OrderDoesNotMatter | pkg/slurm-virtual-kubelet/status.go:21-43 | the phase does not depend on the order of the jobs |
| JobPhase.PhaseOfTexts | pkg/slurm-agent/api/slurm.go:444-447 | each phase in terms of the printed states; a state the agent does not know never makes the phase terminal |
| Operator.SlurmBridgeJob.UpdateSBJStatus | pkg/slurm-bridge-operator/slurmbridgejob_controller.go:246-294 | the pod's phase is taken over even if its message is no JSON; the sub-jobs are the recorded infos |
| Operator.RecordedIsTheLast | pkg/slurm-bridge-operator/slurmbridgejob_controller.go:271-291 | the last info of an id is what is recorded under it |
| Operator.OtherIdsStay | pkg/slurm-bridge-operator/slurmbridgejob_controller.go:271-291 | entries of ids that are not reported stay |
| Operator.SlurmBridgeJob.ReconcileSizeCarPods | pkg/slurm-bridge-operator/slurmbridgejob_controller.go:296-319 | a pod is created only without recorded sub-jobs; with them the state becomes Failed and there is no pod |
| Operator.SlurmBridgeJob.ReconcileWorkerPods | pkg/slurm-bridge-operator/slurmbridgejob_controller.go:365-402 | what is created, and when it is an error or nothing to do yet |
| Operator.SlurmBridgeJob.ReconcileSlurmBridgeJob | pkg/slurm-bridge-operator/slurmbridgejob_controller.go:211-244 | the pass over an unfinished job with every call's failure, the nil pod included |
| Operator.SlurmBridgeJob.ReconcileSlurmBridgeJobResult | pkg/slurm-bridge-operator/slurmbridgejob_controller.go:321-363 | when the fetch job is created, and which status its progress gives |
| Operator.SlurmBridgeJob.Reconcile | pkg/slurm-bridge-operator/slurmbridgejob_controller.go:130-149 | which of the two a pass does, or neither |
| Operator.ReconcileRequest | pkg/slurm-bridge-operator/slurmbridgejob_controller.go:104-163 | a pass works on a copy, which is stored exactly if no step failed; what it created stays; a job being deleted is left alone |
| OperatorSteps.CarAppearsIff | pkg/slurm-bridge-operator/slurmbridgejob_controller.go:296-319 | a step makes a size-car pod exactly if it is a pass over a job that is unfinished, not being deleted and without sub-jobs, whose calls get that far |
| OperatorSteps.WorkerAppearsIff | pkg/slurm-bridge-operator/slurmbridgejob_controller.go:365-402 | a step makes a worker pod exactly if it is such a pass and the size-car pod has an id and names jobs |
| OperatorSteps.JobPassStoresIff | pkg/slurm-bridge-operator/slurmbridgejob_controller.go:211-244 | a pass over an unfinished job stores its status exactly if there is a readable pod, the worker is settled and no call fails; what it stores |
| OperatorSteps.FetchJobAppearsIff | pkg/slurm-bridge-operator/slurmbridgejob_controller.go:321-348 | a step makes a fetch job exactly if it is a pass over an ended job with sub-jobs that asks for its result, is not being deleted, and has no fetch job, none on record, and no failing call before |
| OperatorSteps.FetchJobIsRecorded | pkg/slurm-bridge-operator/slurmbridgejob_controller.go:341-348 | without failures such a pass makes one and records it as Running, and changes nothing else |
| OperatorSteps.FetchProgressIsRecorded | pkg/slurm-bridge-operator/slurmbridgejob_controller.go:349-363 | the job's success is recorded as Succeeded, else its failure as Failed, else Running |
| OperatorSteps.EndedJobIsLeftAlone | pkg/slurm-bridge-operator/slurmbridgejob_controller.go:131-139 | an ended job that asks for no result, or has its result fetched, is left as it is |
| OperatorSteps.NeverAskedNeverFetched | pkg/slurm-bridge-operator/slurmbridgejob_controller.go:131-133 | a run in which the job never asks for its result makes no fetch job |
| OperatorRuns.StatusOnlyAdvances | pkg/slurm-bridge-operator/slurmbridgejob_controller.go:126-163 | over all runs: a Succeeded or Failed state and its sub-jobs stay, recorded sub-jobs are not forgotten, fetching is not taken back, and a recorded fetch job's end stays |
| OperatorRuns.FetchingMeansEnded | pkg/slurm-bridge-operator/slurmbridgejob_controller.go:321-363 | fetching, or a fetch job, implies a terminal state with sub-jobs recorded |
| OperatorRuns.StoredPassFollowsThePod | pkg/slurm-bridge-operator/slurmbridgejob_controller.go:246-294 | a stored pass leaves the pod's phase and the last info of each job on record |
| OperatorRuns.WorkerFollowsSubmission | pkg/slurm-bridge-operator/slurmbridgejob_controller.go:365-402 | every run that ends with a worker pod has an earlier moment at which the job was unfinished and its size-car pod had an id and named its jobs |
| OperatorRuns.NoCarAfterSubjobs | pkg/slurm-bridge-operator/slurmbridgejob_controller.go:296-304 | once sub-jobs are recorded a size-car pod that disappears is never created again |
| OperatorRuns.WedgedPass | pkg/slurm-bridge-operator/slurmbridgejob_controller.go:221-230 | for a lost pod of an unfinished job with sub-jobs every pass leaves the world as it is, having decided on Failed |
| OperatorRuns.WedgeIsReached | pkg/slurm-bridge-operator/slurmbridgejob_controller.go:296-304 | from every new job a run of four steps gets there |
| OperatorRuns.CanFinishIff | pkg/slurm-bridge-operator/slurmbridgejob_controller.go:211-244 | an unfinished job can still reach a terminal state exactly if it is not being deleted and has its size-car pod or no sub-jobs yet |
| OperatorRuns.FetchJobCreatedOnce | pkg/slurm-bridge-operator/slurmbridgejob_controller.go:328-348 | if passes that create the fetch job store their status, it is created at most once, and is on record exactly if it was |
| OperatorRuns.SecondFetchJobIff | pkg/slurm-bridge-operator/slurmbridgejob_controller.go:328-348 | after a fetch job was created another can follow exactly if the first is not on record and the job is not being deleted |
| OperatorRuns.FetchOutcomeIsFinal | pkg/slurm-bridge-operator/slurmbridgejob_controller.go:135-139 | with stored creations a finished fetch status never changes |
| OperatorRuns.FetchOutcomeCanChangeIff | pkg/slurm-bridge-operator/slurmbridgejob_controller.go:135-139 | in every reachable world a finished fetch status can change exactly if fetching is not on record and the job is not being deleted |
| OperatorRuns.LostReplyCreatesTwice | pkg/slurm-bridge-operator/slurmbridgejob_controller.go:341-348 | from every world about to create the fetch job, a lost reply and a lost job make two of them, and a finished status reverts |
| OperatorRuns.TwoFetchJobsAreReached | pkg/slurm-bridge-operator/slurmbridgejob_controller.go:328-348 | from every new job a run gets there, ending with two fetch jobs created |
| Partitions.Contains | pkg/configurator/configurator.go:325-333 | membership |
| Partitions.NotIn | pkg/configurator/configurator.go:312-322 | the elements of the first list that are not in the second, in order |
| Partitions.MinusHas | pkg/configurator/configurator.go:311-322 | an element is in the difference exactly if it is in the first list and not in the second |
| Partitions.MinusAppend | pkg/configurator/configurator.go:312-322 | the difference is taken element by element, in order and with repetitions |
| Partitions.Configurator.ReconcileCreateNodeForPartition | pkg/configurator/configurator.go:151-171 | which pods exist after creating until the first failure |
| Partitions.Configurator.ReconcileDeleteControllingPod | pkg/configurator/configurator.go:173-184 | which pods exist after deleting until the first failure, a missing pod being one |
| Partitions.Configurator.Reconcile | pkg/configurator/configurator.go:120-149 | nothing is deleted unless everything was created |
| Partitions.CreatedMeans | pkg/configurator/configurator.go:151-171 | if creating succeeds, every partition has its pod, got or created by a call that succeeded |
| Partitions.DeletionComesLast | pkg/configurator/configurator.go:120-149 | if any pod is deleted, the nodes were listed and every wanted partition that is not listed has its pod without a failure |
| Partitions.NeverFurtherAway | pkg/configurator/configurator.go:120-184 | for any listing and any failures the difference between pods and wanted partitions never grows |
| Partitions.OnePassIsEnough | pkg/configurator/configurator.go:120-149 | with a true listing and no failures one pass leaves exactly the wanted pods and touches no others |
| Partitions.NextPassDoesNothing | pkg/configurator/configurator.go:133-143 | after that there is nothing to create or delete |
| Partitions.PassSucceedsIff | pkg/configurator/configurator.go:173-184 | without failing calls a pass succeeds exactly if every superfluous node is listed once and still has its pod |

## Left out

- Follower in inotify mode: an append between the end-of-file read and the call of Watch raises no event there, so wake-ups are claimed for polling only.
- Rate limit in the follower: after a refused pour it seeks to the end of the file and drops data by design.
- Named pipes, following without Follow, truncation, rotation, deletion and reopening of the followed file, and a start beyond the end of the file.
- The Deleted notification, a stat that fails, and a poller that is started twice after a reopen.
- The ticker of the agent's TailFile loop, and errors of its Send; a close request and a cancelled context are steps of `TailStream`.
- Lines that carry an error (the rate limit's message ends readTail).
- TrackerRuns.CountsAreExact: does not model the kernel dropping a watch by itself, nor a Cleanup without a watch.
- Path cleaning, and a watcher whose channels are closed.
- LeakyBucket.PourIsExact: levels are real numbers, so floating-point rounding is not captured; the clock does not go back, times passed fit a 64-bit duration, and the leak interval is positive.
- BucketStore.EvictionIsUnobservableIff: the repository has no user of the store; the one assumed takes a key's bucket or a new one, pours, and puts it back, with one size and interval. A duration that does not fit becomes the least int64, as on amd64.
- Serialisation of buckets, TimeToDrain and TimeSinceLastUpdate.
- SbatchScript.ExtractBatchResourcesFromScript: the scanner's limit on a line is counted in characters, and text that is not valid UTF-8 is not modelled.
- parseArrayLen, affinities, default resources and the pod's resource list.
- ContainerScript.BuildRunCommand: options are put into a format as they are; what fmt.Sprintf makes of a percent sign in them is not modelled, only its copying of what precedes the first verb, and the random name of a pulled image is a parameter.
- ContainerScript.ScriptRoundTrip: the memory of a request is printed as `--mem`, which extraction does not know, so it is not read back.
- ResourceRequests: label names are constructors, hence different from each other; the agent's copying of the request's fields is the identity.
- SubmissionRuns.SubmittedOnce: the agent is not restarted; overlapping requests and garbled output are the subject of `Overlaps`.
- Labels of size-car pods are set by the kubelet only; a worker pod inherits the label of its size-car pod, and what deleting it cancels is not claimed.
- SubmitJobContainer, CancelJob, JobInfo, JobSteps, Resources and the other calls of the agent, and the parsers of sacct and scontrol output.
- The operator's cache of objects is taken as current and a pass as one step: each object is read at most once in a pass and created only if it was not found, so other parties' changes can be moved before or after it.
- The endpoint annotation, most fields of a sub-job, events, validation and defaults of a SlurmBridgeJob.
- OperatorRuns.CanFinishIff: follows the code, in which the pass panics before it can store Failed; recovery from the panic by the controller library only repeats the pass.
- The operator always writes the status, since it compares a struct with a pointer; a write that changes nothing is not told apart from none.
- Container statuses, pod conditions and start times in the kubelet.
- Partitions.NeverFurtherAway: other parties do not create or delete pods during a pass.
- gRPC, the Kubernetes client and informers, exec of the Slurm tools, logging, tracing, TLS and flags.
