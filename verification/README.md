# youtube-clip-discord, modelled in Dafny

The bot plays a random few seconds of a YouTube channel's back catalog into a
Discord voice channel. This project models its core in three parts:

- **The clip selector** (`Youtube`, from `src/youtube.ts`). The catalog is
  laid end to end on one timeline, and each video is tagged with the offset
  where it starts. A random second of the timeline is drawn. The video is the
  last one starting at or before that second (`reverse().find`). The start
  point is the draw's offset inside the video, rolled back when too little of
  the video remains, and clamped to 0 when the video is shorter than the
  request. `returnRandomClip` hands back the cached file name, that start
  point and the *desired* length.
- **The status announcer** (`Status`, from `timeout` and `setPlaying` in
  `src/index.ts`). Showing a title cancels the timer in the single slot,
  arms a new one and, once that timer settles, reverts to the channel's own
  title unless the timer was cancelled. Each timer and its suspended caller
  go Pending → Settled(reason) → Done(reason).
- **The per-guild play queue** (`PlayQueue` and `QueueProofs`, from
  `queueAudio` and `joinAndPlayQueue` in `src/index.ts`). It is a transition
  system whose steps are the stretches of code between awaits:
  - a `queueAudio` call, which appends the job. On an empty queue it also
    starts the guild's drain loop and runs that loop up to its first play;
  - a player going idle, which resumes its loop;
  - a player error, which aborts its loop;
  - a status-timer event.

  Voice connections, players and the file system are opaque. The model
  records what was asked of them in a trace of events.

`Math.random()` is a parameter, the fraction `num/den` with `num < den`, so
every function is deterministic. The member voice channels seen by a stretch
of the loop and whether the client is logged in are parameters too (`Env`).

In these places the model follows the code as written, even where it looks
unintended:

- On roll-back the computed `clipLenth` keeps its pre-roll-back value
  (`src/youtube.ts:175-179`). Only the clamp recomputes it. The length
  reported to the caller is always `desiredClipLength`
  (`src/youtube.ts:200`). `Youtube.RollBackScenario` shows both.
- An empty catalog is the only way the selector fails. A catalog whose videos
  all last 0 s selects the last video with start 0
  (`Youtube.AllZeroSelectsLast`).
- `connectedChannel` is declared but never assigned (`src/index.ts:160,165`).
  So every job whose member is in a voice channel destroys the previous
  connection and joins afresh, even when the channel is the same.
- The play await (`src/index.ts:174`) is not guarded. A player error rejects
  it and ends the loop without the delete, the shift or the destroy. The
  guild's queue is then stuck behind the failed job for as long as the
  process keeps running: later
  `queueAudio` calls only append, and nothing drains it
  (`QueueProofs.StuckAlongRuns`).
- A job whose member is in no voice channel is not played. It is cleaned up
  and shifted off, and the loop goes on.
- `rm(...)` is not awaited, so the delete is only the request, recorded as a
  `Cleaned` event. Its failure is not observed by the loop.

## Model

| member | source | states |
|---|---|---|
| `Youtube.Accumulate` | src/youtube.ts:156-168 | every entry carries its id and duration and starts at the sum of the durations before it; the timeline ends at the sum of all durations |
| `Youtube.RandomTime` | src/youtube.ts:170 | the draw is below the total on a non-empty timeline and 0 on an empty one |
| `Youtube.RandomTimeReachesEverySecond` | src/youtube.ts:170 | every second of a non-empty timeline is the draw for some value of Math.random() |
| `Youtube.Reverse` | src/youtube.ts:172 | reversal keeps the length and puts element i at position n-1-i |
| `Youtube.FindStartedBy` | src/youtube.ts:172 | find returns the first entry starting at or before the draw, and every entry before it starts later; None only when every entry starts later |
| `Youtube.SelectVideo` | src/youtube.ts:172-173 | reverse-then-find picks the last entry starting at or before the draw; it finds nothing exactly when every entry starts after the draw |
| `Youtube.ClipAt` | src/youtube.ts:174-189 | the start is the raw offset unless too little remains; then it is rolled back to duration minus desired, or clamped to 0 with length the whole video; the length is not recomputed on roll-back; start and length stay within the video |
| `Youtube.SelectRandomVideoClip` | src/youtube.ts:155-190 | fails exactly on an empty catalog; otherwise returns the selected entry (last one starting by the draw) with exactly the start and length `Youtube.ClipAt` gives for that entry at the draw, inside that video, a full desired-length window when the video is long enough, and the whole video when it is shorter |
| `Youtube.PickedEntry` | src/youtube.ts:172-174 | the last timeline entry starting by the draw is the selected catalog entry, and the draw lies within it |
| `Youtube.SelectedCoversDraw` | src/youtube.ts:170-172 | on a non-empty timeline an entry is selected exactly when the draw falls in its interval [start, start+duration), so selected entries have positive duration |
| `Youtube.SelectedUnique` | src/youtube.ts:172 | at most one entry is selected by a draw |
| `Youtube.AllZeroSelectsLast` | src/youtube.ts:155-190 | with every video 0 s long the draw is 0 and the last video is returned with start 0 and length 0 |
| `Youtube.ReturnRandomClip` | src/youtube.ts:192-203 | fails exactly on an empty catalog with "Failed to select a video"; otherwise the file is `config/<id>.opus` of the selected video, the length is the desired length and the start is the one `Youtube.ClipAt` gives for the selected video at the draw |
| `Youtube.RollBackScenario` | src/youtube.ts:174-200 | on [A 30 s, B 10 s] with a 10 s request, draws 25 and 35 roll back to starts 20 and 0 with computed length 5, and the reported length is still 10 |
| `Status.Cancel` | src/index.ts:65-68 | cancelling settles a pending promise with the reason and leaves a settled one and every other timer unchanged |
| `Status.SetPlaying` | src/index.ts:78-98 | without a user nothing changes; with a title the title is shown, every armed timer is cancelled with "reset" and a new armed timer fills the slot; without a title the default activity is shown at once; the invariant is kept |
| `Status.Expire` | src/index.ts:70-73 | the timeout settles only its own timer, with no reason, and keeps the invariant |
| `Status.Resume` | src/index.ts:91-98 | the caller reverts to the channel title exactly when its promise was not settled by "reset", marks its timer done and keeps the invariant |
| `Status.Apply` | src/index.ts:60-98 | each enabled announcer event keeps the single-slot invariant and never forgets a timer |
| `Status.RunKeepsInv` | src/index.ts:76-98 | along any run of events only the slot's timer can be armed and the slot names an existing timer |
| `Status.CancelledStaysCancelled` | src/index.ts:83-98 | a timer settled with "reset" stays so along any run, so its caller never reverts the activity |
| `Status.SecondAnnouncementWins` | src/index.ts:83-98 | announcing X then Y cancels X's timer, leaves only Y's armed, and X's caller resuming leaves Y on show |
| `PlayQueue.Advance` | src/index.ts:163-175 | a stretch from the loop's top cleans the jobs whose member is in no voice channel, in order; then it either leaves with the queue empty and the held connection destroyed, or at the first member in a channel destroys the old connection, joins a fresh one there and starts playing that job |
| `PlayQueue.Finish` | src/index.ts:176-183 | a stretch from the cleanup cleans the head first and always shortens the queue; otherwise as for the loop's top |
| `PlayQueue.CleanedHeadSettles` | src/index.ts:176-182 | cleaning the head and then running the loop body over the rest is a stretch of the whole queue |
| `PlayQueue.Commit` | src/index.ts:162-183 | the guild's queue becomes what the stretch left and every other guild's queue is unchanged; the trace only grows, by the stretch's events; every other loop survives and no loop appears but the suspended one; when no other loop serves the guild, it has a loop afterwards exactly when the stretch suspended; a suspended loop uses one fresh connection id and, with a user and a non-empty title, shows that title; the announcer invariant is kept |
| `PlayQueue.Enqueue` | src/index.ts:186-192 | the job is recorded in the trace and put at the end of its guild's queue; no other queue, loop or connection changes |
| `PlayQueue.QueueAudio` | src/index.ts:186-195 | on a non-empty queue the job is only appended; on an empty one a loop is created exactly when the member is in a voice channel, holding a fresh connection to that channel and playing this job; other guilds' queues are untouched |
| `PlayQueue.PlayIdle` | src/index.ts:110-117 | the idle player resumes its loop, which first cleans up the job played and shortens its queue; other guilds' queues are untouched |
| `PlayQueue.PlayError` | src/index.ts:119-124 | the error aborts the loop where it is: no queue, trace, connection or announcer change |
| `PlayQueue.Next` | src/index.ts:156-195 | no step rewrites history: the trace only grows |
| `QueueProofs.InitInv` | src/index.ts:53 | the empty world satisfies the invariant |
| `QueueProofs.SettlesJobs` | src/index.ts:176-181 | a stretch cleans exactly the first jobs of its own guild's queue, in order, and queues none |
| `QueueProofs.SettlesConns` | src/index.ts:165-172 | a stretch destroys the connection it held and, if it suspends, joins and uses exactly one fresh one |
| `QueueProofs.CommitKeepsInv` | src/index.ts:162-183 | committing any stretch keeps one loop per guild, loops at their queue's head, FIFO, and each connection joined once, used for one job and destroyed at most once |
| `QueueProofs.QueueAudioKeepsInv` | src/index.ts:186-195 | queueAudio keeps the invariant |
| `QueueProofs.PlayIdleKeepsInv` | src/index.ts:110-117 | resuming after an idle player keeps the invariant |
| `QueueProofs.PlayErrorKeepsInv` | src/index.ts:119-124 | aborting a loop keeps the invariant |
| `QueueProofs.StatusStepKeepsInv` | src/index.ts:60-98 | a status-timer event keeps the invariant |
| `QueueProofs.NextKeepsInv` | src/index.ts:156-195 | every step keeps the invariant |
| `QueueProofs.ReachableInv` | src/index.ts:53-195 | every reachable world satisfies the invariant: FIFO per guild, at most one loop per guild and one exactly while its queue is non-empty, and every connection no loop holds destroyed exactly once |
| `QueueProofs.QueueAudioSingleDrain` | src/index.ts:189-193 | queueAudio for a guild that has a loop only appends, and one that starts a loop finds none for the guild |
| `QueueProofs.IdleGuildIsClean` | src/index.ts:181-183 | a guild with no loop has an empty queue, and every job queued for it has been cleaned up in order |
| `QueueProofs.StuckIsForever` | src/index.ts:174 | after a player error the aborted loop stays whatever happens next: the failed job heads its queue, no job of its guild is cleaned up, its connection is never destroyed, and queueAudio for the guild only appends |
| `QueueProofs.StuckAlongRuns` | src/index.ts:174 | along any run after a player error the guild's queue stays headed by the failed job, nothing of it is cleaned up and its connection is never destroyed |

## Left out

- Fetching the channel, its uploads and video details from the YouTube API,
  downloading and caching audio (`ytdl`, `fs`), and transcoding with ffmpeg.
  These are I/O, so the catalog is a parameter.
- ISO 8601 duration parsing: each video's duration is a whole number of
  seconds.
- Floating point: `Math.random()` is an exact fraction, and the rounding of
  `Math.random() * total` before `Math.floor` is not modelled. Durations are
  whole seconds, so the inner `Math.floor(totalDuration)` is the identity.
- Environment parsing (`COMMAND_PREFIX`, `CLIP_DURATION`, `STATUS_TIMEOUT`,
  …). The prefix and channel title are configuration, and the desired length
  is any integer.
- The length of `STATUS_TIMEOUT`: timers fire in any order the run chooses,
  because time is not modelled.
- `youtube.channelTitle`, read by `setPlaying`, is not defined by the
  YouTube manager in this source. The model takes the channel title as
  configuration.
- `Status.Run` drops an event that cannot happen in the state reached (a
  timer firing twice, a caller resuming early). Real runs never contain one.
- `client.user` is read once per `setPlaying` call. It is not re-read after
  the await.
- Discord voice and players (`joinVoiceChannel`, `createAudioPlayer`,
  subscriptions): their calls are events in the trace. The audio itself,
  `player.stop()` and `unsubscribe()` are not modelled.
- Real asynchrony: each stretch between awaits is one atomic step. Node's
  event-loop scheduling is the choice of the next step.
- Slash-command registration, embeds, `prepareAudio`, the daily cache refresh
  (04:00), client start-up and `src/twitch-event.ts` are outside the core.
- A rejection that escapes `queueAudio`, and a rejected `rm`, are not
  modelled. Nothing in the source handles them, and under Node's default mode
  they end the process.
- Console logging.
