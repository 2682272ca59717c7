/**
 The per-guild play queue of the bot (`queueAudio` and `joinAndPlayQueue`).

 A map from guild id to a FIFO of jobs. The first job queued on an empty
 queue starts the guild's drain loop, which plays jobs from the head until the
 queue is empty. The loop's only suspension point is `await playAudio(...)`,
 so everything between two awaits is one atomic step here:

 - `Advance` runs the loop body from its top: a job whose member sits in a
   voice channel destroys the previous connection, joins a fresh one and
   starts playing, which suspends the loop; any other job goes to `Finish`.
 - `Finish` runs the rest of the body: delete the job's temp file, shift it
   off the queue, and either loop again or leave and destroy the connection.

 Voice connections, players and the file system are opaque: the model
 records what was asked of them as events in a trace.
 */
module PlayQueue {
  import opened Wrappers
  import Status

  type GuildId = string
  type MemberId = string
  type ChannelId = string

  /** A guild member: the user and the guild the request came from. */
  datatype Member = Member(id: MemberId, guild: GuildId)

  /** PlayInfo: the requesting member and the prepared clip (ClipInfo). */
  datatype Job = Job(member: Member, tempFilename: string, title: string, videoId: string, startTime: int, duration: int)

  /** A voice connection: one fresh id per joinVoiceChannel call, and the channel it joined. */
  datatype Conn = Conn(id: nat, channel: ChannelId)

  /** What the queue asks of the outside world, in the order it asks. */
  datatype Event =
    | Enqueued(job: Job)                  // queueAudio accepted the job
    | Joined(conn: Conn)                  // joinVoiceChannel
    | PlayStarted(job: Job, conn: Conn)   // playAudio subscribed a player and started it
    | Destroyed(conn: Conn)               // the connection was torn down
    | Cleaned(job: Job)                   // rm(tempFilename) issued and the job shifted off

  /**
   A drain loop, suspended at the play await on `job` over `conn`; `aborted`
   once the player's error rejected that await and ended the loop there.
   */
  datatype Drain = Drain(guild: GuildId, conn: Conn, job: Job, aborted: bool)

  /** Where a stretch of the loop stopped: playing `job` over the fresh `conn`. */
  datatype Pause = Pause(job: Job, conn: Conn)

  /** One atomic stretch of the loop: what it asked for, the queue it left, and where it suspended (None: it left the loop). */
  datatype Outcome = Outcome(events: seq<Event>, remaining: seq<Job>, pause: Option<Pause>)

  /**
   The outside world as one stretch of code sees it: the voice channel each
   member sits in (read at dequeue time), and whether the client is logged in.
   */
  datatype Env = Env(voice: map<Member, ChannelId>, userPresent: bool)

  /**
   The bot's state: the guild queues, the drain loops that exist (suspended
   or aborted), the next connection id, the trace of events, and the
   announcer the loop reports titles to.
   */
  datatype World = World(
    queues: map<GuildId, seq<Job>>,
    drains: seq<Drain>,
    nextConn: nat,
    trace: seq<Event>,
    announcer: Status.Announcer,
    cfg: Status.Config)

  function Init(cfg: Status.Config): World
  {
    World(map[], [], 0, [], Status.Initial(), cfg)
  }

  /** The queue of guild `g`; a guild that never queued anything has the empty queue. */
  function QueueOf(w: World, g: GuildId): seq<Job>
  {
    if g in w.queues then w.queues[g] else []
  }

  /** The events of cleaning up the given jobs, one after another. */
  function CleanEvents(jobs: seq<Job>): seq<Event>
  {
    if |jobs| == 0 then [] else [Cleaned(jobs[0])] + CleanEvents(jobs[1..])
  }

  /** The event of tearing down the connection held, if there is one. */
  function Release(conn: Option<Conn>): seq<Event>
  {
    if conn.Some? then [Destroyed(conn.value)] else []
  }

  /** Joining the job's channel and starting to play the job there. */
  function Connect(p: Pause): seq<Event>
  {
    [Joined(p.conn), PlayStarted(p.job, p.conn)]
  }

  /**
   The shape of one stretch of the loop over `queue` holding `conn`: it
   cleans the first k jobs in order (those from `from` on had no voice
   channel), and then either leaves the loop with the queue empty and the
   connection destroyed, or, at the first job whose member is in a voice
   channel, destroys the connection, joins that channel afresh and plays.
   */
  predicate Settles(queue: seq<Job>, conn: Option<Conn>, voice: map<Member, ChannelId>, next: nat, from: nat, out: Outcome)
  {
    && |out.remaining| <= |queue|
    && (var k := |queue| - |out.remaining|;
        && out.remaining == queue[k..]
        && (out.pause.None? <==> out.remaining == [])
        && (forall j :: from <= j < k ==> queue[j].member !in voice)
        && (out.pause.None? ==> out.events == CleanEvents(queue) + Release(conn))
        && (out.pause.Some? ==>
              && queue[k].member in voice
              && out.pause.value == Pause(queue[k], Conn(next, voice[queue[k].member]))
              && out.events == CleanEvents(queue[..k]) + Release(conn) + Connect(out.pause.value)))
  }

  lemma CleanEventsPrefix(queue: seq<Job>, k: nat)
    requires 1 <= k <= |queue|
    ensures CleanEvents(queue[..k]) == [Cleaned(queue[0])] + CleanEvents(queue[1..][..k - 1])
  {
    assert queue[..k][1..] == queue[1..][..k - 1];
  }

  /**
   The loop body from its top (index.ts:163-175). `connectedChannel` is
   never assigned, so a job whose member is in a voice channel always gets a
   fresh connection, the previous one being destroyed first.
   */
  function Advance(queue: seq<Job>, conn: Option<Conn>, voice: map<Member, ChannelId>, next: nat): (out: Outcome)
    requires |queue| > 0
    ensures Settles(queue, conn, voice, next, 0, out)
    decreases |queue|, 1
  {
    var playInfo := queue[0];
    if playInfo.member in voice then
      var p := Pause(playInfo, Conn(next, voice[playInfo.member]));
      assert queue[..0] == [];
      Outcome(Release(conn) + Connect(p), queue, Some(p))
    else
      Finish(queue, conn, voice, next)
  }

  /**
   The loop body after the play (index.ts:176-183): delete the head's temp
   file, shift it off, and loop while the queue is not empty; on leaving,
   destroy the connection.
   */
  function Finish(queue: seq<Job>, conn: Option<Conn>, voice: map<Member, ChannelId>, next: nat): (out: Outcome)
    requires |queue| > 0
    ensures |out.remaining| < |queue|
    ensures Settles(queue, conn, voice, next, 1, out)
    decreases |queue|, 0
  {
    var rest := queue[1..];
    if |rest| == 0 then
      Outcome([Cleaned(queue[0])] + Release(conn), [], None)
    else
      var out := Advance(rest, conn, voice, next);
      CleanedHeadSettles(queue, conn, voice, next, out);
      Outcome([Cleaned(queue[0])] + out.events, out.remaining, out.pause)
  }

  /** Cleaning up the head and then running a stretch over the rest settles the whole queue from its second job. */
  lemma CleanedHeadSettles(queue: seq<Job>, conn: Option<Conn>, voice: map<Member, ChannelId>, next: nat, out: Outcome)
    requires |queue| > 1 && Settles(queue[1..], conn, voice, next, 0, out)
    ensures Settles(queue, conn, voice, next, 1, Outcome([Cleaned(queue[0])] + out.events, out.remaining, out.pause))
  {
    var k := |queue| - |out.remaining|;
    assert out.remaining == queue[k..];
    CleanEventsPrefix(queue, k);
    assert forall j :: 1 <= j < k ==> queue[j] == queue[1..][j - 1];
    if out.pause.None? {
      assert queue[1..][..k - 1] == queue[1..];
    }
  }

  /**
   Applies a stretch of guild `g`'s loop to the world: the queue becomes
   what the stretch left, its events join the trace, and the loop either
   ends (its entry `i` is dropped) or suspends in entry `i` (appended when
   `i` is the length) after reporting the title to the announcer.
   */
  function Commit(w: World, g: GuildId, out: Outcome, env: Env, i: nat): (r: World)
    requires i <= |w.drains|
    requires out.pause.Some? ==> out.pause.value.conn.id == w.nextConn
    ensures QueueOf(r, g) == out.remaining
    ensures forall h :: h != g ==> QueueOf(r, h) == QueueOf(w, h)
    ensures w.trace <= r.trace && r.trace[|w.trace|..] == out.events && r.cfg == w.cfg
    ensures forall j :: 0 <= j < |w.drains| && j != i ==> w.drains[j] in r.drains
    ensures forall d :: d in r.drains && !(out.pause.Some? && d == Drain(g, out.pause.value.conn, out.pause.value.job, false)) ==>
      exists j :: 0 <= j < |w.drains| && j != i && w.drains[j] == d
    ensures (forall j :: 0 <= j < |w.drains| && j != i ==> w.drains[j].guild != g) ==>
      ((exists j :: 0 <= j < |r.drains| && r.drains[j].guild == g) <==> out.pause.Some?)
    ensures out.pause.None? ==> r.nextConn == w.nextConn && r.announcer == w.announcer
    ensures out.pause.Some? ==>
      && Drain(g, out.pause.value.conn, out.pause.value.job, false) in r.drains
      && r.nextConn == w.nextConn + 1
    ensures out.pause.Some? && env.userPresent && out.pause.value.job.title != "" ==>
      r.announcer.status == Some(Status.ActivityName(out.pause.value.job.title, w.cfg))
    ensures Status.Inv(w.announcer) ==> Status.Inv(r.announcer)
  {
    var w1 := w.(queues := w.queues[g := out.remaining], trace := w.trace + out.events);
    match out.pause
    case None =>
      DropKeepsOthers(w.drains, i);
      w1.(drains := if i < |w.drains| then w.drains[..i] + w.drains[i + 1..] else w.drains)
    case Some(p) =>
      var d := Drain(g, p.conn, p.job, false);
      ReplaceKeepsOthers(w.drains, i, d);
      w1.(drains := if i < |w.drains| then w.drains[i := d] else w.drains + [d],
          nextConn := w.nextConn + 1,
          announcer := Status.SetPlaying(w.announcer, Some(p.job.title), env.userPresent, w.cfg))
  }

  /** Dropping entry `i` (nothing, when `i` is the length) keeps exactly the other entries. */
  lemma DropKeepsOthers<T>(s: seq<T>, i: nat)
    requires i <= |s|
    ensures var r := if i < |s| then s[..i] + s[i + 1..] else s;
      && (forall j :: 0 <= j < |s| && j != i ==> s[j] in r)
      && (forall x :: x in r ==> exists j :: 0 <= j < |s| && j != i && s[j] == x)
  {
    if i < |s| {
      var r := s[..i] + s[i + 1..];
      forall j | 0 <= j < |s| && j != i
        ensures s[j] in r
      {
        if j < i { assert r[j] == s[j]; } else { assert r[j - 1] == s[j]; }
      }
      forall x | x in r
        ensures exists j :: 0 <= j < |s| && j != i && s[j] == x
      {
        var m :| 0 <= m < |r| && r[m] == x;
        if m < i { assert s[m] == x; } else { assert s[m + 1] == x; }
      }
    }
  }

  /** Putting `d` at entry `i` (appending it when `i` is the length) keeps exactly the other entries besides `d`. */
  lemma ReplaceKeepsOthers<T>(s: seq<T>, i: nat, d: T)
    requires i <= |s|
    ensures var r := if i < |s| then s[i := d] else s + [d];
      && d in r
      && (forall j :: 0 <= j < |s| && j != i ==> s[j] in r)
      && (forall x :: x in r && x != d ==> exists j :: 0 <= j < |s| && j != i && s[j] == x)
  {
    var r := if i < |s| then s[i := d] else s + [d];
    assert r[i] == d;
    forall j | 0 <= j < |s| && j != i
      ensures s[j] in r
    {
      assert r[j] == s[j];
    }
    forall x | x in r && x != d
      ensures exists j :: 0 <= j < |s| && j != i && s[j] == x
    {
      var m :| 0 <= m < |r| && r[m] == x;
      assert m != i && s[m] == x;
    }
  }

  /** queueAudio's first half: record the job in the trace and put it at the end of its guild's queue (a one-job queue when it had none). */
  function Enqueue(w: World, job: Job): (r: World)
    ensures r.drains == w.drains && r.nextConn == w.nextConn && r.announcer == w.announcer && r.cfg == w.cfg
    ensures r.trace == w.trace + [Enqueued(job)]
    ensures QueueOf(r, job.member.guild) == QueueOf(w, job.member.guild) + [job]
    ensures forall g :: g != job.member.guild ==> QueueOf(r, g) == QueueOf(w, g)
  {
    w.(trace := w.trace + [Enqueued(job)],
       queues := w.queues[job.member.guild := QueueOf(w, job.member.guild) + [job]])
  }

  /**
   queueAudio(member, clipInfo): on a queue that exists and is not empty the
   job is only appended; otherwise the guild gets a queue holding just this
   job and its drain loop starts and runs up to its first await.
   */
  function QueueAudio(w: World, job: Job, env: Env): (r: World)
    ensures r.cfg == w.cfg
    ensures |r.trace| > |w.trace| && r.trace[..|w.trace| + 1] == w.trace + [Enqueued(job)]
    ensures forall g :: g != job.member.guild ==> QueueOf(r, g) == QueueOf(w, g)
    ensures |QueueOf(w, job.member.guild)| > 0 ==>
      && QueueOf(r, job.member.guild) == QueueOf(w, job.member.guild) + [job]
      && r.drains == w.drains && r.nextConn == w.nextConn && r.announcer == w.announcer
      && r.trace == w.trace + [Enqueued(job)]
    ensures |QueueOf(w, job.member.guild)| == 0 ==>
      && |QueueOf(r, job.member.guild)| <= 1
      && w.drains <= r.drains && |r.drains| <= |w.drains| + 1
      && (|r.drains| > |w.drains| <==> job.member in env.voice)
      && (|r.drains| > |w.drains| ==>
            r.drains[|w.drains|] == Drain(job.member.guild, Conn(w.nextConn, env.voice[job.member]), job, false))
  {
    var g := job.member.guild;
    var queued := Enqueue(w, job);
    if |QueueOf(w, g)| > 0 then queued
    else
      assert QueueOf(queued, g) == [job];
      var out := Advance(QueueOf(queued, g), None, env.voice, w.nextConn);
      assert [job][1..] == [];
      var r := Commit(queued, g, out, env, |w.drains|);
      assert r.trace == (w.trace + [Enqueued(job)]) + out.events;
      r
  }

  /**
   The player of drain `i` went idle, resolving the play await: the loop
   goes on from the cleanup of the job it played.
   */
  function PlayIdle(w: World, i: nat, env: Env): (r: World)
    requires i < |w.drains| && !w.drains[i].aborted && |QueueOf(w, w.drains[i].guild)| > 0
    ensures r.cfg == w.cfg
    ensures |r.trace| > |w.trace| && r.trace[..|w.trace| + 1] == w.trace + [Cleaned(QueueOf(w, w.drains[i].guild)[0])]
    ensures |QueueOf(r, w.drains[i].guild)| < |QueueOf(w, w.drains[i].guild)|
    ensures forall g :: g != w.drains[i].guild ==> QueueOf(r, g) == QueueOf(w, g)
  {
    var d := w.drains[i];
    var out := Finish(QueueOf(w, d.guild), Some(d.conn), env.voice, w.nextConn);
    var r := Commit(w, d.guild, out, env, i);
    assert r.trace == w.trace + out.events;
    assert out.events[0] == Cleaned(QueueOf(w, d.guild)[0]);
    assert r.trace[..|w.trace| + 1] == w.trace + [out.events[0]];
    r
  }

  /**
   The player of drain `i` emitted an error, rejecting the play await,
   which nothing catches: the loop ends there, with no delete, no shift and
   no destroy.
   */
  function PlayError(w: World, i: nat): (r: World)
    requires i < |w.drains| && !w.drains[i].aborted
    ensures r.queues == w.queues && r.trace == w.trace && r.nextConn == w.nextConn
    ensures r.announcer == w.announcer && r.cfg == w.cfg
    ensures |r.drains| == |w.drains| && r.drains[i].aborted
    ensures r.drains[i] == w.drains[i].(aborted := true)
    ensures forall j :: 0 <= j < |w.drains| && j != i ==> r.drains[j] == w.drains[j]
  {
    w.(drains := w.drains[i := w.drains[i].(aborted := true)])
  }

  /** The things that can happen next. */
  datatype Step =
    | QueueAudioStep(job: Job, env: Env)    // a trigger calls queueAudio
    | PlayIdleStep(i: nat, env: Env)        // drain i's player goes idle
    | PlayErrorStep(i: nat)                 // drain i's player errors
    | StatusStep(e: Status.Event)           // setPlaying from elsewhere, or a status timer

  predicate Enabled(w: World, s: Step)
  {
    match s
    case QueueAudioStep(_, _) => true
    case PlayIdleStep(i, _) => i < |w.drains| && !w.drains[i].aborted && |QueueOf(w, w.drains[i].guild)| > 0
    case PlayErrorStep(i) => i < |w.drains| && !w.drains[i].aborted
    case StatusStep(e) => Status.Enabled(w.announcer, e)
  }

  function Next(w: World, s: Step): (r: World)
    requires Enabled(w, s)
    ensures r.cfg == w.cfg
    ensures |r.trace| >= |w.trace| && r.trace[..|w.trace|] == w.trace
  {
    match s
    case QueueAudioStep(job, env) =>
      var r := QueueAudio(w, job, env);
      assert r.trace[..|w.trace|] == r.trace[..|w.trace| + 1][..|w.trace|];
      r
    case PlayIdleStep(i, env) =>
      var r := PlayIdle(w, i, env);
      assert r.trace[..|w.trace|] == r.trace[..|w.trace| + 1][..|w.trace|];
      r
    case PlayErrorStep(i) => PlayError(w, i)
    case StatusStep(e) => w.(announcer := Status.Apply(w.announcer, e, w.cfg))
  }
}
