/**
 Invariants of the play queue, kept by every step:

 - one drain loop per guild, and a guild has one exactly while its queue is
   not empty; the loop is suspended on (or aborted at) the queue's head;
 - FIFO: per guild, the jobs queued so far are the jobs cleaned up so far,
   in the same order, followed by the jobs still waiting;
 - each connection is joined, plays exactly one job, and is destroyed at
   most once: exactly once unless a loop still holds it.

 And the consequence of the unguarded play await: after a player error the
 guild's queue stays stuck along every run of the model.
 */
module QueueProofs {
  import opened Wrappers
  import opened PlayQueue
  import Status

  /** Which job events a projection keeps. */
  datatype JobKind = EnqueuedKind | CleanedKind

  function JobOf(e: Event, kind: JobKind, g: GuildId): seq<Job>
  {
    match e
    case Enqueued(j) => if kind == EnqueuedKind && j.member.guild == g then [j] else []
    case Cleaned(j) => if kind == CleanedKind && j.member.guild == g then [j] else []
    case _ => []
  }

  /** The jobs of guild `g` that the trace shows queued (or cleaned up), in order. */
  function JobsIn(t: seq<Event>, kind: JobKind, g: GuildId): seq<Job>
  {
    if |t| == 0 then [] else JobOf(t[0], kind, g) + JobsIn(t[1..], kind, g)
  }

  function ConnOf(e: Event, c: nat): seq<Event>
  {
    match e
    case Joined(x) => if x.id == c then [e] else []
    case PlayStarted(_, x) => if x.id == c then [e] else []
    case Destroyed(x) => if x.id == c then [e] else []
    case _ => []
  }

  /** The events of the trace that concern connection `c`, in order. */
  function ConnEvents(t: seq<Event>, c: nat): seq<Event>
  {
    if |t| == 0 then [] else ConnOf(t[0], c) + ConnEvents(t[1..], c)
  }

  lemma {:induction false} JobsInAppend(a: seq<Event>, b: seq<Event>, kind: JobKind, g: GuildId)
    ensures JobsIn(a + b, kind, g) == JobsIn(a, kind, g) + JobsIn(b, kind, g)
    decreases |a|
  {
    if |a| == 0 {
      assert a + b == b;
    } else {
      assert (a + b)[1..] == a[1..] + b;
      JobsInAppend(a[1..], b, kind, g);
    }
  }

  lemma {:induction false} ConnEventsAppend(a: seq<Event>, b: seq<Event>, c: nat)
    ensures ConnEvents(a + b, c) == ConnEvents(a, c) + ConnEvents(b, c)
    decreases |a|
  {
    if |a| == 0 {
      assert a + b == b;
    } else {
      assert (a + b)[1..] == a[1..] + b;
      ConnEventsAppend(a[1..], b, c);
    }
  }

  /** Every job in `jobs` was requested from guild `h`. */
  ghost predicate OfGuild(jobs: seq<Job>, h: GuildId)
  {
    forall m :: 0 <= m < |jobs| ==> jobs[m].member.guild == h
  }

  lemma SingleOfGuild(job: Job)
    ensures OfGuild([job], job.member.guild)
  {
  }

  /** Cleaning up jobs of guild `h` shows, for each guild, exactly its own jobs as cleaned and none as queued. */
  lemma {:induction false} CleanEventsJobs(jobs: seq<Job>, h: GuildId, kind: JobKind, g: GuildId)
    requires OfGuild(jobs, h)
    ensures JobsIn(CleanEvents(jobs), kind, g) == (if kind == CleanedKind && g == h then jobs else [])
    decreases |jobs|
  {
    if |jobs| > 0 {
      CleanEventsJobs(jobs[1..], h, kind, g);
      assert CleanEvents(jobs)[1..] == CleanEvents(jobs[1..]);
    }
  }

  lemma {:induction false} CleanEventsConns(jobs: seq<Job>, c: nat)
    ensures ConnEvents(CleanEvents(jobs), c) == []
    decreases |jobs|
  {
    if |jobs| > 0 {
      CleanEventsConns(jobs[1..], c);
      assert CleanEvents(jobs)[1..] == CleanEvents(jobs[1..]);
    }
  }

  lemma ReleaseJobs(conn: Option<Conn>, kind: JobKind, g: GuildId)
    ensures JobsIn(Release(conn), kind, g) == []
  {
  }

  lemma ConnectJobs(p: Pause, kind: JobKind, g: GuildId)
    ensures JobsIn(Connect(p), kind, g) == []
  {
    var es := Connect(p);
    assert es[1..][1..] == [];
    assert JobsIn(es[1..], kind, g) == JobOf(es[1], kind, g) + JobsIn(es[1..][1..], kind, g);
  }

  lemma ReleaseConns(conn: Option<Conn>, c: nat)
    ensures ConnEvents(Release(conn), c) == (if conn.Some? && conn.value.id == c then [Destroyed(conn.value)] else [])
  {
  }

  lemma ConnectConns(p: Pause, c: nat)
    ensures ConnEvents(Connect(p), c) == (if p.conn.id == c then Connect(p) else [])
  {
    var es := Connect(p);
    assert es[1..][1..] == [];
    assert ConnEvents(es[1..], c) == ConnOf(es[1], c) + ConnEvents(es[1..][1..], c);
  }

  /** The jobs a stretch of guild `h`'s loop cleans up: the queue's first k jobs, and nothing queued. */
  lemma SettlesJobs(queue: seq<Job>, conn: Option<Conn>, voice: map<Member, ChannelId>, next: nat, from: nat,
                    out: Outcome, h: GuildId, kind: JobKind, g: GuildId)
    requires Settles(queue, conn, voice, next, from, out)
    requires OfGuild(queue, h)
    ensures JobsIn(out.events, kind, g) ==
      (if kind == CleanedKind && g == h then queue[..|queue| - |out.remaining|] else [])
  {
    var k := |queue| - |out.remaining|;
    match out.pause
    case None =>
      assert queue[..k] == queue;
      FinishedJobs(queue, conn, h, kind, g);
    case Some(p) =>
      PausedJobs(queue, k, conn, p, h, kind, g);
  }

  lemma FinishedJobs(queue: seq<Job>, conn: Option<Conn>, h: GuildId, kind: JobKind, g: GuildId)
    requires OfGuild(queue, h)
    ensures JobsIn(CleanEvents(queue) + Release(conn), kind, g) == (if kind == CleanedKind && g == h then queue else [])
  {
    ReleaseJobs(conn, kind, g);
    CleanEventsJobs(queue, h, kind, g);
    JobsInAppend(CleanEvents(queue), Release(conn), kind, g);
  }

  lemma PausedJobs(queue: seq<Job>, k: nat, conn: Option<Conn>, p: Pause, h: GuildId, kind: JobKind, g: GuildId)
    requires k <= |queue| && OfGuild(queue, h)
    ensures JobsIn(CleanEvents(queue[..k]) + Release(conn) + Connect(p), kind, g) ==
      (if kind == CleanedKind && g == h then queue[..k] else [])
  {
    assert OfGuild(queue[..k], h);
    FinishedJobs(queue[..k], conn, h, kind, g);
    ConnectJobs(p, kind, g);
    JobsInAppend(CleanEvents(queue[..k]) + Release(conn), Connect(p), kind, g);
  }

  /** The connections a stretch touches: the one it held is destroyed, and a fresh one is joined if it suspends. */
  lemma SettlesConns(queue: seq<Job>, conn: Option<Conn>, voice: map<Member, ChannelId>, next: nat, from: nat,
                     out: Outcome, c: nat)
    requires Settles(queue, conn, voice, next, from, out)
    ensures ConnEvents(out.events, c) ==
      (if conn.Some? && conn.value.id == c then [Destroyed(conn.value)] else [])
      + (if out.pause.Some? && c == next then Connect(out.pause.value) else [])
  {
    var k := |queue| - |out.remaining|;
    match out.pause
    case None =>
      FinishedConns(queue, conn, c);
    case Some(p) =>
      PausedConns(queue[..k], conn, p, c);
  }

  lemma FinishedConns(queue: seq<Job>, conn: Option<Conn>, c: nat)
    ensures ConnEvents(CleanEvents(queue) + Release(conn), c) ==
      (if conn.Some? && conn.value.id == c then [Destroyed(conn.value)] else [])
  {
    ReleaseConns(conn, c);
    CleanEventsConns(queue, c);
    ConnEventsAppend(CleanEvents(queue), Release(conn), c);
  }

  lemma PausedConns(cleaned: seq<Job>, conn: Option<Conn>, p: Pause, c: nat)
    ensures ConnEvents(CleanEvents(cleaned) + Release(conn) + Connect(p), c) ==
      (if conn.Some? && conn.value.id == c then [Destroyed(conn.value)] else [])
      + (if p.conn.id == c then Connect(p) else [])
  {
    FinishedConns(cleaned, conn, c);
    ConnectConns(p, c);
    ConnEventsAppend(CleanEvents(cleaned) + Release(conn), Connect(p), c);
  }

  // ---------------------------------------------------------------------
  // The invariant
  // ---------------------------------------------------------------------

  /** No guild has two drain loops. */
  ghost predicate DrainsDistinct(w: World)
  {
    forall i, j :: 0 <= i < j < |w.drains| ==> w.drains[i].guild != w.drains[j].guild
  }

  /** A loop exists only over a non-empty queue, and is suspended on (or aborted at) its head. */
  ghost predicate DrainsAtHead(w: World)
  {
    forall i :: 0 <= i < |w.drains| ==>
      |QueueOf(w, w.drains[i].guild)| > 0 && QueueOf(w, w.drains[i].guild)[0] == w.drains[i].job
  }

  /** A non-empty queue of a guild other than `h` has a loop. */
  ghost predicate QueueHasDrainBut(w: World, h: Option<GuildId>)
  {
    forall g :: |QueueOf(w, g)| > 0 && h != Some(g) ==> exists i :: 0 <= i < |w.drains| && w.drains[i].guild == g
  }

  /** A non-empty queue has a loop: no job is left without one. */
  ghost predicate QueueHasDrain(w: World)
  {
    QueueHasDrainBut(w, None)
  }

  /** Every job sits in the queue of its member's guild. */
  ghost predicate QueuesOwnGuild(w: World)
  {
    forall g :: OfGuild(QueueOf(w, g), g)
  }

  /** FIFO: per guild, queued so far == cleaned up so far, then still waiting. */
  ghost predicate Fifo(w: World)
  {
    forall g :: JobsIn(w.trace, EnqueuedKind, g) == JobsIn(w.trace, CleanedKind, g) + QueueOf(w, g)
  }

  /** No event concerns a connection id not handed out yet. */
  ghost predicate FreshConns(w: World)
  {
    forall c: nat :: c >= w.nextConn ==> ConnEvents(w.trace, c) == []
  }

  /** No two loops hold the same connection. */
  ghost predicate ConnsDistinct(w: World)
  {
    forall i, j :: 0 <= i < j < |w.drains| ==> w.drains[i].conn.id != w.drains[j].conn.id
  }

  /** The connection a loop holds was joined and used for its job, and has not been destroyed. */
  ghost predicate HeldConns(w: World)
  {
    forall i :: 0 <= i < |w.drains| ==>
      w.drains[i].conn.id < w.nextConn
      && ConnEvents(w.trace, w.drains[i].conn.id) == Connect(Pause(w.drains[i].job, w.drains[i].conn))
  }

  ghost predicate Held(w: World, c: nat)
  {
    exists i :: 0 <= i < |w.drains| && w.drains[i].conn.id == c
  }

  /** Joined, played one job, destroyed once. */
  predicate Released(es: seq<Event>)
  {
    && |es| == 3
    && es[0].Joined?
    && es[1].PlayStarted? && es[1].conn == es[0].conn
    && es[2] == Destroyed(es[0].conn)
  }

  /** Every connection no loop holds any more has been destroyed exactly once. */
  ghost predicate ReleasedConns(w: World)
  {
    forall c: nat :: c < w.nextConn && !Held(w, c) ==> Released(ConnEvents(w.trace, c))
  }

  ghost predicate Inv(w: World)
  {
    && DrainsDistinct(w)
    && DrainsAtHead(w)
    && QueueHasDrain(w)
    && QueuesOwnGuild(w)
    && Fifo(w)
    && FreshConns(w)
    && ConnsDistinct(w)
    && HeldConns(w)
    && ReleasedConns(w)
    && Status.Inv(w.announcer)
  }

  lemma InitInv(cfg: Status.Config)
    ensures Inv(Init(cfg))
  {
  }

  // ---------------------------------------------------------------------
  // One stretch of a loop, committed to the world
  // ---------------------------------------------------------------------

  /**
   A stretch of guild `h`'s loop about to be committed: entry `i` is the
   loop's own (holding `conn`), or the length when the loop is just starting
   and the guild has none.
   */
  ghost predicate Stretch(w: World, h: GuildId, i: nat, conn: Option<Conn>, voice: map<Member, ChannelId>, from: nat, out: Outcome)
  {
    && i <= |w.drains|
    && |QueueOf(w, h)| > 0
    && (i < |w.drains| ==> w.drains[i].guild == h && conn == Some(w.drains[i].conn))
    && (i == |w.drains| ==> conn == None && forall j :: 0 <= j < |w.drains| ==> w.drains[j].guild != h)
    && Settles(QueueOf(w, h), conn, voice, w.nextConn, from, out)
  }

  /** What the invariant's proofs use of a stretch, beyond the events it asks for. */
  ghost predicate Shape(w: World, h: GuildId, i: nat, conn: Option<Conn>, out: Outcome)
  {
    && i <= |w.drains|
    && |out.remaining| <= |QueueOf(w, h)|
    && out.remaining == QueueOf(w, h)[|QueueOf(w, h)| - |out.remaining|..]
    && (out.pause.None? <==> out.remaining == [])
    && (out.pause.Some? ==> out.pause.value.conn.id == w.nextConn && out.pause.value.job == out.remaining[0])
    && (i < |w.drains| ==> w.drains[i].guild == h && conn == Some(w.drains[i].conn))
    && (i == |w.drains| ==> conn == None && forall j :: 0 <= j < |w.drains| ==> w.drains[j].guild != h)
  }

  lemma StretchShape(w: World, h: GuildId, i: nat, conn: Option<Conn>, voice: map<Member, ChannelId>, from: nat, out: Outcome)
    requires Stretch(w, h, i, conn, voice, from, out)
    ensures Shape(w, h, i, conn, out)
  {
  }

  /** The effect of Commit on everything but the announcer. */
  ghost predicate Committed(w: World, h: GuildId, out: Outcome, i: nat, r: World)
  {
    && i <= |w.drains|
    && r.queues == w.queues[h := out.remaining]
    && r.trace == w.trace + out.events
    && (out.pause.None? ==>
          && r.drains == (if i < |w.drains| then w.drains[..i] + w.drains[i + 1..] else w.drains)
          && r.nextConn == w.nextConn)
    && (out.pause.Some? ==>
          && out.pause.value.conn.id == w.nextConn
          && |r.drains| == (if i < |w.drains| then |w.drains| else |w.drains| + 1)
          && r.drains[i] == Drain(h, out.pause.value.conn, out.pause.value.job, false)
          && (forall j :: 0 <= j < |w.drains| && j != i ==> r.drains[j] == w.drains[j])
          && r.nextConn == w.nextConn + 1)
  }

  /** Whether the stretch ends the loop whose entry is `i`. */
  predicate Drops(w: World, out: Outcome, i: nat)
  {
    out.pause.None? && i < |w.drains|
  }

  /** Where entry `j` of the old loop list ends up. */
  function Moved(w: World, out: Outcome, i: nat, j: nat): nat
  {
    if Drops(w, out, i) && j > i then j - 1 else j
  }

  /** Where entry `j` of the new loop list comes from. */
  function Src(w: World, out: Outcome, i: nat, j: nat): nat
  {
    if Drops(w, out, i) && j >= i then j + 1 else j
  }

  /** Every other loop keeps its entry, shifted down by one past a dropped entry; a suspending stretch's own entry is new. */
  lemma CommitKeepsOthers(w: World, h: GuildId, i: nat, out: Outcome, r: World)
    requires i <= |w.drains| && Committed(w, h, out, i, r)
    ensures forall j :: 0 <= j < |w.drains| && j != i ==>
      Moved(w, out, i, j) < |r.drains| && r.drains[Moved(w, out, i, j)] == w.drains[j]
    ensures forall j :: 0 <= j < |r.drains| && !(out.pause.Some? && j == i) ==>
      Src(w, out, i, j) < |w.drains| && Src(w, out, i, j) != i && r.drains[j] == w.drains[Src(w, out, i, j)]
    ensures out.pause.Some? ==> i < |r.drains| && r.drains[i] == Drain(h, out.pause.value.conn, out.pause.value.job, false)
  {
    if Drops(w, out, i) {
      var left, right := w.drains[..i], w.drains[i + 1..];
      assert r.drains == left + right;
      forall j | 0 <= j < |w.drains| && j != i
        ensures Moved(w, out, i, j) < |r.drains| && r.drains[Moved(w, out, i, j)] == w.drains[j]
      {
        if j < i { assert r.drains[j] == left[j]; }
        else { assert r.drains[j - 1] == right[j - 1 - i]; }
      }
      forall j | 0 <= j < |r.drains|
        ensures Src(w, out, i, j) < |w.drains| && Src(w, out, i, j) != i && r.drains[j] == w.drains[Src(w, out, i, j)]
      {
        if j < i { assert r.drains[j] == left[j]; }
        else { assert r.drains[j] == right[j - i]; }
      }
    }
  }

  /** Entry `j` of the new loop list, other than a suspending stretch's own, is an old entry of another guild's loop. */
  lemma SrcEntry(w: World, h: GuildId, i: nat, out: Outcome, r: World, j: nat)
    requires Committed(w, h, out, i, r)
    requires j < |r.drains| && !(out.pause.Some? && j == i)
    ensures Src(w, out, i, j) < |w.drains| && Src(w, out, i, j) != i && r.drains[j] == w.drains[Src(w, out, i, j)]
  {
    CommitKeepsOthers(w, h, i, out, r);
  }

  /** Old entry `j` of another loop is still in the new loop list. */
  lemma MovedEntry(w: World, h: GuildId, i: nat, out: Outcome, r: World, j: nat)
    requires Committed(w, h, out, i, r)
    requires j < |w.drains| && j != i
    ensures Moved(w, out, i, j) < |r.drains| && r.drains[Moved(w, out, i, j)] == w.drains[j]
  {
    CommitKeepsOthers(w, h, i, out, r);
  }

  lemma CommitIsCommitted(w: World, h: GuildId, out: Outcome, env: Env, i: nat)
    requires i <= |w.drains| && (out.pause.Some? ==> out.pause.value.conn.id == w.nextConn)
    ensures Committed(w, h, out, i, Commit(w, h, out, env, i))
  {
  }

  /** The stretch's guild's queue is what the stretch left; every other queue is as it was. */
  lemma CommittedQueues(w: World, h: GuildId, out: Outcome, i: nat, r: World)
    requires Committed(w, h, out, i, r)
    ensures QueueOf(r, h) == out.remaining
    ensures forall g :: g != h ==> QueueOf(r, g) == QueueOf(w, g)
  {
  }

  /** The loops of guilds other than the stretch's. */
  lemma OthersElsewhere(w: World, h: GuildId, i: nat, conn: Option<Conn>, out: Outcome)
    requires Shape(w, h, i, conn, out)
    requires DrainsDistinct(w)
    ensures forall j :: 0 <= j < |w.drains| && j != i ==> w.drains[j].guild != h
  {
    forall j | 0 <= j < |w.drains| && j != i
      ensures w.drains[j].guild != h
    {
      if i < |w.drains| {
        if j < i { assert w.drains[j].guild != w.drains[i].guild; }
        else { assert w.drains[i].guild != w.drains[j].guild; }
      }
    }
  }

  lemma CommitDrainsDistinct(w: World, h: GuildId, i: nat, conn: Option<Conn>, out: Outcome, r: World)
    requires Shape(w, h, i, conn, out) && Committed(w, h, out, i, r)
    requires DrainsDistinct(w)
    ensures DrainsDistinct(r)
  {
    OthersElsewhere(w, h, i, conn, out);
    forall a, b | 0 <= a < b < |r.drains|
      ensures r.drains[a].guild != r.drains[b].guild
    {
      if !(out.pause.Some? && a == i) {
        SrcEntry(w, h, i, out, r, a);
      }
      if !(out.pause.Some? && b == i) {
        SrcEntry(w, h, i, out, r, b);
      }
      if !(out.pause.Some? && a == i) && !(out.pause.Some? && b == i) {
        assert Src(w, out, i, a) < Src(w, out, i, b);
      }
    }
  }

  /** Connection ids held by other loops are below the fresh one and differ from the stretch's own. */
  lemma OtherConns(w: World, h: GuildId, i: nat, conn: Option<Conn>, out: Outcome)
    requires Shape(w, h, i, conn, out)
    requires ConnsDistinct(w) && HeldConns(w)
    ensures forall j :: 0 <= j < |w.drains| && j != i ==> w.drains[j].conn.id < w.nextConn
    ensures conn.Some? ==> conn.value.id < w.nextConn
    ensures forall j :: 0 <= j < |w.drains| && j != i && conn.Some? ==> w.drains[j].conn.id != conn.value.id
  {
    forall j | 0 <= j < |w.drains| && j != i && conn.Some?
      ensures w.drains[j].conn.id != conn.value.id
    {
      if j < i { assert w.drains[j].conn.id != w.drains[i].conn.id; }
      else { assert w.drains[i].conn.id != w.drains[j].conn.id; }
    }
  }

  lemma CommitConnsDistinct(w: World, h: GuildId, i: nat, conn: Option<Conn>, out: Outcome, r: World)
    requires Shape(w, h, i, conn, out) && Committed(w, h, out, i, r)
    requires ConnsDistinct(w) && HeldConns(w)
    ensures ConnsDistinct(r)
  {
    OtherConns(w, h, i, conn, out);
    forall a, b | 0 <= a < b < |r.drains|
      ensures r.drains[a].conn.id != r.drains[b].conn.id
    {
      if !(out.pause.Some? && a == i) {
        SrcEntry(w, h, i, out, r, a);
      }
      if !(out.pause.Some? && b == i) {
        SrcEntry(w, h, i, out, r, b);
      }
      if !(out.pause.Some? && a == i) && !(out.pause.Some? && b == i) {
        assert Src(w, out, i, a) < Src(w, out, i, b);
      }
    }
  }

  lemma CommitDrainsAtHead(w: World, h: GuildId, i: nat, conn: Option<Conn>, out: Outcome, r: World)
    requires Shape(w, h, i, conn, out) && Committed(w, h, out, i, r)
    requires DrainsDistinct(w) && DrainsAtHead(w)
    ensures DrainsAtHead(r)
  {
    forall j | 0 <= j < |r.drains|
      ensures |QueueOf(r, r.drains[j].guild)| > 0 && QueueOf(r, r.drains[j].guild)[0] == r.drains[j].job
    {
      CommitDrainAtHead(w, h, i, conn, out, r, j);
    }
  }

  lemma CommitDrainAtHead(w: World, h: GuildId, i: nat, conn: Option<Conn>, out: Outcome, r: World, j: nat)
    requires Shape(w, h, i, conn, out) && Committed(w, h, out, i, r)
    requires DrainsDistinct(w) && DrainsAtHead(w)
    requires j < |r.drains|
    ensures |QueueOf(r, r.drains[j].guild)| > 0 && QueueOf(r, r.drains[j].guild)[0] == r.drains[j].job
  {
    CommittedQueues(w, h, out, i, r);
    if !(out.pause.Some? && j == i) {
      SrcEntry(w, h, i, out, r, j);
      var j' := Src(w, out, i, j);
      OthersElsewhere(w, h, i, conn, out);
      assert w.drains[j'].guild != h;
    }
  }

  lemma CommitQueueHasDrain(w: World, h: GuildId, i: nat, conn: Option<Conn>, out: Outcome, r: World)
    requires Shape(w, h, i, conn, out) && Committed(w, h, out, i, r)
    requires QueueHasDrainBut(w, Some(h))
    ensures QueueHasDrain(r)
  {
    CommitKeepsOthers(w, h, i, out, r);
    forall g | |QueueOf(r, g)| > 0
      ensures exists j :: 0 <= j < |r.drains| && r.drains[j].guild == g
    {
      CommittedQueues(w, h, out, i, r);
      if g == h {
        assert r.drains[i].guild == h;
      } else {
        var j :| 0 <= j < |w.drains| && w.drains[j].guild == g;
        assert r.drains[Moved(w, out, i, j)] == w.drains[j];
      }
    }
  }

  lemma CommitQueuesOwnGuild(w: World, h: GuildId, i: nat, conn: Option<Conn>, out: Outcome, r: World)
    requires Shape(w, h, i, conn, out) && Committed(w, h, out, i, r)
    requires QueuesOwnGuild(w)
    ensures QueuesOwnGuild(r)
  {
    var queue := QueueOf(w, h);
    var k := |queue| - |out.remaining|;
    CommittedQueues(w, h, out, i, r);
    forall g
      ensures OfGuild(QueueOf(r, g), g)
    {
      if g == h {
        assert OfGuild(queue, h);
        forall m | 0 <= m < |out.remaining|
          ensures out.remaining[m].member.guild == h
        {
          assert out.remaining[m] == queue[k + m];
        }
      }
    }
  }

  /** FIFO for one guild across a stretch. */
  lemma {:induction false} CommitFifoAt(w: World, h: GuildId, i: nat, out: Outcome, r: World, g: GuildId)
    requires Committed(w, h, out, i, r)
    requires |out.remaining| <= |QueueOf(w, h)| && out.remaining == QueueOf(w, h)[|QueueOf(w, h)| - |out.remaining|..]
    requires JobsIn(out.events, EnqueuedKind, g) == []
    requires JobsIn(out.events, CleanedKind, g) == (if g == h then QueueOf(w, h)[..|QueueOf(w, h)| - |out.remaining|] else [])
    requires JobsIn(w.trace, EnqueuedKind, g) == JobsIn(w.trace, CleanedKind, g) + QueueOf(w, g)
    ensures JobsIn(r.trace, EnqueuedKind, g) == JobsIn(r.trace, CleanedKind, g) + QueueOf(r, g)
  {
    var queue := QueueOf(w, h);
    var k := |queue| - |out.remaining|;
    var cleaned := if g == h then queue[..k] else [];
    var queued, before, left := JobsIn(w.trace, EnqueuedKind, g), JobsIn(w.trace, CleanedKind, g), QueueOf(r, g);
    assert before + (cleaned + left) == (before + cleaned) + left;
    JobsInAppend(w.trace, out.events, EnqueuedKind, g);
    JobsInAppend(w.trace, out.events, CleanedKind, g);
    CommittedQueues(w, h, out, i, r);
    if g == h {
      assert queue == queue[..k] + out.remaining;
    }
    assert QueueOf(w, g) == cleaned + left;
    assert queued + [] == queued;
  }

  lemma {:induction false} CommitFifoOne(w: World, h: GuildId, i: nat, conn: Option<Conn>, voice: map<Member, ChannelId>, from: nat, out: Outcome, r: World, g: GuildId)
    requires Settles(QueueOf(w, h), conn, voice, w.nextConn, from, out) && Committed(w, h, out, i, r)
    requires OfGuild(QueueOf(w, h), h)
    requires JobsIn(w.trace, EnqueuedKind, g) == JobsIn(w.trace, CleanedKind, g) + QueueOf(w, g)
    ensures JobsIn(r.trace, EnqueuedKind, g) == JobsIn(r.trace, CleanedKind, g) + QueueOf(r, g)
  {
    SettlesJobs(QueueOf(w, h), conn, voice, w.nextConn, from, out, h, EnqueuedKind, g);
    SettlesJobs(QueueOf(w, h), conn, voice, w.nextConn, from, out, h, CleanedKind, g);
    CommitFifoAt(w, h, i, out, r, g);
  }

  lemma CommitFifo(w: World, h: GuildId, i: nat, conn: Option<Conn>, voice: map<Member, ChannelId>, from: nat, out: Outcome, r: World)
    requires Settles(QueueOf(w, h), conn, voice, w.nextConn, from, out) && Committed(w, h, out, i, r)
    requires QueuesOwnGuild(w) && Fifo(w)
    ensures Fifo(r)
  {
    forall g
      ensures JobsIn(r.trace, EnqueuedKind, g) == JobsIn(r.trace, CleanedKind, g) + QueueOf(r, g)
    {
      CommitFifoOne(w, h, i, conn, voice, from, out, r, g);
    }
  }

  /** How a stretch changes the events of each connection: the one it held is destroyed, the fresh one joined and used. */
  ghost predicate ConnsAdvance(w: World, conn: Option<Conn>, out: Outcome, r: World)
  {
    forall c: nat :: (ConnEvents(r.trace, c) == ConnEvents(w.trace, c)
        + (if conn.Some? && conn.value.id == c then [Destroyed(conn.value)] else [])
        + (if out.pause.Some? && c == w.nextConn then Connect(out.pause.value) else []))
  }

  lemma CommitConnEvents(w: World, h: GuildId, i: nat, conn: Option<Conn>, voice: map<Member, ChannelId>, from: nat, out: Outcome, r: World)
    requires Settles(QueueOf(w, h), conn, voice, w.nextConn, from, out) && Committed(w, h, out, i, r)
    ensures ConnsAdvance(w, conn, out, r)
  {
    forall c: nat
      ensures ConnEvents(r.trace, c) == ConnEvents(w.trace, c)
        + (if conn.Some? && conn.value.id == c then [Destroyed(conn.value)] else [])
        + (if out.pause.Some? && c == w.nextConn then Connect(out.pause.value) else [])
    {
      SettlesConns(QueueOf(w, h), conn, voice, w.nextConn, from, out, c);
      ConnEventsAppend(w.trace, out.events, c);
    }
  }

  lemma CommitFreshConns(w: World, h: GuildId, i: nat, conn: Option<Conn>, out: Outcome, r: World)
    requires Shape(w, h, i, conn, out) && Committed(w, h, out, i, r)
    requires ConnsAdvance(w, conn, out, r)
    requires FreshConns(w) && HeldConns(w)
    ensures FreshConns(r)
  {
  }

  lemma CommitHeldConns(w: World, h: GuildId, i: nat, conn: Option<Conn>, out: Outcome, r: World)
    requires Shape(w, h, i, conn, out) && Committed(w, h, out, i, r)
    requires ConnsAdvance(w, conn, out, r)
    requires FreshConns(w) && HeldConns(w) && ConnsDistinct(w)
    ensures HeldConns(r)
  {
    forall j | 0 <= j < |r.drains|
      ensures r.drains[j].conn.id < r.nextConn
        && ConnEvents(r.trace, r.drains[j].conn.id) == Connect(Pause(r.drains[j].job, r.drains[j].conn))
    {
      CommitHeldConn(w, h, i, conn, out, r, j);
    }
  }

  lemma CommitHeldConn(w: World, h: GuildId, i: nat, conn: Option<Conn>, out: Outcome, r: World, j: nat)
    requires Shape(w, h, i, conn, out) && Committed(w, h, out, i, r)
    requires ConnsAdvance(w, conn, out, r)
    requires FreshConns(w) && HeldConns(w) && ConnsDistinct(w)
    requires j < |r.drains|
    ensures r.drains[j].conn.id < r.nextConn
      && ConnEvents(r.trace, r.drains[j].conn.id) == Connect(Pause(r.drains[j].job, r.drains[j].conn))
  {
    var c := r.drains[j].conn.id;
    if out.pause.Some? && j == i {
      assert c == w.nextConn;
      assert ConnEvents(w.trace, c) == [];
      assert !(conn.Some? && conn.value.id == c);
    } else {
      SrcEntry(w, h, i, out, r, j);
      OtherConns(w, h, i, conn, out);
      var j' := Src(w, out, i, j);
      assert c == w.drains[j'].conn.id < w.nextConn;
    }
  }

  lemma {:induction false} CommitReleasedConns(w: World, h: GuildId, i: nat, conn: Option<Conn>, out: Outcome, r: World)
    requires Shape(w, h, i, conn, out) && Committed(w, h, out, i, r)
    requires ConnsAdvance(w, conn, out, r)
    requires ConnsDistinct(w) && HeldConns(w) && ReleasedConns(w)
    ensures ReleasedConns(r)
  {
    OtherConns(w, h, i, conn, out);
    forall c: nat | Held(w, c) && !(conn.Some? && c == conn.value.id)
      ensures Held(r, c)
    {
      var j :| 0 <= j < |w.drains| && w.drains[j].conn.id == c;
      MovedEntry(w, h, i, out, r, j);
    }
    if out.pause.Some? {
      assert r.drains[i].conn.id == w.nextConn;
    }
    forall c: nat | c < r.nextConn && !Held(r, c)
      ensures Released(ConnEvents(r.trace, c))
    {
      assert c < w.nextConn;
      var before := ConnEvents(w.trace, c);
      if conn.Some? && c == conn.value.id {
        assert before == Connect(Pause(w.drains[i].job, w.drains[i].conn));
        assert ConnEvents(r.trace, c) == before + [Destroyed(conn.value)];
      } else {
        assert ConnEvents(r.trace, c) == before + [] + [];
        assert Released(before);
      }
    }
  }

  /** Committing a stretch keeps the invariant, given it held except for a missing loop of the stretch's guild. */
  lemma CommitKeepsInv(w: World, h: GuildId, i: nat, conn: Option<Conn>, voice: map<Member, ChannelId>, from: nat, out: Outcome, env: Env)
    requires Stretch(w, h, i, conn, voice, from, out)
    requires DrainsDistinct(w) && DrainsAtHead(w) && QueueHasDrainBut(w, Some(h)) && QueuesOwnGuild(w) && Fifo(w)
    requires FreshConns(w) && ConnsDistinct(w) && HeldConns(w) && ReleasedConns(w) && Status.Inv(w.announcer)
    ensures Inv(Commit(w, h, out, env, i))
  {
    var r := Commit(w, h, out, env, i);
    StretchShape(w, h, i, conn, voice, from, out);
    assert Committed(w, h, out, i, r);
    CommitConnEvents(w, h, i, conn, voice, from, out, r);
    CommitDrainsDistinct(w, h, i, conn, out, r);
    CommitDrainsAtHead(w, h, i, conn, out, r);
    CommitQueueHasDrain(w, h, i, conn, out, r);
    CommitQueuesOwnGuild(w, h, i, conn, out, r);
    CommitFifo(w, h, i, conn, voice, from, out, r);
    CommitFreshConns(w, h, i, conn, out, r);
    CommitConnsDistinct(w, h, i, conn, out, r);
    CommitHeldConns(w, h, i, conn, out, r);
    CommitReleasedConns(w, h, i, conn, out, r);
  }

  // ---------------------------------------------------------------------
  // The steps
  // ---------------------------------------------------------------------

  /** queueAudio on a non-empty queue only records the job and appends it. */
  lemma QueueAudioAppends(w: World, job: Job, env: Env)
    requires |QueueOf(w, job.member.guild)| > 0
    ensures QueueAudio(w, job, env) == Enqueue(w, job)
  {
  }

  /** queueAudio on an empty queue records the job and appends it, then runs the new loop's first stretch. */
  lemma QueueAudioStarts(w: World, job: Job, env: Env)
    requires |QueueOf(w, job.member.guild)| == 0
    ensures QueueOf(Enqueue(w, job), job.member.guild) == [job]
    ensures QueueAudio(w, job, env) ==
      Commit(Enqueue(w, job), job.member.guild, Advance(QueueOf(Enqueue(w, job), job.member.guild), None, env.voice, w.nextConn), env, |w.drains|)
  {
    assert QueueOf(w, job.member.guild) + [job] == [job];
  }

  /** The player going idle runs the rest of the loop's stretch from the cleanup. */
  lemma PlayIdleCommits(w: World, i: nat, env: Env)
    requires i < |w.drains| && !w.drains[i].aborted && |QueueOf(w, w.drains[i].guild)| > 0
    ensures PlayIdle(w, i, env) ==
      Commit(w, w.drains[i].guild, Finish(QueueOf(w, w.drains[i].guild), Some(w.drains[i].conn), env.voice, w.nextConn), env, i)
  {
  }

  lemma EnqueueKeepsDrains(w: World, job: Job)
    requires DrainsDistinct(w) && DrainsAtHead(w) && QueueHasDrain(w) && ConnsDistinct(w)
    ensures var w0 := Enqueue(w, job);
      DrainsDistinct(w0) && DrainsAtHead(w0) && QueueHasDrainBut(w0, Some(job.member.guild)) && ConnsDistinct(w0)
    ensures |QueueOf(w, job.member.guild)| > 0 ==> QueueHasDrain(Enqueue(w, job))
  {
    EnqueueKeepsHeads(w, job);
    EnqueueKeepsCoverage(w, job);
  }

  lemma EnqueueKeepsHeads(w: World, job: Job)
    requires DrainsAtHead(w)
    ensures DrainsAtHead(Enqueue(w, job))
  {
    var w0 := Enqueue(w, job);
    forall j | 0 <= j < |w.drains|
      ensures |QueueOf(w0, w.drains[j].guild)| > 0 && QueueOf(w0, w.drains[j].guild)[0] == w.drains[j].job
    {
      if w.drains[j].guild == job.member.guild {
        assert QueueOf(w0, job.member.guild) == QueueOf(w, job.member.guild) + [job];
      }
    }
  }

  lemma EnqueueKeepsCoverage(w: World, job: Job)
    requires QueueHasDrain(w)
    ensures QueueHasDrainBut(Enqueue(w, job), Some(job.member.guild))
    ensures |QueueOf(w, job.member.guild)| > 0 ==> QueueHasDrain(Enqueue(w, job))
  {
    var h := job.member.guild;
    if |QueueOf(w, h)| > 0 {
      var j :| 0 <= j < |w.drains| && w.drains[j].guild == h;
    }
  }

  lemma EnqueueKeepsJobs(w: World, job: Job)
    requires QueuesOwnGuild(w) && Fifo(w)
    ensures QueuesOwnGuild(Enqueue(w, job)) && Fifo(Enqueue(w, job))
  {
    var w0 := Enqueue(w, job);
    forall g
      ensures JobsIn(w0.trace, EnqueuedKind, g) == JobsIn(w0.trace, CleanedKind, g) + QueueOf(w0, g)
    {
      EnqueueFifoAt(w, job, g);
    }
    forall g
      ensures OfGuild(QueueOf(w0, g), g)
    {
      if g == job.member.guild {
        assert OfGuild(QueueOf(w, g), g);
      }
    }
  }

  lemma EnqueueFifoAt(w: World, job: Job, g: GuildId)
    requires JobsIn(w.trace, EnqueuedKind, g) == JobsIn(w.trace, CleanedKind, g) + QueueOf(w, g)
    ensures var w0 := Enqueue(w, job);
      JobsIn(w0.trace, EnqueuedKind, g) == JobsIn(w0.trace, CleanedKind, g) + QueueOf(w0, g)
  {
    AppendEnqueued(w.trace, job, g);
    var w0 := Enqueue(w, job);
    if g == job.member.guild {
      assert QueueOf(w0, g) == QueueOf(w, g) + [job];
    } else {
      assert QueueOf(w0, g) == QueueOf(w, g);
    }
  }

  /** Enqueueing a request adds it to its guild's queued jobs and to nothing else. */
  lemma AppendEnqueued(t: seq<Event>, job: Job, g: GuildId)
    ensures JobsIn(t + [Enqueued(job)], EnqueuedKind, g) == JobsIn(t, EnqueuedKind, g) + (if job.member.guild == g then [job] else [])
    ensures JobsIn(t + [Enqueued(job)], CleanedKind, g) == JobsIn(t, CleanedKind, g)
  {
    var e := [Enqueued(job)];
    JobsInAppend(t, e, EnqueuedKind, g);
    JobsInAppend(t, e, CleanedKind, g);
    assert e[1..] == [];
    assert JobsIn(e, CleanedKind, g) == [];
    assert JobsIn(e, EnqueuedKind, g) == (if job.member.guild == g then [job] else []);
  }

  lemma EnqueueKeepsConns(w: World, job: Job)
    requires FreshConns(w) && HeldConns(w) && ReleasedConns(w)
    ensures var w0 := Enqueue(w, job);
      FreshConns(w0) && HeldConns(w0) && ReleasedConns(w0)
  {
    var w0 := Enqueue(w, job);
    forall c: nat
      ensures ConnEvents(w0.trace, c) == ConnEvents(w.trace, c)
    {
      ConnEventsAppend(w.trace, [Enqueued(job)], c);
      assert [Enqueued(job)][1..] == [];
    }
    assert forall c: nat :: Held(w0, c) == Held(w, c);
  }

  lemma QueueAudioAppendKeepsInv(w: World, job: Job, env: Env)
    requires Inv(w)
    requires |QueueOf(w, job.member.guild)| > 0
    ensures Inv(QueueAudio(w, job, env))
  {
    QueueAudioAppends(w, job, env);
    EnqueueKeepsDrains(w, job);
    EnqueueKeepsJobs(w, job);
    EnqueueKeepsConns(w, job);
  }

  lemma QueueAudioStartKeepsInv(w: World, job: Job, env: Env)
    requires Inv(w)
    requires |QueueOf(w, job.member.guild)| == 0
    ensures Inv(QueueAudio(w, job, env))
  {
    var h := job.member.guild;
    var w0 := Enqueue(w, job);
    var out := Advance(QueueOf(w0, h), None, env.voice, w.nextConn);
    QueueAudioStarts(w, job, env);
    EnqueueKeepsDrains(w, job);
    EnqueueKeepsJobs(w, job);
    EnqueueKeepsConns(w, job);
    assert Stretch(w0, h, |w.drains|, None, env.voice, 0, out);
    CommitKeepsInv(w0, h, |w.drains|, None, env.voice, 0, out, env);
  }

  lemma QueueAudioKeepsInv(w: World, job: Job, env: Env)
    requires Inv(w)
    ensures Inv(QueueAudio(w, job, env))
  {
    if |QueueOf(w, job.member.guild)| > 0 {
      QueueAudioAppendKeepsInv(w, job, env);
    } else {
      QueueAudioStartKeepsInv(w, job, env);
    }
  }

  lemma PlayIdleKeepsInv(w: World, i: nat, env: Env)
    requires Inv(w)
    requires i < |w.drains| && !w.drains[i].aborted && |QueueOf(w, w.drains[i].guild)| > 0
    ensures Inv(PlayIdle(w, i, env))
  {
    var d := w.drains[i];
    var out := Finish(QueueOf(w, d.guild), Some(d.conn), env.voice, w.nextConn);
    PlayIdleCommits(w, i, env);
    assert QueueHasDrainBut(w, Some(d.guild));
    CommitKeepsInv(w, d.guild, i, Some(d.conn), env.voice, 1, out, env);
  }

  /** Two worlds that differ only in the loops' aborted flags and in the announcer. */
  ghost predicate SameShape(w: World, r: World)
  {
    && r.queues == w.queues && r.trace == w.trace && r.nextConn == w.nextConn
    && |r.drains| == |w.drains|
    && forall j :: 0 <= j < |w.drains| ==>
         (r.drains[j].guild == w.drains[j].guild && r.drains[j].conn == w.drains[j].conn && r.drains[j].job == w.drains[j].job)
  }

  lemma SameShapeKeepsInv(w: World, r: World)
    requires Inv(w) && SameShape(w, r) && Status.Inv(r.announcer)
    ensures Inv(r)
  {
    SameShapeDrains(w, r);
    SameShapeConns(w, r);
  }

  lemma SameShapeDrains(w: World, r: World)
    requires DrainsDistinct(w) && DrainsAtHead(w) && QueueHasDrain(w) && QueuesOwnGuild(w) && ConnsDistinct(w)
    requires SameShape(w, r)
    ensures DrainsDistinct(r) && DrainsAtHead(r) && QueueHasDrain(r) && QueuesOwnGuild(r) && ConnsDistinct(r)
  {
    assert forall g :: QueueOf(r, g) == QueueOf(w, g);
    forall g | |QueueOf(r, g)| > 0
      ensures exists j :: 0 <= j < |r.drains| && r.drains[j].guild == g
    {
      var j :| 0 <= j < |w.drains| && w.drains[j].guild == g;
      assert r.drains[j].guild == g;
    }
  }

  lemma SameShapeConns(w: World, r: World)
    requires Fifo(w) && FreshConns(w) && HeldConns(w) && ReleasedConns(w)
    requires SameShape(w, r)
    ensures Fifo(r) && FreshConns(r) && HeldConns(r) && ReleasedConns(r)
  {
    assert forall g :: QueueOf(r, g) == QueueOf(w, g);
    forall c: nat
      ensures Held(r, c) == Held(w, c)
    {
      if Held(w, c) {
        var j :| 0 <= j < |w.drains| && w.drains[j].conn.id == c;
        assert r.drains[j].conn.id == c;
      }
      if Held(r, c) {
        var j :| 0 <= j < |r.drains| && r.drains[j].conn.id == c;
        assert w.drains[j].conn.id == c;
      }
    }
  }

  lemma PlayErrorKeepsInv(w: World, i: nat)
    requires Inv(w)
    requires i < |w.drains| && !w.drains[i].aborted
    ensures Inv(PlayError(w, i))
  {
    SameShapeKeepsInv(w, PlayError(w, i));
  }

  lemma StatusStepKeepsInv(w: World, e: Status.Event)
    requires Inv(w)
    requires Status.Enabled(w.announcer, e)
    ensures Inv(Next(w, StatusStep(e)))
  {
    SameShapeKeepsInv(w, Next(w, StatusStep(e)));
  }

  /** Every step keeps the invariant. */
  lemma NextKeepsInv(w: World, s: Step)
    requires Inv(w)
    requires Enabled(w, s)
    ensures Inv(Next(w, s))
  {
    match s
    case QueueAudioStep(job, env) => QueueAudioKeepsInv(w, job, env);
    case PlayIdleStep(i, env) => PlayIdleKeepsInv(w, i, env);
    case PlayErrorStep(i) => PlayErrorKeepsInv(w, i);
    case StatusStep(e) => StatusStepKeepsInv(w, e);
  }

  /** `steps` can be taken one after another from `w`, and lead to `w'`. */
  ghost predicate Runs(w: World, steps: seq<Step>, w': World)
    decreases |steps|
  {
    if |steps| == 0 then w' == w
    else Enabled(w, steps[0]) && Runs(Next(w, steps[0]), steps[1..], w')
  }

  lemma {:induction false} RunsKeepInv(w: World, steps: seq<Step>, w': World)
    requires Inv(w)
    requires Runs(w, steps, w')
    ensures Inv(w')
    decreases |steps|
  {
    if |steps| > 0 {
      NextKeepsInv(w, steps[0]);
      RunsKeepInv(Next(w, steps[0]), steps[1..], w');
    }
  }

  /** Every state reachable from the initial one satisfies the invariant. */
  lemma ReachableInv(cfg: Status.Config, steps: seq<Step>, w: World)
    requires Runs(Init(cfg), steps, w)
    ensures Inv(w)
  {
    InitInv(cfg);
    RunsKeepInv(Init(cfg), steps, w);
  }

  // ---------------------------------------------------------------------
  // Consequences
  // ---------------------------------------------------------------------

  /**
   One drain per guild: queueAudio on a guild that has a loop only appends,
   and a call that starts a loop finds none for the guild.
   */
  lemma QueueAudioSingleDrain(w: World, job: Job, env: Env)
    requires Inv(w)
    ensures (exists i :: 0 <= i < |w.drains| && w.drains[i].guild == job.member.guild) ==>
      QueueAudio(w, job, env).drains == w.drains
    ensures |QueueAudio(w, job, env).drains| > |w.drains| ==>
      forall i :: 0 <= i < |w.drains| ==> w.drains[i].guild != job.member.guild
  {
  }

  /** A loop the player's error aborted is still in the world: its guild's queue is stuck behind the failed job. */
  ghost predicate Stuck(w: World, d: Drain)
  {
    d.aborted && d in w.drains
  }

  /** Queueing a job adds no cleanup and touches no connection. */
  lemma EnqueueLeavesAlone(w: World, job: Job, g: GuildId, c: nat)
    ensures JobsIn(Enqueue(w, job).trace, CleanedKind, g) == JobsIn(w.trace, CleanedKind, g)
    ensures ConnEvents(Enqueue(w, job).trace, c) == ConnEvents(w.trace, c)
    ensures QueueOf(Enqueue(w, job), g) == QueueOf(w, g) + (if g == job.member.guild then [job] else [])
  {
    assert [Enqueued(job)][1..] == [];
    JobsInAppend(w.trace, [Enqueued(job)], CleanedKind, g);
    ConnEventsAppend(w.trace, [Enqueued(job)], c);
  }

  /** A stretch of another guild's loop leaves loop `i`, its queue, its cleaned jobs and its connection alone. */
  lemma StretchLeavesAlone(w: World, h: GuildId, j: nat, conn: Option<Conn>, voice: map<Member, ChannelId>, from: nat,
                           out: Outcome, r: World, i: nat)
    requires Settles(QueueOf(w, h), conn, voice, w.nextConn, from, out) && Committed(w, h, out, j, r)
    requires j <= |w.drains| && i < |w.drains| && i != j
    requires w.drains[i].guild != h
    requires OfGuild(QueueOf(w, h), h)
    requires w.drains[i].conn.id < w.nextConn
    requires conn.Some? ==> conn.value.id != w.drains[i].conn.id
    ensures w.drains[i] in r.drains
    ensures QueueOf(r, w.drains[i].guild) == QueueOf(w, w.drains[i].guild)
    ensures JobsIn(r.trace, CleanedKind, w.drains[i].guild) == JobsIn(w.trace, CleanedKind, w.drains[i].guild)
    ensures ConnEvents(r.trace, w.drains[i].conn.id) == ConnEvents(w.trace, w.drains[i].conn.id)
  {
    StretchDrainAlone(w, h, j, out, r, i);
    StretchTraceAlone(w, h, j, conn, voice, from, out, r, i);
  }

  lemma StretchDrainAlone(w: World, h: GuildId, j: nat, out: Outcome, r: World, i: nat)
    requires Committed(w, h, out, j, r)
    requires j <= |w.drains| && i < |w.drains| && i != j
    requires w.drains[i].guild != h
    ensures w.drains[i] in r.drains
    ensures QueueOf(r, w.drains[i].guild) == QueueOf(w, w.drains[i].guild)
  {
    CommitKeepsOthers(w, h, j, out, r);
    assert r.drains[Moved(w, out, j, i)] == w.drains[i];
    CommittedQueues(w, h, out, j, r);
  }

  lemma {:induction false} StretchTraceAlone(w: World, h: GuildId, j: nat, conn: Option<Conn>, voice: map<Member, ChannelId>, from: nat,
                                             out: Outcome, r: World, i: nat)
    requires Settles(QueueOf(w, h), conn, voice, w.nextConn, from, out) && r.trace == w.trace + out.events
    requires i < |w.drains|
    requires w.drains[i].guild != h
    requires OfGuild(QueueOf(w, h), h)
    requires w.drains[i].conn.id < w.nextConn
    requires conn.Some? ==> conn.value.id != w.drains[i].conn.id
    ensures JobsIn(r.trace, CleanedKind, w.drains[i].guild) == JobsIn(w.trace, CleanedKind, w.drains[i].guild)
    ensures ConnEvents(r.trace, w.drains[i].conn.id) == ConnEvents(w.trace, w.drains[i].conn.id)
  {
    var d := w.drains[i];
    SettlesJobs(QueueOf(w, h), conn, voice, w.nextConn, from, out, h, CleanedKind, d.guild);
    JobsInAppend(w.trace, out.events, CleanedKind, d.guild);
    SettlesConns(QueueOf(w, h), conn, voice, w.nextConn, from, out, d.conn.id);
    ConnEventsAppend(w.trace, out.events, d.conn.id);
  }

  /** What a step must leave alone of loop `i` for the loop to stay stuck. */
  ghost predicate LeavesAlone(w: World, i: nat, r: World)
    requires i < |w.drains|
  {
    var d := w.drains[i];
    && d in r.drains
    && |QueueOf(r, d.guild)| > 0 && QueueOf(r, d.guild)[0] == d.job
    && JobsIn(r.trace, CleanedKind, d.guild) == JobsIn(w.trace, CleanedKind, d.guild)
    && ConnEvents(r.trace, d.conn.id) == ConnEvents(w.trace, d.conn.id)
  }

  lemma StuckQueueAudio(w: World, job: Job, env: Env, i: nat)
    requires DrainsAtHead(w) && HeldConns(w)
    requires i < |w.drains|
    ensures LeavesAlone(w, i, QueueAudio(w, job, env))
    ensures job.member.guild == w.drains[i].guild ==>
      QueueOf(QueueAudio(w, job, env), job.member.guild) == QueueOf(w, job.member.guild) + [job]
  {
    var d := w.drains[i];
    assert |QueueOf(w, d.guild)| > 0 && QueueOf(w, d.guild)[0] == d.job;
    assert d.conn.id < w.nextConn;
    EnqueueLeavesAlone(w, job, d.guild, d.conn.id);
    if |QueueOf(w, job.member.guild)| > 0 {
      QueueAudioAppends(w, job, env);
      assert QueueAudio(w, job, env).drains[i] == d;
    } else {
      var h := job.member.guild;
      var w0 := Enqueue(w, job);
      var out := Advance(QueueOf(w0, h), None, env.voice, w.nextConn);
      QueueAudioStarts(w, job, env);
      CommitIsCommitted(w0, h, out, env, |w.drains|);
      SingleOfGuild(job);
      assert w0.drains[i].guild != h;
      StretchLeavesAlone(w0, h, |w0.drains|, None, env.voice, 0, out, Commit(w0, h, out, env, |w.drains|), i);
    }
  }

  lemma {:induction false} StuckPlayIdle(w: World, j: nat, env: Env, i: nat)
    requires DrainsDistinct(w) && ConnsDistinct(w) && DrainsAtHead(w) && QueuesOwnGuild(w) && HeldConns(w)
    requires j < |w.drains| && !w.drains[j].aborted && |QueueOf(w, w.drains[j].guild)| > 0
    requires i < |w.drains| && i != j
    ensures LeavesAlone(w, i, PlayIdle(w, j, env))
  {
    var d := w.drains[i];
    var e := w.drains[j];
    var r := PlayIdle(w, j, env);
    assert |QueueOf(w, d.guild)| > 0 && QueueOf(w, d.guild)[0] == d.job;
    assert d.conn.id < w.nextConn;
    if j < i {
      assert e.guild != d.guild && e.conn.id != d.conn.id;
    } else {
      assert d.guild != e.guild && d.conn.id != e.conn.id;
    }
    var out := Finish(QueueOf(w, e.guild), Some(e.conn), env.voice, w.nextConn);
    PlayIdleCommits(w, j, env);
    assert Committed(w, e.guild, out, j, r);
    StretchLeavesAlone(w, e.guild, j, Some(e.conn), env.voice, 1, out, r, i);
  }

  /** One step leaves an aborted loop in place, with its queue's head, its cleanups and its connection untouched. */
  lemma StuckStep(w: World, s: Step, i: nat)
    requires Inv(w)
    requires Enabled(w, s)
    requires i < |w.drains| && w.drains[i].aborted
    ensures LeavesAlone(w, i, Next(w, s))
    ensures s.QueueAudioStep? && s.job.member.guild == w.drains[i].guild ==>
      QueueOf(Next(w, s), w.drains[i].guild) == QueueOf(w, w.drains[i].guild) + [s.job]
  {
    match s
    case QueueAudioStep(job, env) =>
      StuckQueueAudio(w, job, env, i);
    case PlayIdleStep(j, env) =>
      StuckPlayIdle(w, j, env, i);
    case PlayErrorStep(j) =>
      assert Next(w, s).drains[i] == w.drains[i];
    case StatusStep(e) =>
      assert Next(w, s).drains[i] == w.drains[i];
  }

  /**
   A stuck guild stays stuck: whatever happens next, the aborted loop is
   still there, its failed job still heads the queue, no job of the guild is
   cleaned up, its connection is never destroyed, and queueAudio for the
   guild only appends.
   */
  lemma StuckIsForever(w: World, s: Step, d: Drain)
    requires Inv(w)
    requires Enabled(w, s)
    requires Stuck(w, d)
    ensures Stuck(Next(w, s), d)
    ensures |QueueOf(Next(w, s), d.guild)| > 0 && QueueOf(Next(w, s), d.guild)[0] == d.job
    ensures JobsIn(Next(w, s).trace, CleanedKind, d.guild) == JobsIn(w.trace, CleanedKind, d.guild)
    ensures ConnEvents(Next(w, s).trace, d.conn.id) == Connect(Pause(d.job, d.conn))
    ensures s.QueueAudioStep? && s.job.member.guild == d.guild ==>
      QueueOf(Next(w, s), d.guild) == QueueOf(w, d.guild) + [s.job]
  {
    var i :| 0 <= i < |w.drains| && w.drains[i] == d;
    StuckStep(w, s, i);
  }

  /**
   After a player error nothing ever drains that guild again: along any run
   the aborted loop stays, the failed job heads the queue, no further job of
   the guild is cleaned up, and its connection is never destroyed.
   */
  lemma {:induction false} StuckAlongRuns(w: World, steps: seq<Step>, w': World, d: Drain)
    requires Inv(w)
    requires Runs(w, steps, w')
    requires Stuck(w, d)
    ensures Stuck(w', d)
    ensures |QueueOf(w', d.guild)| > 0 && QueueOf(w', d.guild)[0] == d.job
    ensures JobsIn(w'.trace, CleanedKind, d.guild) == JobsIn(w.trace, CleanedKind, d.guild)
    ensures ConnEvents(w'.trace, d.conn.id) == Connect(Pause(d.job, d.conn))
    decreases |steps|
  {
    if |steps| == 0 {
      var i :| 0 <= i < |w.drains| && w.drains[i] == d;
    } else {
      StuckIsForever(w, steps[0], d);
      NextKeepsInv(w, steps[0]);
      StuckAlongRuns(Next(w, steps[0]), steps[1..], w', d);
    }
  }

  /**
   A guild with no loop has played out its queue: its queue is empty and
   every job queued for it has been cleaned up, in the order queued.
   */
  lemma IdleGuildIsClean(w: World, g: GuildId)
    requires Inv(w)
    requires forall i :: 0 <= i < |w.drains| ==> w.drains[i].guild != g
    ensures QueueOf(w, g) == []
    ensures JobsIn(w.trace, CleanedKind, g) == JobsIn(w.trace, EnqueuedKind, g)
  {
  }
}
