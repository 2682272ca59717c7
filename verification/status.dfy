/**
 The bot's presence announcer: `setPlaying` shows the title being played and
 arms a cancellable timer (`timeout`) that reverts the activity to the
 channel's own title. One module-level slot holds the most recent timer; a new
 announcement cancels it, and a cancelled timer's caller skips the revert.

 Every timer is paired with the one `setPlaying` call suspended on it, and the
 await splits that call into two atomic steps: the announcement and, once the
 timer's promise has settled, the continuation that decides on the revert.
 */
module Status {
  import opened Wrappers

  /** The two strings the activity text is built from. */
  datatype Config = Config(commandPrefix: string, channelTitle: string)

  /**
   How a timer's promise settled: the timeout callback resolves it with no
   value; `cancel('reset')` resolves it with "reset".
   */
  datatype Reason = Elapsed | Reset

  /** One `timeout(STATUS_TIMEOUT)` promise and the `setPlaying` call awaiting it. */
  datatype Timer =
    | Pending                  // armed; its caller is suspended on it
    | Settled(reason: Reason)  // resolved; the caller has not yet resumed
    | Done(reason: Reason)     // the caller has resumed past the await

  /**
   The announcer: the activity text last set (None before the first), every
   timer created so far in creation order, and the slot that holds the most
   recent one (`statusTimeoutPromise`).
   */
  datatype Announcer = Announcer(status: Option<string>, timers: seq<Timer>, slot: Option<nat>)

  /** The things that happen to the announcer. */
  datatype Event =
    | Announce(title: Option<string>, userPresent: bool)  // a call of setPlaying
    | Elapse(t: nat)                                      // timer t's timeout callback runs
    | Continue(t: nat)                                    // timer t's caller resumes

  function Initial(): Announcer
  {
    Announcer(None, [], None)
  }

  /** The activity text: the title, a bar separator and the command prefix. */
  function ActivityName(title: string, cfg: Config): string
  {
    title + " | " + cfg.commandPrefix
  }

  /** The activity shown when nothing is playing. */
  function DefaultActivity(cfg: Config): string
  {
    ActivityName(cfg.channelTitle, cfg)
  }

  /** JavaScript truthiness of an optional title: present and not the empty string. */
  predicate Truthy(title: Option<string>)
  {
    title.Some? && title.value != ""
  }

  predicate HasReason(t: Timer, reason: Reason)
  {
    !t.Pending? && t.reason == reason
  }

  /** Only the slot's timer can still be armed, and the slot names a timer that exists. */
  ghost predicate Inv(a: Announcer)
  {
    && (a.slot.Some? ==> a.slot.value < |a.timers|)
    && forall t :: 0 <= t < |a.timers| && a.timers[t].Pending? ==> a.slot == Some(t)
  }

  /** TimedPromise.cancel(reason): settles the promise with the reason unless it has settled already. */
  function Cancel(timers: seq<Timer>, t: nat, reason: Reason): (r: seq<Timer>)
    requires t < |timers|
    ensures |r| == |timers|
    ensures timers[t].Pending? ==> r[t] == Settled(reason)
    ensures !timers[t].Pending? ==> r[t] == timers[t]
    ensures forall s :: 0 <= s < |timers| && s != t ==> r[s] == timers[s]
  {
    if timers[t].Pending? then timers[t := Settled(reason)] else timers
  }

  /**
   The synchronous part of setPlaying(title): nothing without a logged-in
   user; with a title, cancel the slot's timer, show the title and arm a new
   timer in the slot; without one, show the default activity at once.
   */
  function SetPlaying(a: Announcer, title: Option<string>, userPresent: bool, cfg: Config): (r: Announcer)
    ensures !userPresent ==> r == a
    ensures userPresent && Truthy(title) ==>
      && r.status == Some(ActivityName(title.value, cfg))
      && |r.timers| == |a.timers| + 1
      && r.timers[|a.timers|] == Pending
      && r.slot == Some(|a.timers|)
    ensures userPresent && Truthy(title) && Inv(a) ==>
      forall t :: 0 <= t < |a.timers| ==>
        (a.timers[t].Pending? ==> r.timers[t] == Settled(Reset)) && (!a.timers[t].Pending? ==> r.timers[t] == a.timers[t])
    ensures userPresent && !Truthy(title) ==>
      r.status == Some(DefaultActivity(cfg)) && r.timers == a.timers && r.slot == a.slot
    ensures Inv(a) ==> Inv(r)
  {
    if !userPresent then a
    else if Truthy(title) then
      var timers := if a.slot.Some? && a.slot.value < |a.timers| then Cancel(a.timers, a.slot.value, Reset) else a.timers;
      Announcer(Some(ActivityName(title.value, cfg)), timers + [Pending], Some(|a.timers|))
    else a.(status := Some(DefaultActivity(cfg)))
  }

  /** The timeout callback: the timer's promise resolves with no reason. */
  function Expire(a: Announcer, t: nat): (r: Announcer)
    requires t < |a.timers| && a.timers[t].Pending?
    ensures r.status == a.status && r.slot == a.slot && |r.timers| == |a.timers|
    ensures r.timers[t] == Settled(Elapsed)
    ensures forall s :: 0 <= s < |a.timers| && s != t ==> r.timers[s] == a.timers[s]
    ensures Inv(a) ==> Inv(r)
  {
    a.(timers := a.timers[t := Settled(Elapsed)])
  }

  /**
   The rest of setPlaying after its await: revert to the default activity
   unless the promise was settled by a cancellation.
   */
  function Resume(a: Announcer, t: nat, cfg: Config): (r: Announcer)
    requires t < |a.timers| && a.timers[t].Settled?
    ensures r.slot == a.slot && |r.timers| == |a.timers|
    ensures r.timers[t] == Done(a.timers[t].reason)
    ensures forall s :: 0 <= s < |a.timers| && s != t ==> r.timers[s] == a.timers[s]
    ensures a.timers[t].reason == Reset ==> r.status == a.status
    ensures a.timers[t].reason == Elapsed ==> r.status == Some(DefaultActivity(cfg))
    ensures Inv(a) ==> Inv(r)
  {
    var reason := a.timers[t].reason;
    var timers := a.timers[t := Done(reason)];
    if reason != Reset then Announcer(Some(DefaultActivity(cfg)), timers, a.slot)
    else a.(timers := timers)
  }

  /** An event can happen: a timer fires only while armed, and a caller resumes only once its promise settled. */
  predicate Enabled(a: Announcer, e: Event)
  {
    match e
    case Announce(_, _) => true
    case Elapse(t) => t < |a.timers| && a.timers[t].Pending?
    case Continue(t) => t < |a.timers| && a.timers[t].Settled?
  }

  function Apply(a: Announcer, e: Event, cfg: Config): (r: Announcer)
    requires Enabled(a, e)
    ensures Inv(a) ==> Inv(r)
    ensures |r.timers| >= |a.timers|
  {
    match e
    case Announce(title, userPresent) => SetPlaying(a, title, userPresent, cfg)
    case Elapse(t) => Expire(a, t)
    case Continue(t) => Resume(a, t, cfg)
  }

  /** A run of events, where an event that cannot happen in the state reached is dropped. */
  function Run(a: Announcer, events: seq<Event>, cfg: Config): Announcer
    decreases |events|
  {
    if |events| == 0 then a
    else
      var next := if Enabled(a, events[0]) then Apply(a, events[0], cfg) else a;
      Run(next, events[1..], cfg)
  }

  /** Every run from a state satisfying the invariant ends in one that satisfies it. */
  lemma {:induction false} RunKeepsInv(a: Announcer, events: seq<Event>, cfg: Config)
    requires Inv(a)
    ensures Inv(Run(a, events, cfg))
    ensures |Run(a, events, cfg).timers| >= |a.timers|
    decreases |events|
  {
    if |events| > 0 {
      var next := if Enabled(a, events[0]) then Apply(a, events[0], cfg) else a;
      RunKeepsInv(next, events[1..], cfg);
    }
  }

  /**
   A cancelled timer stays cancelled: once its promise settled with "reset",
   no later event can make it fire, so its caller never reverts the activity.
   */
  lemma {:induction false} CancelledStaysCancelled(a: Announcer, events: seq<Event>, cfg: Config, t: nat)
    requires t < |a.timers| && HasReason(a.timers[t], Reset)
    ensures t < |Run(a, events, cfg).timers|
    ensures HasReason(Run(a, events, cfg).timers[t], Reset)
    decreases |events|
  {
    if |events| > 0 {
      var next := if Enabled(a, events[0]) then Apply(a, events[0], cfg) else a;
      if Enabled(a, events[0]) {
        match events[0]
        case Announce(title, userPresent) =>
          if userPresent && Truthy(title) && a.slot.Some? && a.slot.value < |a.timers| {
            assert next.timers[t] == Cancel(a.timers, a.slot.value, Reset)[t];
          }
        case Elapse(s) =>
        case Continue(s) =>
      }
      CancelledStaysCancelled(next, events[1..], cfg, t);
    }
  }

  /**
   setPlaying("X") followed by setPlaying("Y") before X's timer fires: X's
   timer is cancelled, Y's is the only one armed, and when X's caller resumes
   the activity still shows Y.
   */
  lemma SecondAnnouncementWins(a: Announcer, cfg: Config)
    requires Inv(a)
    ensures var a1 := SetPlaying(a, Some("X"), true, cfg);
      var a2 := SetPlaying(a1, Some("Y"), true, cfg);
      var x := |a.timers|;
      && a2.timers[x] == Settled(Reset)
      && a2.slot == Some(x + 1)
      && (forall s :: 0 <= s < |a2.timers| && a2.timers[s].Pending? ==> s == x + 1)
      && Resume(a2, x, cfg).status == Some(ActivityName("Y", cfg))
  {
  }
}
