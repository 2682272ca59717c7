/**
 The duration-weighted clip selector of the YouTube manager.

 The catalog is laid end to end on one timeline; a random second of that
 timeline picks the video it falls in, and the offset inside that video is
 then pulled back so that a clip of the desired length fits. The random
 source is a parameter, so every function here is deterministic.
 */
module Youtube {
  import opened Wrappers

  /** Directory holding the cached audio of every catalog video. */
  const DownloadDir: string := "config"

  /** A catalog entry as the selector sees it: the video id and its length in seconds. */
  datatype Video = Video(id: string, durationSec: nat)

  /** A catalog entry with the offset at which it starts on the concatenated timeline. */
  datatype VideoAccum = VideoAccum(id: string, durationSec: nat, accumTime: nat)

  /** The running-offset pass over the catalog: every entry with its start, and the end of the timeline. */
  datatype Timeline = Timeline(accumVideos: seq<VideoAccum>, totalDuration: nat)

  /** The selected entry together with the chosen start point and the computed length. */
  datatype VideoClip = VideoClip(id: string, durationSec: nat, accumTime: nat, clipStartTime: int, clipLenth: int)

  /** What the manager hands to the audio preparation step. */
  datatype ClipData = ClipData(filename: string, length: int, startTime: int)

  /** The only error the selector throws: "Failed to select a video". */
  datatype SelectError = FailedToSelectVideo

  /** A value of Math.random(), the fraction num / den, which lies in [0, 1) when num < den. */
  datatype UnitDraw = UnitDraw(num: nat, den: nat)

  predicate IsUnitDraw(u: UnitDraw) {
    u.num < u.den
  }

  /** Total length of a run of catalog entries; the reference for the running offsets. */
  function SumDurations(videos: seq<Video>): nat
  {
    if |videos| == 0 then 0
    else SumDurations(videos[..|videos| - 1]) + videos[|videos| - 1].durationSec
  }

  /** Peeling the first entry off a run instead of the last. */
  lemma {:induction false} SumDurationsCons(videos: seq<Video>)
    requires |videos| > 0
    ensures SumDurations(videos) == videos[0].durationSec + SumDurations(videos[1..])
    decreases |videos|
  {
    var n := |videos|;
    if n == 1 {
      assert videos[..0] == [];
      assert videos[1..] == [];
    } else {
      SumDurationsCons(videos[..n - 1]);
      assert videos[..n - 1][1..] == videos[1..][..n - 2];
      assert videos[1..][n - 2] == videos[n - 1];
    }
  }

  /** Extending a prefix by one entry adds that entry's duration. */
  lemma SumDurationsSnoc(videos: seq<Video>, i: nat)
    requires i < |videos|
    ensures SumDurations(videos[..i + 1]) == SumDurations(videos[..i]) + videos[i].durationSec
  {
    assert videos[..i + 1][..i] == videos[..i];
  }

  /** Start offsets never decrease along the catalog: an entry ends no later than a later entry starts. */
  lemma {:induction false} SumDurationsMonotone(videos: seq<Video>, i: nat, j: nat)
    requires i < j <= |videos|
    ensures SumDurations(videos[..i]) + videos[i].durationSec <= SumDurations(videos[..j])
    decreases j - i
  {
    SumDurationsSnoc(videos, i);
    if j > i + 1 {
      SumDurationsMonotone(videos, i + 1, j);
    }
  }

  /** An entry ends no later than the whole timeline does. */
  lemma EntryEndsWithinTotal(videos: seq<Video>, k: nat)
    requires k < |videos|
    ensures SumDurations(videos[..k]) + videos[k].durationSec <= SumDurations(videos)
  {
    SumDurationsMonotone(videos, k, |videos|);
    assert videos[..|videos|] == videos;
  }

  lemma PrefixesSumFromHead(videos: seq<Video>)
    requires |videos| > 0
    ensures forall i :: 1 <= i <= |videos| ==>
      SumDurations(videos[..i]) == videos[0].durationSec + SumDurations(videos[1..][..i - 1])
  {
    forall i | 1 <= i <= |videos|
      ensures SumDurations(videos[..i]) == videos[0].durationSec + SumDurations(videos[1..][..i - 1])
    {
      SumDurationsCons(videos[..i]);
      assert videos[..i][1..] == videos[1..][..i - 1];
    }
  }

  /**
   The `map` over the catalog with a running `timeAccum`: each entry is tagged
   with the offset reached so far, which then grows by the entry's duration.
   */
  function Accumulate(videos: seq<Video>, timeAccum: nat): (r: Timeline)
    ensures |r.accumVideos| == |videos|
    ensures forall i :: 0 <= i < |videos| ==>
      r.accumVideos[i] == VideoAccum(videos[i].id, videos[i].durationSec, timeAccum + SumDurations(videos[..i]))
    ensures r.totalDuration == timeAccum + SumDurations(videos)
    decreases |videos|
  {
    if |videos| == 0 then Timeline([], timeAccum)
    else
      var head := VideoAccum(videos[0].id, videos[0].durationSec, timeAccum);
      var rest := Accumulate(videos[1..], timeAccum + videos[0].durationSec);
      SumDurationsCons(videos);
      PrefixesSumFromHead(videos);
      assert videos[..0] == [];
      Timeline([head] + rest.accumVideos, rest.totalDuration)
  }

  /** `(num * t) / den` stays below `t` when `num < den`. */
  lemma ScaledDrawBelow(num: nat, den: nat, t: nat)
    requires num < den && t > 0
    ensures (num * t) / den < t
  {
    var q := (num * t) / den;
    assert q * den <= num * t;
    assert num * t < den * t by {
      assert (den - num) * t > 0;
    }
    assert (t - q) * den > 0;
  }

  /**
   The whole second of the timeline that the draw `u` scales to: below the
   total when the timeline is not empty, and 0 when it is.
   */
  function RandomTime(totalDuration: nat, u: UnitDraw): (r: nat)
    requires IsUnitDraw(u)
    ensures totalDuration == 0 ==> r == 0
    ensures totalDuration > 0 ==> r < totalDuration
  {
    if totalDuration > 0 then ScaledDrawBelow(u.num, u.den, totalDuration); (u.num * totalDuration) / u.den
    else (u.num * totalDuration) / u.den
  }

  /** Every second of a non-empty timeline is reached by some draw. */
  lemma RandomTimeReachesEverySecond(totalDuration: nat, r: nat)
    requires r < totalDuration
    ensures IsUnitDraw(UnitDraw(r, totalDuration))
    ensures RandomTime(totalDuration, UnitDraw(r, totalDuration)) == r
  {
    var q := (r * totalDuration) / totalDuration;
    var m := (r * totalDuration) % totalDuration;
    assert r * totalDuration == q * totalDuration + m;
    assert (r - q) * totalDuration == m by {
      assert (r - q) * totalDuration == r * totalDuration - q * totalDuration;
    }
    ProductPinned(r - q, totalDuration);
  }

  /** A whole multiple of a positive number is either 0 or at least that number in size. */
  lemma ProductPinned(d: int, t: int)
    requires t > 0
    ensures d >= 1 ==> d * t >= t
    ensures d <= -1 ==> d * t <= -t
  {
    assert d * t - t == (d - 1) * t;
    assert d * t + t == (d + 1) * t;
  }

  /** The timeline read from its last entry to its first. */
  function Reverse<T>(s: seq<T>): (r: seq<T>)
    ensures |r| == |s|
    ensures forall i :: 0 <= i < |s| ==> r[i] == s[|s| - 1 - i]
  {
    if |s| == 0 then [] else [s[|s| - 1]] + Reverse(s[..|s| - 1])
  }

  /** The index of the first entry that starts at or before `randomTime`, if any. */
  function FindStartedBy(entries: seq<VideoAccum>, randomTime: nat): (o: Option<nat>)
    ensures o.Some? ==> o.value < |entries| && entries[o.value].accumTime <= randomTime
    ensures o.Some? ==> forall j :: 0 <= j < o.value ==> entries[j].accumTime > randomTime
    ensures o.None? ==> forall j :: 0 <= j < |entries| ==> entries[j].accumTime > randomTime
  {
    if |entries| == 0 then None
    else if randomTime >= entries[0].accumTime then Some(0)
    else
      match FindStartedBy(entries[1..], randomTime)
      case None => None
      case Some(i) => Some(i + 1)
  }

  /** Entry `k` is the last one of the timeline that starts at or before `randomTime`. */
  predicate IsLastStartedBy(entries: seq<VideoAccum>, k: int, randomTime: nat)
  {
    && 0 <= k < |entries|
    && entries[k].accumTime <= randomTime
    && forall j :: k < j < |entries| ==> entries[j].accumTime > randomTime
  }

  /** The first hit of the search over the reversed timeline, as an index of the timeline in its own order. */
  function SelectVideo(entries: seq<VideoAccum>, randomTime: nat): (o: Option<nat>)
    ensures o.Some? ==> IsLastStartedBy(entries, o.value, randomTime)
    ensures o.None? <==> forall j :: 0 <= j < |entries| ==> entries[j].accumTime > randomTime
  {
    var reversed := Reverse(entries);
    assert forall j :: 0 <= j < |entries| ==> entries[j] == reversed[|entries| - 1 - j];
    match FindStartedBy(reversed, randomTime)
    case None => None
    case Some(i) => Some(|entries| - 1 - i)
  }

  /** The roll-back test: fewer than the desired seconds remain after the raw start point. */
  predicate RollsBack(v: VideoAccum, desiredClipLength: int, randomTime: nat)
  {
    v.durationSec - (randomTime - v.accumTime) < desiredClipLength
  }

  /**
   The start-point computation for the selected entry: the raw offset of the
   draw inside the video, rolled back when too little of the video remains,
   and clamped to the beginning when the video is shorter than the request.
   The length is only recomputed by the clamp.
   */
  function ClipAt(v: VideoAccum, desiredClipLength: int, randomTime: nat): (c: VideoClip)
    requires v.accumTime <= randomTime
    ensures c.id == v.id && c.durationSec == v.durationSec && c.accumTime == v.accumTime
    ensures 0 <= c.clipStartTime
    ensures randomTime <= v.accumTime + v.durationSec ==>
      c.clipStartTime <= v.durationSec && 0 <= c.clipLenth && c.clipStartTime + c.clipLenth <= v.durationSec
    ensures v.durationSec >= desiredClipLength ==> c.clipStartTime + desiredClipLength <= v.durationSec
    ensures v.durationSec < desiredClipLength ==> c.clipStartTime == 0 && c.clipLenth == v.durationSec
    ensures !RollsBack(v, desiredClipLength, randomTime) ==>
      c.clipStartTime == randomTime - v.accumTime && c.clipLenth == v.durationSec - c.clipStartTime
    ensures RollsBack(v, desiredClipLength, randomTime) && v.durationSec >= desiredClipLength ==>
      c.clipStartTime == v.durationSec - desiredClipLength
      && c.clipLenth == v.durationSec - (randomTime - v.accumTime)
  {
    var clipStartPoint := randomTime - v.accumTime;
    var actualClipLength := v.durationSec - clipStartPoint;
    if actualClipLength < desiredClipLength then
      var rolledBack := v.durationSec - desiredClipLength;
      if rolledBack < 0 then VideoClip(v.id, v.durationSec, v.accumTime, 0, v.durationSec)
      else VideoClip(v.id, v.durationSec, v.accumTime, rolledBack, actualClipLength)
    else VideoClip(v.id, v.durationSec, v.accumTime, clipStartPoint, actualClipLength)
  }

  /** Entry `k` of the catalog is the last one whose start offset is at or before `randomTime`. */
  predicate Selected(videos: seq<Video>, k: int, randomTime: nat)
  {
    && 0 <= k < |videos|
    && SumDurations(videos[..k]) <= randomTime
    && forall j :: k < j < |videos| ==> SumDurations(videos[..j]) > randomTime
  }

  /** The draw the selector makes for a catalog and a value of Math.random(). */
  function DrawFor(videos: seq<Video>, u: UnitDraw): nat
    requires IsUnitDraw(u)
  {
    RandomTime(SumDurations(videos), u)
  }

  /**
   selectRandomVideoClip: lay the catalog on a timeline, draw a second of it,
   take the last entry starting at or before that second and place the clip.
   */
  function SelectRandomVideoClip(videos: seq<Video>, desiredClipLength: int, u: UnitDraw): (r: Result<VideoClip, SelectError>)
    requires IsUnitDraw(u)
    ensures r.Failure? <==> |videos| == 0
    ensures r.Success? ==> exists k :: (Selected(videos, k, DrawFor(videos, u))
      && r.value.id == videos[k].id
      && r.value.durationSec == videos[k].durationSec
      && r.value.accumTime == SumDurations(videos[..k])
      && r.value == ClipAt(VideoAccum(videos[k].id, videos[k].durationSec, SumDurations(videos[..k])), desiredClipLength, DrawFor(videos, u)))
    ensures r.Success? ==> 0 <= r.value.clipStartTime <= r.value.durationSec
    ensures r.Success? ==> 0 <= r.value.clipLenth && r.value.clipStartTime + r.value.clipLenth <= r.value.durationSec
    ensures r.Success? && r.value.durationSec >= desiredClipLength ==>
      r.value.clipStartTime + desiredClipLength <= r.value.durationSec
    ensures r.Success? && r.value.durationSec < desiredClipLength ==>
      r.value.clipStartTime == 0 && r.value.clipLenth == r.value.durationSec
  {
    var timeline := Accumulate(videos, 0);
    var randomTime := RandomTime(timeline.totalDuration, u);
    FirstEntryStartsAtZero(videos);
    match SelectVideo(timeline.accumVideos, randomTime)
    case None => Failure(FailedToSelectVideo)
    case Some(k) =>
      PickedEntry(videos, timeline.accumVideos, randomTime, k);
      assert timeline.accumVideos[k] == VideoAccum(videos[k].id, videos[k].durationSec, SumDurations(videos[..k]));
      Success(ClipAt(timeline.accumVideos[k], desiredClipLength, randomTime))
  }

  lemma FirstEntryStartsAtZero(videos: seq<Video>)
    ensures |videos| > 0 ==> Accumulate(videos, 0).accumVideos[0].accumTime == 0
  {
    assert videos[..0] == [];
  }

  /** The last timeline entry starting by the draw is the selected catalog entry, and the draw lies within it. */
  lemma PickedEntry(videos: seq<Video>, entries: seq<VideoAccum>, randomTime: nat, k: nat)
    requires |entries| == |videos|
    requires forall i :: 0 <= i < |videos| ==> entries[i].accumTime == SumDurations(videos[..i])
    requires randomTime == 0 || randomTime < SumDurations(videos)
    requires IsLastStartedBy(entries, k, randomTime)
    ensures Selected(videos, k, randomTime)
    ensures randomTime <= SumDurations(videos[..k]) + videos[k].durationSec
  {
    assert entries[k].accumTime == SumDurations(videos[..k]);
    forall j | k < j < |videos|
      ensures SumDurations(videos[..j]) > randomTime
    {
      assert entries[j].accumTime > randomTime;
    }
    ClipWithinEntry(videos, k, randomTime);
  }

  /** The draw lies at or before the end of the entry it selects. */
  lemma ClipWithinEntry(videos: seq<Video>, k: nat, randomTime: nat)
    requires Selected(videos, k, randomTime)
    requires randomTime == 0 || randomTime < SumDurations(videos)
    ensures randomTime <= SumDurations(videos[..k]) + videos[k].durationSec
  {
    if randomTime > 0 {
      SelectedCoversDraw(videos, k, randomTime);
    }
  }

  /**
   Duration-weighted sampling: on a non-empty timeline an entry is selected
   exactly by the draws inside its own interval [start, start + duration),
   so a selected entry always has a positive duration and a draw on a
   boundary goes to the entry that starts there.
   */
  lemma SelectedCoversDraw(videos: seq<Video>, k: nat, randomTime: nat)
    requires k < |videos| && randomTime < SumDurations(videos)
    ensures Selected(videos, k, randomTime) <==>
      SumDurations(videos[..k]) <= randomTime < SumDurations(videos[..k]) + videos[k].durationSec
    ensures Selected(videos, k, randomTime) ==> videos[k].durationSec > 0
  {
    SumDurationsSnoc(videos, k);
    if k + 1 < |videos| {
      if SumDurations(videos[..k]) <= randomTime < SumDurations(videos[..k]) + videos[k].durationSec {
        forall j | k < j < |videos|
          ensures SumDurations(videos[..j]) > randomTime
        {
          SumDurationsMonotone(videos, k, j);
        }
      }
    } else {
      assert videos[..k + 1] == videos;
    }
  }

  /** At most one entry is selected by a draw. */
  lemma SelectedUnique(videos: seq<Video>, k: int, k': int, randomTime: nat)
    requires Selected(videos, k, randomTime) && Selected(videos, k', randomTime)
    ensures k == k'
  {
  }

  /**
   A catalog whose entries all last zero seconds has an empty timeline: the
   draw is 0 and the last entry is selected, with start 0 and length 0.
   */
  lemma {:induction false} AllZeroSelectsLast(videos: seq<Video>, desiredClipLength: int, u: UnitDraw)
    requires IsUnitDraw(u)
    requires |videos| > 0
    requires forall i :: 0 <= i < |videos| ==> videos[i].durationSec == 0
    ensures DrawFor(videos, u) == 0
    ensures Selected(videos, |videos| - 1, 0)
    ensures SelectRandomVideoClip(videos, desiredClipLength, u)
      == Success(VideoClip(videos[|videos| - 1].id, 0, 0, 0, 0))
  {
    forall i | 0 <= i <= |videos|
      ensures SumDurations(videos[..i]) == 0
    {
      AllZeroPrefix(videos, i);
    }
    assert videos[..|videos|] == videos;
    var r := SelectRandomVideoClip(videos, desiredClipLength, u);
    var k :| Selected(videos, k, 0) && r.value.id == videos[k].id
      && r.value.durationSec == videos[k].durationSec && r.value.accumTime == SumDurations(videos[..k]);
    SelectedUnique(videos, k, |videos| - 1, 0);
  }

  lemma {:induction false} AllZeroPrefix(videos: seq<Video>, i: nat)
    requires i <= |videos|
    requires forall j :: 0 <= j < |videos| ==> videos[j].durationSec == 0
    ensures SumDurations(videos[..i]) == 0
    decreases i
  {
    if i > 0 {
      SumDurationsSnoc(videos, i - 1);
      AllZeroPrefix(videos, i - 1);
    }
  }

  /** The cache file of a video: its id with the `.opus` extension, in the download directory `config`. */
  function CacheFilename(id: string): string
  {
    DownloadDir + "/" + id + ".opus"
  }

  /**
   returnRandomClip: the cached file of the selected video, the chosen start
   point, and the desired length as asked for, whatever the clamp computed.
   */
  function ReturnRandomClip(videos: seq<Video>, desiredClipLength: int, u: UnitDraw): (r: Result<ClipData, SelectError>)
    requires IsUnitDraw(u)
    ensures r.Failure? <==> |videos| == 0
    ensures r.Failure? ==> r.error == FailedToSelectVideo
    ensures r.Success? ==> exists k :: (Selected(videos, k, DrawFor(videos, u))
      && r.value.filename == "config/" + videos[k].id + ".opus"
      && r.value.startTime == ClipAt(VideoAccum(videos[k].id, videos[k].durationSec, SumDurations(videos[..k])),
                                     desiredClipLength, DrawFor(videos, u)).clipStartTime)
    ensures r.Success? ==> r.value.length == desiredClipLength
    ensures r.Success? ==> r.value.startTime == SelectRandomVideoClip(videos, desiredClipLength, u).value.clipStartTime
    ensures r.Success? ==> r.value.startTime >= 0
  {
    match SelectRandomVideoClip(videos, desiredClipLength, u)
    case Failure(e) => Failure(e)
    case Success(clip) =>
      SelectedFilename(videos, desiredClipLength, DrawFor(videos, u), clip);
      Success(ClipData(CacheFilename(clip.id), desiredClipLength, clip.clipStartTime))
  }

  /** The selected clip's cache file and start point, stated of the selected catalog entry. */
  lemma SelectedFilename(videos: seq<Video>, desiredClipLength: int, draw: nat, clip: VideoClip)
    requires exists k :: (Selected(videos, k, draw) && clip.id == videos[k].id
      && clip == ClipAt(VideoAccum(videos[k].id, videos[k].durationSec, SumDurations(videos[..k])), desiredClipLength, draw))
    ensures exists k :: (Selected(videos, k, draw)
      && CacheFilename(clip.id) == "config/" + videos[k].id + ".opus"
      && clip.clipStartTime == ClipAt(VideoAccum(videos[k].id, videos[k].durationSec, SumDurations(videos[..k])),
                                      desiredClipLength, draw).clipStartTime)
  {
    var k :| Selected(videos, k, draw) && clip.id == videos[k].id
      && clip == ClipAt(VideoAccum(videos[k].id, videos[k].durationSec, SumDurations(videos[..k])), desiredClipLength, draw);
    assert CacheFilename(clip.id) == "config/" + videos[k].id + ".opus";
  }

  /**
   Two draws on the catalog [A: 30 s, B: 10 s] with a 10 s request. Second 25
   falls in A five seconds before its end and is rolled back to 20; second 35
   falls in B, which is rolled back to 0. In both the computed length keeps
   its pre-roll-back value of 5, while the returned length is 10.
   */
  lemma RollBackScenario()
    ensures var videos := [Video("A", 30), Video("B", 10)];
      && SelectRandomVideoClip(videos, 10, UnitDraw(25, 40)) == Success(VideoClip("A", 30, 0, 20, 5))
      && SelectRandomVideoClip(videos, 10, UnitDraw(35, 40)) == Success(VideoClip("B", 10, 30, 0, 5))
      && SelectRandomVideoClip(videos, 10, UnitDraw(30, 40)) == Success(VideoClip("B", 10, 30, 0, 10))
      && ReturnRandomClip(videos, 10, UnitDraw(35, 40)) == Success(ClipData("config/B.opus", 10, 0))
  {
    var videos := [Video("A", 30), Video("B", 10)];
    assert videos[..0] == [];
    assert videos[..1] == [Video("A", 30)];
    assert videos[..1][..0] == [];
    assert videos[..2] == videos;
    assert SumDurations(videos) == 40;
    var timeline := Accumulate(videos, 0);
    assert timeline.accumVideos == [VideoAccum("A", 30, 0), VideoAccum("B", 10, 30)];
    assert RandomTime(40, UnitDraw(25, 40)) == 25;
    assert RandomTime(40, UnitDraw(35, 40)) == 35;
    assert RandomTime(40, UnitDraw(30, 40)) == 30;
    assert CacheFilename("B") == "config/B.opus";
  }
}
