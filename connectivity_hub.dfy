/** The connectivity page (components/ConnectivityHub.tsx): four network
    sources whose telemetry ticks every half second (a sliding jitter
    window and a drifting bitrate for each connected source with stats),
    a per-source sync-delay slider, and the sparkline's scale. The
    telemetry noise is an input. */
module Connectivity {
  import opened Types

  const TelemetryTickMs: nat := 500
  const SliderMax: int := 500
  const SliderStep: int := 10

  function Stats(ip: string, jitter: seq<real>, packetLoss: real, rtt: real, bufferUsage: real, syncDelay: int): ConnectivityStats {
    ConnectivityStats(Some(ip), jitter, packetLoss, rtt, bufferUsage, syncDelay)
  }

  const InitialSources: seq<MediaSource> := [
    MediaSource("cam-1", "MASTER NDI", NdiHx, "2K", 60, 15.2, 45, Connected,
                Some(Stats("192.168.1.101", [2.0, 3.0, 2.0, 4.0, 2.0], 0.01, 5.0, 0.2, 0)), None, None),
    MediaSource("cam-2", "DRONE SRT", Srt, "1080p", 60, 8.5, 250, Connected,
                Some(Stats("203.0.113.45", [15.0, 18.0, 12.0, 20.0, 16.0], 0.4, 85.0, 0.6, 120)), None, None),
    MediaSource("cam-3", "GOPRO RTMP", GoPro, "1080p", 60, 12.0, 120, Connecting, None, None, None),
    MediaSource("cam-4", "UVC CAPTURE", Uvc, "1080p", 50, 0.0, 5, Disconnected,
                Some(Stats("LOCAL", [0.0], 0.0, 1.0, 0.0, 20)), None, None)]

  // ---------------------------------------------------------------------
  // The telemetry tick

  /** Only a connected source that carries stats is updated by a tick. */
  predicate Live(s: MediaSource) {
    s.status == Connected && s.stats.Some?
  }

  /** Slide the window: drop the oldest sample and append the newest one,
      the previous newest plus `noise`. */
  function Slide(window: seq<real>, noise: real): (r: seq<real>)
    requires |window| > 0
    ensures |r| == |window|
    ensures r[..|r| - 1] == window[1..]
    ensures r[|r| - 1] == window[|window| - 1] + noise
  {
    window[1..] + [window[|window| - 1] + noise]
  }

  /** Sliding by the samples `xs` one at a time leaves the last |window|
      samples of the whole history `window + appended` — a fixed-length
      window over the stream. */
  function SlideAll(window: seq<real>, xs: seq<real>): seq<real>
    requires |window| > 0
    decreases |xs|
  {
    if |xs| == 0 then window
    else SlideAll(window[1..] + [xs[0]], xs[1..])
  }

  lemma {:induction false} SlideAllIsSuffix(window: seq<real>, xs: seq<real>)
    requires |window| > 0
    ensures SlideAll(window, xs) == (window + xs)[|xs|..]
    decreases |xs|
  {
    if |xs| > 0 {
      var w' := window[1..] + [xs[0]];
      SlideAllIsSuffix(w', xs[1..]);
      assert w' + xs[1..] == (window + xs)[1..];
      assert (w' + xs[1..])[|xs| - 1..] == (window + xs)[|xs|..];
    }
  }

  /** One tick's slide is a one-sample step of the stream window. */
  lemma SlideIsStreamStep(window: seq<real>, noise: real)
    requires |window| > 0
    ensures Slide(window, noise) == SlideAll(window, [window[|window| - 1] + noise])
    ensures Slide(window, noise) == (window + [window[|window| - 1] + noise])[1..]
  {
    SlideAllIsSuffix(window, [window[|window| - 1] + noise]);
  }

  /** `Math.random() * 4 - 2`. */
  predicate JitterNoise(n: real) {
    -2.0 <= n < 2.0
  }

  /** One source on one tick. `jitterNoise` and `bitrateNoise` are the two
      random draws; the bitrate's one-decimal rounding is not modelled. */
  function TickSource(s: MediaSource, jitterNoise: real, bitrateNoise: real): (r: MediaSource)
    requires Live(s) ==> |s.stats.value.jitter| > 0
    ensures !Live(s) ==> r == s
    ensures Live(s) ==> r == s.(bitrate := s.bitrate + bitrateNoise,
                                stats := Some(s.stats.value.(jitter := Slide(s.stats.value.jitter, jitterNoise))))
  {
    if !Live(s) then s
    else s.(bitrate := s.bitrate + bitrateNoise,
            stats := Some(s.stats.value.(jitter := Slide(s.stats.value.jitter, jitterNoise))))
  }

  /** Every source carrying stats has at least one jitter sample. */
  predicate WindowsNonEmpty(sources: seq<MediaSource>) {
    forall i :: 0 <= i < |sources| && sources[i].stats.Some? ==> |sources[i].stats.value.jitter| > 0
  }

  /** One firing of the telemetry interval, one pair of draws per source. */
  function Tick(sources: seq<MediaSource>, jitterNoise: seq<real>, bitrateNoise: seq<real>): (r: seq<MediaSource>)
    requires WindowsNonEmpty(sources) && |jitterNoise| == |sources| && |bitrateNoise| == |sources|
    ensures |r| == |sources|
    ensures forall i :: 0 <= i < |sources| ==> r[i] == TickSource(sources[i], jitterNoise[i], bitrateNoise[i])
  {
    seq(|sources|, i requires 0 <= i < |sources| => TickSource(sources[i], jitterNoise[i], bitrateNoise[i]))
  }

  /** A tick keeps every window's length (so windows stay non-empty),
      every id, name, status and sync delay; the newest sample of a live
      source moves by less than 2 from the previous newest. */
  lemma TickKeepsShape(sources: seq<MediaSource>, jitterNoise: seq<real>, bitrateNoise: seq<real>)
    requires WindowsNonEmpty(sources) && |jitterNoise| == |sources| && |bitrateNoise| == |sources|
    requires forall i :: 0 <= i < |jitterNoise| ==> JitterNoise(jitterNoise[i])
    ensures var r := Tick(sources, jitterNoise, bitrateNoise);
      WindowsNonEmpty(r) &&
      forall i :: 0 <= i < |sources| ==>
        r[i].id == sources[i].id && r[i].status == sources[i].status &&
        r[i].stats.Some? == sources[i].stats.Some? &&
        (r[i].stats.Some? ==>
          |r[i].stats.value.jitter| == |sources[i].stats.value.jitter| &&
          r[i].stats.value.syncDelay == sources[i].stats.value.syncDelay) &&
        (Live(sources[i]) ==>
          var w, w' := sources[i].stats.value.jitter, r[i].stats.value.jitter;
          w[|w| - 1] - 2.0 <= w'[|w'| - 1] < w[|w| - 1] + 2.0)
  {
  }

  // ---------------------------------------------------------------------
  // The sync-delay slider

  /** The values the range input produces: 0 to 500 in steps of 10. */
  predicate SliderValue(v: int) {
    0 <= v <= SliderMax && v % SliderStep == 0
  }

  /** The slider's position: the sync delay, or 0 without stats. */
  function SliderPosition(s: MediaSource): (r: int)
    ensures s.stats.None? ==> r == 0
    ensures s.stats.Some? ==> r == s.stats.value.syncDelay
  {
    if s.stats.Some? then s.stats.value.syncDelay else 0
  }

  /** updateSourceDelay: the sync delay of every source with that id and
      with stats becomes `delay`; nothing else changes. */
  function UpdateSourceDelay(sources: seq<MediaSource>, id: string, delay: int): (r: seq<MediaSource>)
    ensures |r| == |sources|
    ensures forall i :: 0 <= i < |sources| ==>
      if sources[i].id == id && sources[i].stats.Some?
      then r[i] == sources[i].(stats := Some(sources[i].stats.value.(syncDelay := delay)))
      else r[i] == sources[i]
  {
    seq(|sources|, i requires 0 <= i < |sources| =>
      if sources[i].id == id && sources[i].stats.Some?
      then sources[i].(stats := Some(sources[i].stats.value.(syncDelay := delay)))
      else sources[i])
  }

  predicate UniqueIds(sources: seq<MediaSource>) {
    forall i, j :: 0 <= i < j < |sources| ==> sources[i].id != sources[j].id
  }

  /** With distinct ids, moving source i's slider sets its position to the
      new value and leaves every other source as it was; a source without
      stats ignores the slider. */
  lemma DelayTouchesOne(sources: seq<MediaSource>, i: nat, delay: int)
    requires UniqueIds(sources) && i < |sources|
    ensures var r := UpdateSourceDelay(sources, sources[i].id, delay);
      (sources[i].stats.Some? ==> SliderPosition(r[i]) == delay) &&
      (sources[i].stats.None? ==> r == sources) &&
      forall j :: 0 <= j < |sources| && j != i ==> r[j] == sources[j]
  {
    var r := UpdateSourceDelay(sources, sources[i].id, delay);
    forall j | 0 <= j < |sources| && j != i
      ensures r[j] == sources[j]
    {
      if j < i {
        assert sources[j].id != sources[i].id;
      } else {
        assert sources[i].id != sources[j].id;
      }
    }
  }

  // ---------------------------------------------------------------------
  // The sparkline's scale

  /** `Math.max(...data, 1)`. */
  function SparkMax(data: seq<real>): (r: real)
    ensures r >= 1.0
    ensures forall i :: 0 <= i < |data| ==> data[i] <= r
    ensures r == 1.0 || exists i :: 0 <= i < |data| && data[i] == r
    decreases |data|
  {
    if |data| == 0 then 1.0
    else
      var rest := SparkMax(data[..|data| - 1]);
      assert forall i :: 0 <= i < |data| - 1 ==> data[..|data| - 1][i] == data[i];
      if data[|data| - 1] > rest then data[|data| - 1] else rest
  }

  // ---------------------------------------------------------------------
  // The component

  predicate ValidHub(sources: seq<MediaSource>) {
    UniqueIds(sources) && WindowsNonEmpty(sources)
  }

  lemma InitialHubValid()
    ensures ValidHub(InitialSources)
  {
  }

  class ConnectivityHub {
    var sources: seq<MediaSource>

    ghost predicate Valid()
      reads this
    {
      ValidHub(sources)
    }

    constructor ()
      ensures Valid() && sources == InitialSources
    {
      sources := InitialSources;
    }

    /** One firing of the telemetry interval. */
    method TelemetryTick(jitterNoise: seq<real>, bitrateNoise: seq<real>)
      requires Valid() && |jitterNoise| == |sources| && |bitrateNoise| == |sources|
      requires forall i :: 0 <= i < |jitterNoise| ==> JitterNoise(jitterNoise[i])
      modifies this
      ensures Valid()
      ensures sources == Tick(old(sources), jitterNoise, bitrateNoise)
    {
      TickKeepsShape(sources, jitterNoise, bitrateNoise);
      sources := Tick(sources, jitterNoise, bitrateNoise);
    }

    /** The slider of the source with this id moves to `delay`. */
    method SetSyncDelay(id: string, delay: int)
      requires Valid() && SliderValue(delay)
      modifies this
      ensures Valid()
      ensures sources == UpdateSourceDelay(old(sources), id, delay)
    {
      sources := UpdateSourceDelay(sources, id, delay);
    }
  }
}
