/** The production switcher of the main dashboard (components/Dashboard.tsx):
    program and preview cameras, the transition type, the T-bar TAKE that
    moves the bar 4 points per tick and cuts at 100, the dropped-frame
    counter, and the nine-source table derived from the source index.
    Random telemetry (frame drops, per-source bitrates) is an input. */
module Switcher {
  import opened Types
  import Text

  const SourceCount: nat := 9
  /** Each interval firing moves the T-bar this far. */
  const TakeStep: int := 4
  /** The T-bar position at which the take commits. */
  const TakeEnd: int := 100

  // ---------------------------------------------------------------------
  // The source table

  /** The id of the `i`-th source, `cam-${i + 1}`. */
  function CameraId(i: nat): string {
    "cam-" + Text.Decimal(i + 1)
  }

  function SourceName(i: nat): string {
    if i == 0 then "MASTER NDI"
    else if i == 1 then "SIDELINE 4K"
    else if i == 4 then "DJI DRONE"
    else if i == 5 then "GOAL GOPRO"
    else "SOURCE 0" + Text.Decimal(i + 1)
  }

  function SourceKind(i: nat): SourceType {
    if i == 0 then NdiHx else if i == 1 then Uvc else if i == 4 then DjiDrone else GoPro
  }

  function SourceStatusAt(i: nat): SourceStatus {
    if i == 8 then Disconnected else if i == 7 then Connecting else Connected
  }

  /** The `i`-th entry of the table; `bitrate` is the live bitrate for the
      master and a random draw for the others. */
  function SourceAt(i: nat, bitrate: real): (s: MediaSource)
    requires i < SourceCount
    ensures s.id == CameraId(i) && s.fps == 60 && s.latency == 18 + 4 * i
    ensures s.status == SourceStatusAt(i) && s.bitrate == bitrate
    ensures s.stats.None? && s.health.None? && s.ptzState.None?
  {
    MediaSource(
      CameraId(i), SourceName(i), SourceKind(i),
      if i == 0 then "2560x1440" else "1920x1080",
      60, bitrate, 18 + i * 4, SourceStatusAt(i), None, None, None)
  }

  /** The whole table, one bitrate per source. */
  function Sources(bitrates: seq<real>): (t: seq<MediaSource>)
    requires |bitrates| == SourceCount
    ensures |t| == SourceCount
    ensures forall i :: 0 <= i < SourceCount ==> t[i] == SourceAt(i, bitrates[i])
  {
    seq(SourceCount, i requires 0 <= i < SourceCount => SourceAt(i, bitrates[i]))
  }

  /** Below ten the id is `cam-` and one digit. */
  lemma CameraIdSpelled(i: nat)
    requires i < SourceCount
    ensures CameraId(i) == "cam-" + [Text.DigitChar(i + 1)]
  {
  }

  /** Ids are `cam-1` to `cam-9`, all distinct; only the last source is
      disconnected and only the one before it connecting. */
  lemma SourcesTable(bitrates: seq<real>)
    requires |bitrates| == SourceCount
    ensures forall i, j :: 0 <= i < j < SourceCount ==> Sources(bitrates)[i].id != Sources(bitrates)[j].id
    ensures forall i :: 0 <= i < SourceCount ==>
      (Sources(bitrates)[i].status == Disconnected <==> i == 8)
      && (Sources(bitrates)[i].status == Connecting <==> i == 7)
    ensures Sources(bitrates)[0].id == "cam-1" && Sources(bitrates)[8].id == "cam-9"
  {
    var t := Sources(bitrates);
    forall i, j | 0 <= i < j < SourceCount
      ensures t[i].id != t[j].id
    {
      CameraIdSpelled(i);
      CameraIdSpelled(j);
      assert t[i].id[4] != t[j].id[4];
    }
    CameraIdSpelled(0);
    CameraIdSpelled(8);
  }

  /** `sources.find(s => s.id === id)`. */
  function FindSource(t: seq<MediaSource>, id: string): (r: Option<MediaSource>)
    ensures r.Some? ==> r.value in t && r.value.id == id
    ensures r.None? ==> forall i :: 0 <= i < |t| ==> t[i].id != id
  {
    if t == [] then None
    else if t[0].id == id then Some(t[0])
    else FindSource(t[1..], id)
  }

  /** In a table with distinct ids, looking up an entry's id finds that
      entry. */
  lemma {:induction false} FindSourceAt(t: seq<MediaSource>, i: nat)
    requires i < |t|
    requires forall a, b :: 0 <= a < b < |t| ==> t[a].id != t[b].id
    ensures FindSource(t, t[i].id) == Some(t[i])
    decreases i
  {
    if i > 0 {
      assert t[0].id != t[i].id;
      FindSourceAt(t[1..], i - 1);
    }
  }

  // ---------------------------------------------------------------------
  // The switcher

  /** A take under way: the interval closure's local `progress` and the
      preview camera it captured when TAKE was pressed. */
  datatype TakeRun = TakeRun(progress: int, target: string)

  /** The switcher's state. */
  datatype SwitcherState = SwitcherState(
    activeCam: string,
    previewCam: string,
    transition: TransitionType,
    isTransitioning: bool,
    tBarPos: int,
    run: Option<TakeRun>,
    droppedFrames: nat)

  const InitialSwitcher: SwitcherState := SwitcherState("cam-1", "cam-2", Fade, false, 0, None, 0)

  /** A take is under way exactly while the flag is up; the bar shows its
      progress, a multiple of 4 below 100, and rests at 0 otherwise. */
  predicate ValidSwitcher(s: SwitcherState) {
    (s.isTransitioning <==> s.run.Some?)
    && (s.run.Some? ==>
          s.tBarPos == s.run.value.progress
          && 0 <= s.run.value.progress < TakeEnd && s.run.value.progress % TakeStep == 0)
    && (s.run.None? ==> s.tBarPos == 0)
  }

  /** handleTake: ignored while a take runs; otherwise the flag goes up
      and a run starts from 0 towards the current preview. */
  function Take(s: SwitcherState): SwitcherState {
    if s.isTransitioning then s
    else s.(isTransitioning := true, run := Some(TakeRun(0, s.previewCam)))
  }

  /** One firing of the take interval. */
  function TakeTick(s: SwitcherState): (r: SwitcherState)
    requires s.run.Some?
  {
    var progress := s.run.value.progress + TakeStep;
    if progress >= TakeEnd then
      s.(activeCam := s.run.value.target, isTransitioning := false, tBarPos := 0, run := None)
    else
      s.(tBarPos := progress, run := Some(TakeRun(progress, s.run.value.target)))
  }

  /** A tick moves the bar by 4, or commits the captured camera to program
      and resets the bar; it never touches the preview, the transition type
      or the frame counter. */
  lemma TakeTickSteps(s: SwitcherState)
    requires ValidSwitcher(s) && s.run.Some?
    ensures ValidSwitcher(TakeTick(s))
    ensures TakeTick(s).previewCam == s.previewCam && TakeTick(s).transition == s.transition
    ensures TakeTick(s).droppedFrames == s.droppedFrames
    ensures s.run.value.progress + TakeStep < TakeEnd ==>
      TakeTick(s).tBarPos == s.tBarPos + TakeStep && TakeTick(s).activeCam == s.activeCam
    ensures s.run.value.progress + TakeStep >= TakeEnd ==>
      TakeTick(s).activeCam == s.run.value.target && !TakeTick(s).isTransitioning && TakeTick(s).tBarPos == 0
  {
  }

  function Ticks(s: SwitcherState, n: nat): SwitcherState
    requires ValidSwitcher(s)
    decreases n
  {
    if n == 0 || s.run.None? then s
    else
      TakeTickSteps(s);
      Ticks(TakeTick(s), n - 1)
  }

  /** After `k` < 25 ticks the take is still running with the bar at 4k. */
  lemma {:induction false} TicksBeforeEnd(s: SwitcherState, k: nat)
    requires ValidSwitcher(s) && !s.isTransitioning && k < 25
    ensures Ticks(Take(s), k) == s.(isTransitioning := true, tBarPos := TakeStep * k, run := Some(TakeRun(TakeStep * k, s.previewCam)))
  {
    if k > 0 {
      TicksBeforeEnd(s, k - 1);
      var before := Ticks(Take(s), k - 1);
      TicksSplit(Take(s), k - 1);
      assert Ticks(Take(s), k) == Ticks(before, 1);
    }
  }

  lemma {:induction false} TicksSplit(s: SwitcherState, n: nat)
    requires ValidSwitcher(s)
    ensures ValidSwitcher(Ticks(s, n))
    ensures Ticks(s, n + 1) == Ticks(Ticks(s, n), 1)
    decreases n
  {
    if n > 0 && s.run.Some? {
      TakeTickSteps(s);
      TicksSplit(TakeTick(s), n - 1);
    }
  }

  /** A take started from rest commits on exactly the 25th tick: the
      preview captured at TAKE goes to program, the bar returns to 0, and
      the preview itself is unchanged. */
  lemma TakeCommitsOnTick25(s: SwitcherState)
    requires ValidSwitcher(s) && !s.isTransitioning
    ensures Ticks(Take(s), 24).isTransitioning && Ticks(Take(s), 24).tBarPos == 96
    ensures Ticks(Take(s), 25) == s.(activeCam := s.previewCam)
  {
    TicksBeforeEnd(s, 24);
    TicksSplit(Take(s), 24);
  }

  /** A second TAKE during a take changes nothing. */
  lemma TakeWhileTransitioning(s: SwitcherState)
    requires ValidSwitcher(s) && s.isTransitioning
    ensures Take(s) == s
  {
  }

  // ---------------------------------------------------------------------
  // The component

  class Dashboard {
    var activeCam: string
    var previewCam: string
    var transition: TransitionType
    var isTransitioning: bool
    var tBarPos: int
    var droppedFrames: nat
    /** The running take interval, if any. */
    var run: Option<TakeRun>

    function State(): SwitcherState
      reads this
    {
      SwitcherState(activeCam, previewCam, transition, isTransitioning, tBarPos, run, droppedFrames)
    }

    ghost predicate Valid()
      reads this
    {
      ValidSwitcher(State())
    }

    constructor ()
      ensures Valid() && State() == InitialSwitcher
    {
      activeCam := "cam-1";
      previewCam := "cam-2";
      transition := Fade;
      isTransitioning := false;
      tBarPos := 0;
      droppedFrames := 0;
      run := None;
    }

    /** handleTake. */
    method HandleTake()
      requires Valid()
      modifies this
      ensures Valid() && State() == Take(old(State()))
    {
      if isTransitioning {
        return;
      }
      isTransitioning := true;
      run := Some(TakeRun(0, previewCam));
    }

    /** One firing of the take interval. */
    method TakeIntervalFires()
      requires Valid() && run.Some?
      modifies this
      ensures Valid() && State() == TakeTick(old(State()))
    {
      TakeTickSteps(State());
      var progress := run.value.progress + TakeStep;
      tBarPos := progress;
      if progress >= TakeEnd {
        activeCam := run.value.target;
        isTransitioning := false;
        tBarPos := 0;
        run := None;
      } else {
        run := Some(TakeRun(progress, run.value.target));
      }
    }

    /** The interval firing until it clears itself: the captured preview
        ends up on program and the switcher is at rest again. */
    method RunTakeToEnd()
      requires Valid() && run.Some?
      modifies this
      ensures Valid() && !isTransitioning && tBarPos == 0
      ensures activeCam == old(run.value.target)
      ensures previewCam == old(previewCam) && transition == old(transition)
      ensures droppedFrames == old(droppedFrames)
    {
      var target := run.value.target;
      while run.Some?
        invariant Valid()
        invariant run.Some? ==> run.value.target == target
        invariant run.None? ==> activeCam == target
        invariant previewCam == old(previewCam) && transition == old(transition)
        invariant droppedFrames == old(droppedFrames)
        decreases if run.Some? then TakeEnd - run.value.progress else 0
      {
        TakeIntervalFires();
      }
    }

    /** A click on a source tile. */
    method SelectPreview(id: string)
      requires Valid()
      modifies this
      ensures Valid() && State() == old(State()).(previewCam := id)
    {
      previewCam := id;
    }

    /** A double click on a source tile: preview it, then TAKE. */
    method DoubleClickSource(id: string)
      requires Valid()
      modifies this
      ensures Valid() && State() == Take(old(State()).(previewCam := id))
    {
      SelectPreview(id);
      HandleTake();
    }

    /** The CUT / FADE / WIPE buttons. */
    method SelectTransition(t: TransitionType)
      requires Valid()
      modifies this
      ensures Valid() && State() == old(State()).(transition := t)
    {
      transition := t;
    }

    /** One firing of the telemetry interval; `drop` is the random draw. */
    method TelemetryTick(drop: bool)
      requires Valid()
      modifies this
      ensures Valid()
      ensures State() == old(State()).(droppedFrames := old(droppedFrames) + if drop then 1 else 0)
      ensures droppedFrames >= old(droppedFrames)
    {
      if drop {
        droppedFrames := droppedFrames + 1;
      }
    }
  }
}
