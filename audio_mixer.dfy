/** The audio mixer (components/AudioMixer.tsx): six channels edited by
    id through partial updates (fader, mute, audio-follow-video, lock,
    delay), a meter that floors at -60 dB and pins muted channels there,
    and the auto-ducking flag driven by the commentary channel. The meter
    noise is an input. */
module Mixer {
  import opened Types

  const FloorDb: real := -60.0
  const DelayStepMs: int := 10
  /** Ducking engages while the commentary channel peaks above this. */
  const DuckingThresholdDb: real := -10.0

  const InitialChannels: seq<AudioChannel> := [
    AudioChannel("1", "Master Comment", 0.85, false, true, false, 0, -3.0),
    AudioChannel("2", "Ambient Field L", 0.6, false, false, true, 120, -12.0),
    AudioChannel("3", "Ambient Field R", 0.6, false, false, true, 120, -12.0),
    AudioChannel("4", "Umpire Wireless", 0.4, false, false, false, 80, -18.0),
    AudioChannel("5", "FX / Stings", 0.5, false, false, false, 0, -6.0),
    AudioChannel("6", "Aux Return", 0.0, true, false, false, 400, -60.0)]

  // ---------------------------------------------------------------------
  // Partial updates

  /** `Partial<AudioChannel>` restricted to the fields the handlers set. */
  datatype ChannelPatch = ChannelPatch(
    level: Option<real>,
    isMuted: Option<bool>,
    isLocked: Option<bool>,
    followVideo: Option<bool>,
    delayMs: Option<int>)

  const NoChange: ChannelPatch := ChannelPatch(None, None, None, None, None)

  function Pick<T>(update: Option<T>, current: T): T {
    if update.Some? then update.value else current
  }

  /** `{ ...ch, ...updates }`: every field the patch carries overrides. */
  function Merge(c: AudioChannel, u: ChannelPatch): (r: AudioChannel)
    ensures r.id == c.id && r.name == c.name && r.peakDb == c.peakDb
    ensures u.level.None? ==> r.level == c.level
    ensures u.isMuted.None? ==> r.isMuted == c.isMuted
    ensures u.isLocked.None? ==> r.isLocked == c.isLocked
    ensures u.followVideo.None? ==> r.followVideo == c.followVideo
    ensures u.delayMs.None? ==> r.delayMs == c.delayMs
  {
    c.(level := Pick(u.level, c.level),
       isMuted := Pick(u.isMuted, c.isMuted),
       isLocked := Pick(u.isLocked, c.isLocked),
       followVideo := Pick(u.followVideo, c.followVideo),
       delayMs := Pick(u.delayMs, c.delayMs))
  }

  /** updateChannel: the patch is merged into every channel with that id;
      the others are kept as they are. */
  function UpdateChannel(channels: seq<AudioChannel>, id: string, u: ChannelPatch): (r: seq<AudioChannel>)
    ensures |r| == |channels|
    ensures forall i :: 0 <= i < |channels| ==> r[i] == (if channels[i].id == id then Merge(channels[i], u) else channels[i])
  {
    seq(|channels|, i requires 0 <= i < |channels| => if channels[i].id == id then Merge(channels[i], u) else channels[i])
  }

  predicate UniqueIds(channels: seq<AudioChannel>) {
    forall i, j :: 0 <= i < j < |channels| ==> channels[i].id != channels[j].id
  }

  /** With distinct ids, updating a listed channel's id changes that
      channel and no other. */
  lemma UpdateTouchesOne(channels: seq<AudioChannel>, i: nat, u: ChannelPatch)
    requires UniqueIds(channels) && i < |channels|
    ensures UpdateChannel(channels, channels[i].id, u) == channels[i := Merge(channels[i], u)]
  {
    var r := UpdateChannel(channels, channels[i].id, u);
    forall j | 0 <= j < |channels|
      ensures r[j] == channels[i := Merge(channels[i], u)][j]
    {
      if j < i {
        assert channels[j].id != channels[i].id;
      } else if j > i {
        assert channels[i].id != channels[j].id;
      }
    }
  }

  /** An update keeps every id, hence distinct ids stay distinct. */
  lemma UpdateKeepsIds(channels: seq<AudioChannel>, id: string, u: ChannelPatch)
    ensures forall i :: 0 <= i < |channels| ==> UpdateChannel(channels, id, u)[i].id == channels[i].id
    ensures UniqueIds(channels) ==> UniqueIds(UpdateChannel(channels, id, u))
  {
  }

  // ---------------------------------------------------------------------
  // The handlers' patches, computed from the channel as rendered

  function MutePatch(c: AudioChannel): ChannelPatch {
    NoChange.(isMuted := Some(!c.isMuted))
  }

  /** AFV: follow video flips, and the lock is released. */
  function AfvPatch(c: AudioChannel): ChannelPatch {
    NoChange.(followVideo := Some(!c.followVideo), isLocked := Some(false))
  }

  /** Lock: the lock flips, and follow video is released. */
  function LockPatch(c: AudioChannel): ChannelPatch {
    NoChange.(isLocked := Some(!c.isLocked), followVideo := Some(false))
  }

  function DelayDownPatch(c: AudioChannel): ChannelPatch {
    NoChange.(delayMs := Some(if c.delayMs - DelayStepMs > 0 then c.delayMs - DelayStepMs else 0))
  }

  function DelayUpPatch(c: AudioChannel): ChannelPatch {
    NoChange.(delayMs := Some(c.delayMs + DelayStepMs))
  }

  function LevelPatch(v: real): ChannelPatch {
    NoChange.(level := Some(v))
  }

  /** Mute flips only the mute flag, and a second press undoes the first. */
  lemma MuteFlips(c: AudioChannel)
    ensures Merge(c, MutePatch(c)) == c.(isMuted := !c.isMuted)
    ensures Merge(Merge(c, MutePatch(c)), MutePatch(Merge(c, MutePatch(c)))) == c
  {
  }

  /** After AFV or Lock the channel never both follows video and is locked;
      each button flips its own flag and clears the other. */
  lemma AfvLockExclusive(c: AudioChannel)
    ensures !(Merge(c, AfvPatch(c)).followVideo && Merge(c, AfvPatch(c)).isLocked)
    ensures !(Merge(c, LockPatch(c)).followVideo && Merge(c, LockPatch(c)).isLocked)
    ensures Merge(c, AfvPatch(c)).followVideo == !c.followVideo && !Merge(c, AfvPatch(c)).isLocked
    ensures Merge(c, LockPatch(c)).isLocked == !c.isLocked && !Merge(c, LockPatch(c)).followVideo
    ensures Merge(c, AfvPatch(c)).isMuted == c.isMuted && Merge(c, LockPatch(c)).delayMs == c.delayMs
  {
  }

  /** The delay is max(0, delay - 10) after `-` and delay + 10 after `+`,
      so it never goes negative; `-` undoes `+`, and `+` undoes `-` from
      10 ms on. */
  lemma DelayStepsInverse(c: AudioChannel)
    requires c.delayMs >= 0
    ensures Merge(c, DelayDownPatch(c)).delayMs >= 0
    ensures Merge(c, DelayDownPatch(c)).delayMs == (if c.delayMs >= DelayStepMs then c.delayMs - DelayStepMs else 0)
    ensures Merge(c, DelayUpPatch(c)).delayMs == c.delayMs + DelayStepMs
    ensures var up := Merge(c, DelayUpPatch(c)); Merge(up, DelayDownPatch(up)) == c
    ensures c.delayMs >= DelayStepMs ==> var down := Merge(c, DelayDownPatch(c)); Merge(down, DelayUpPatch(down)) == c
  {
  }

  // ---------------------------------------------------------------------
  // The meter

  /** One meter reading: a muted channel reads the floor; otherwise the
      peak moves by `noise`, never below the floor. */
  function MeterStep(c: AudioChannel, noise: real): (r: AudioChannel)
    ensures r.peakDb >= FloorDb
    ensures c.isMuted ==> r.peakDb == FloorDb
    ensures !c.isMuted && c.peakDb + noise >= FloorDb ==> r.peakDb == c.peakDb + noise
    ensures !c.isMuted && c.peakDb + noise < FloorDb ==> r.peakDb == FloorDb
    ensures r == c.(peakDb := r.peakDb)
  {
    c.(peakDb := if c.isMuted then FloorDb else if FloorDb > c.peakDb + noise then FloorDb else c.peakDb + noise)
  }

  /** `Math.random() * 4 - 2`. */
  predicate MeterNoise(noise: seq<real>) {
    forall i :: 0 <= i < |noise| ==> -2.0 <= noise[i] < 2.0
  }

  /** One firing of the meter interval, one noise draw per channel. */
  function MeterTick(channels: seq<AudioChannel>, noise: seq<real>): (r: seq<AudioChannel>)
    requires |noise| == |channels|
    ensures |r| == |channels|
    ensures forall i :: 0 <= i < |channels| ==> r[i] == MeterStep(channels[i], noise[i])
  {
    seq(|channels|, i requires 0 <= i < |channels| => MeterStep(channels[i], noise[i]))
  }

  /** An unmuted channel's peak moves by less than 2 dB a tick, except
      where the floor stops it. */
  lemma MeterMovesLittle(c: AudioChannel, noise: real)
    requires -2.0 <= noise < 2.0 && c.peakDb >= FloorDb && !c.isMuted
    ensures c.peakDb - 2.0 <= MeterStep(c, noise).peakDb < c.peakDb + 2.0
  {
  }

  /** The meter colour: red above -6 dB, yellow above -18 dB, else green. */
  datatype MeterColour = Green | Yellow | Red

  function Colour(peakDb: real): MeterColour {
    if peakDb > -6.0 then Red else if peakDb > -18.0 then Yellow else Green
  }

  /** Each colour band, both directions. */
  lemma ColourBands(peakDb: real)
    ensures Colour(peakDb) == Red <==> peakDb > -6.0
    ensures Colour(peakDb) == Yellow <==> -18.0 < peakDb <= -6.0
    ensures Colour(peakDb) == Green <==> peakDb <= -18.0
  {
  }

  // ---------------------------------------------------------------------
  // The component

  predicate ChannelOk(c: AudioChannel) {
    0.0 <= c.level <= 1.0 && c.delayMs >= 0 && c.peakDb >= FloorDb && !(c.followVideo && c.isLocked)
  }

  predicate ValidMixer(channels: seq<AudioChannel>) {
    |channels| == 6 && UniqueIds(channels) && forall i :: 0 <= i < |channels| ==> ChannelOk(channels[i])
  }

  lemma InitialMixerValid()
    ensures ValidMixer(InitialChannels)
  {
  }

  class AudioMixer {
    var channels: seq<AudioChannel>
    var isDucking: bool

    ghost predicate Valid()
      reads this
    {
      ValidMixer(channels)
    }

    constructor ()
      ensures Valid() && channels == InitialChannels && !isDucking
    {
      channels := InitialChannels;
      isDucking := false;
    }

    /** updateChannel(channels[i].id, u) for a patch that keeps channel `i`
        within its ranges. */
    method ApplyPatch(i: nat, u: ChannelPatch)
      requires Valid() && i < |channels| && ChannelOk(Merge(channels[i], u))
      modifies this
      ensures Valid()
      ensures channels == UpdateChannel(old(channels), old(channels)[i].id, u)
      ensures channels == old(channels)[i := Merge(old(channels)[i], u)]
      ensures isDucking == old(isDucking)
    {
      UpdateTouchesOne(channels, i, u);
      channels := UpdateChannel(channels, channels[i].id, u);
    }

    /** The fader of channel `i`, 0 to 1. */
    method SetLevel(i: nat, v: real)
      requires Valid() && i < |channels| && 0.0 <= v <= 1.0
      modifies this
      ensures Valid() && channels == old(channels)[i := old(channels)[i].(level := v)]
      ensures isDucking == old(isDucking)
    {
      ApplyPatch(i, LevelPatch(v));
    }

    method ToggleMute(i: nat)
      requires Valid() && i < |channels|
      modifies this
      ensures Valid() && channels == old(channels)[i := old(channels)[i].(isMuted := !old(channels)[i].isMuted)]
      ensures isDucking == old(isDucking)
    {
      MuteFlips(channels[i]);
      ApplyPatch(i, MutePatch(channels[i]));
    }

    method ToggleAfv(i: nat)
      requires Valid() && i < |channels|
      modifies this
      ensures Valid() && channels == old(channels)[i := Merge(old(channels)[i], AfvPatch(old(channels)[i]))]
      ensures isDucking == old(isDucking)
    {
      AfvLockExclusive(channels[i]);
      ApplyPatch(i, AfvPatch(channels[i]));
    }

    method ToggleLock(i: nat)
      requires Valid() && i < |channels|
      modifies this
      ensures Valid() && channels == old(channels)[i := Merge(old(channels)[i], LockPatch(old(channels)[i]))]
      ensures isDucking == old(isDucking)
    {
      AfvLockExclusive(channels[i]);
      ApplyPatch(i, LockPatch(channels[i]));
    }

    method DelayDown(i: nat)
      requires Valid() && i < |channels|
      modifies this
      ensures Valid() && channels == old(channels)[i := Merge(old(channels)[i], DelayDownPatch(old(channels)[i]))]
      ensures isDucking == old(isDucking)
    {
      DelayStepsInverse(channels[i]);
      ApplyPatch(i, DelayDownPatch(channels[i]));
    }

    method DelayUp(i: nat)
      requires Valid() && i < |channels|
      modifies this
      ensures Valid() && channels == old(channels)[i := Merge(old(channels)[i], DelayUpPatch(old(channels)[i]))]
      ensures isDucking == old(isDucking)
    {
      DelayStepsInverse(channels[i]);
      ApplyPatch(i, DelayUpPatch(channels[i]));
    }

    /** One firing of the meter interval. The ducking flag reads the
        commentary peak the interval's closure captured: the one before
        this tick. */
    method MeterIntervalFires(noise: seq<real>)
      requires Valid() && |noise| == |channels| && MeterNoise(noise)
      modifies this
      ensures Valid()
      ensures channels == MeterTick(old(channels), noise)
      ensures isDucking <==> old(channels)[0].peakDb > DuckingThresholdDb
    {
      var commentary := channels[0].peakDb;
      channels := MeterTick(channels, noise);
      isDucking := commentary > DuckingThresholdDb;
    }
  }
}
