/** The replay deck (components/ReplayEngine.tsx): a newest-first queue of
    marked events capped at six, the event loaded for playback, and the
    playback speed. The clock readings `Date.now()` and
    `toLocaleTimeString` are parameters. */
module Replay {
  import opened Types
  import Text
  import BoundedLog

  /** `[newEvent, ...prev].slice(0, 6)`. */
  const QueueCapacity: nat := 6
  /** Every marked event covers ten seconds of the buffer. */
  const ClipDurationMs: int := 10000
  /** The program source every event is attributed to. */
  const ProgramSource: string := "cam-1"
  const HalfSpeed: real := 0.5
  const NormalSpeed: real := 1.0

  // ---------------------------------------------------------------------
  // Event ids

  /** `s.slice(-5)`: the last five characters, or all of a shorter string. */
  function LastFive(s: string): (r: string)
    ensures |r| == if |s| < 5 then |s| else 5
    ensures r == s[|s| - |r|..]
  {
    if |s| < 5 then s else s[|s| - 5..]
  }

  /** `evt_${Date.now().toString().slice(-5)}` for the clock reading `now`. */
  function EventId(now: nat): (r: string)
    ensures 5 <= |r| <= 9 && r[..4] == "evt_"
    ensures Text.AllDigits(r[4..])
  {
    "evt_" + LastFive(Text.Decimal(now))
  }

  function Pow10(k: nat): (p: nat)
    ensures p >= 1
  {
    if k == 0 then 1 else 10 * Pow10(k - 1)
  }

  /** A digit string splits into its last `k` digits and the rest. */
  lemma {:induction false} SuffixValue(s: string, k: nat)
    requires Text.AllDigits(s) && k <= |s|
    ensures Text.DigitsValue(s) == Pow10(k) * Text.DigitsValue(s[..|s| - k]) + Text.DigitsValue(s[|s| - k..])
    ensures Text.DigitsValue(s[|s| - k..]) < Pow10(k)
    decreases k
  {
    if k == 0 {
      assert s[..|s|] == s;
      assert s[|s|..] == [];
    } else {
      var t := s[..|s| - 1];
      var d := Text.DigitValue(s[|s| - 1]);
      var pre, suf, tsuf := s[..|s| - k], s[|s| - k..], t[|t| - (k - 1)..];
      assert t[..|t| - (k - 1)] == pre;
      assert suf[..|suf| - 1] == tsuf;
      assert suf[|suf| - 1] == s[|s| - 1];
      SuffixValue(t, k - 1);
      assert Text.DigitsValue(s) == 10 * Text.DigitsValue(t) + d;
      assert Text.DigitsValue(suf) == 10 * Text.DigitsValue(tsuf) + d;
      ShiftDigit(Pow10(k - 1), Text.DigitsValue(pre), Text.DigitsValue(tsuf), d);
    }
  }

  lemma ShiftDigit(p: nat, q: nat, v: nat, d: nat)
    requires v < p && d < 10
    ensures 10 * (p * q + v) + d == (10 * p) * q + (10 * v + d)
    ensures 10 * v + d < 10 * p
  {
  }

  /** `n.toString()` has more than `k` digits exactly when n >= 10^k. */
  lemma {:induction false} DecimalWidth(n: nat, k: nat)
    requires k >= 1
    ensures |Text.Decimal(n)| > k <==> n >= Pow10(k)
    decreases k
  {
    if k > 1 {
      assert Pow10(k) == 10 * Pow10(k - 1);
      assert Pow10(k - 1) >= 10 by {
        PowMonotone(1, k - 1);
      }
      if n >= 10 {
        assert |Text.Decimal(n)| == |Text.Decimal(n / 10)| + 1;
        DecimalWidth(n / 10, k - 1);
      }
    }
  }

  lemma {:induction false} PowMonotone(j: nat, k: nat)
    requires j <= k
    ensures Pow10(j) <= Pow10(k)
    decreases k
  {
    if j < k {
      PowMonotone(j, k - 1);
    }
  }

  lemma LastFiveDigitsOf(n: nat, q: nat, v: nat)
    requires n == 100000 * q + v && v < 100000
    ensures n % 100000 == v
  {
  }

  /** From five digits of the clock on, the id carries exactly the last five
      digits, `now mod 100000`; an earlier reading is carried whole. */
  lemma EventIdDigits(now: nat)
    ensures |EventId(now)| == 9 <==> now >= 10000
    ensures Text.DigitsValue(EventId(now)[4..]) == now % 100000
  {
    var s := Text.Decimal(now);
    Text.DecimalRoundTrip(now);
    DecimalWidth(now, 4);
    assert Pow10(4) == 10000;
    assert EventId(now)[4..] == LastFive(s);
    if now >= 10000 {
      SuffixValue(s, 5);
      assert Pow10(5) == 100000;
      LastFiveDigitsOf(now, Text.DigitsValue(s[..|s| - 5]), Text.DigitsValue(s[|s| - 5..]));
    } else {
      LastFiveDigitsOf(now, 0, now);
    }
  }

  // ---------------------------------------------------------------------
  // Events and the queue

  /** The event `markEvent(type)` builds at clock reading `now`, stamped
      with the wall-clock text `timestamp`. */
  function NewEvent(t: ReplayType, now: nat, timestamp: string): (e: ReplayEvent)
    ensures e.eventType == t && e.sourceId == ProgramSource && e.durationMs == ClipDurationMs
    ensures e.timestamp == timestamp && e.id == EventId(now)
  {
    ReplayEvent(EventId(now), timestamp, t, ProgramSource, ClipDurationMs)
  }

  /** The queue after `markEvent`: the new event first, at most six kept,
      the others being the old queue's first entries in the same order. */
  function Marked(events: seq<ReplayEvent>, t: ReplayType, now: nat, timestamp: string): (r: seq<ReplayEvent>)
    ensures |r| == BoundedLog.Min(|events| + 1, QueueCapacity)
    ensures r[0] == NewEvent(t, now, timestamp)
    ensures r[1..] == events[..BoundedLog.Min(|events|, QueueCapacity - 1)]
  {
    BoundedLog.PushFrontKeepsPrefix(events, NewEvent(t, now, timestamp), QueueCapacity);
    BoundedLog.PushFront(events, NewEvent(t, now, timestamp), QueueCapacity)
  }

  /** Every event in a queue built by marking carries the fixed duration and
      program source. */
  predicate AllClips(events: seq<ReplayEvent>) {
    forall i :: 0 <= i < |events| ==> events[i].durationMs == ClipDurationMs && events[i].sourceId == ProgramSource
  }

  /** The speed buttons offer only these two values. */
  predicate IsPlaybackSpeed(speed: real) {
    speed == HalfSpeed || speed == NormalSpeed
  }

  /** Marking keeps the queue within capacity and made only of clips. */
  lemma MarkedPreservesQueue(events: seq<ReplayEvent>, t: ReplayType, now: nat, timestamp: string)
    requires |events| <= QueueCapacity && AllClips(events)
    ensures |Marked(events, t, now, timestamp)| <= QueueCapacity
    ensures AllClips(Marked(events, t, now, timestamp))
  {
    var r := Marked(events, t, now, timestamp);
    forall i | 0 <= i < |r|
      ensures r[i].durationMs == ClipDurationMs && r[i].sourceId == ProgramSource
    {
      if i > 0 {
        assert r[i] == r[1..][i - 1];
      }
    }
  }

  // ---------------------------------------------------------------------
  // The component

  class ReplayEngine {
    var events: seq<ReplayEvent>
    var activeEvent: Option<ReplayEvent>
    var playbackSpeed: real

    ghost predicate Valid()
      reads this
    {
      |events| <= QueueCapacity && AllClips(events) && IsPlaybackSpeed(playbackSpeed)
    }

    /** No events, nothing loaded, normal speed. */
    constructor ()
      ensures Valid()
      ensures events == [] && activeEvent == None && playbackSpeed == NormalSpeed
    {
      events := [];
      activeEvent := None;
      playbackSpeed := NormalSpeed;
    }

    /** markEvent(type) at clock reading `now`. */
    method MarkEvent(t: ReplayType, now: nat, timestamp: string)
      requires Valid()
      modifies this
      ensures Valid()
      ensures events == Marked(old(events), t, now, timestamp)
      ensures activeEvent == old(activeEvent) && playbackSpeed == old(playbackSpeed)
    {
      MarkedPreservesQueue(events, t, now, timestamp);
      events := Marked(events, t, now, timestamp);
    }

    /** The MARK EVENT button. */
    method MarkManual(now: nat, timestamp: string)
      requires Valid()
      modifies this
      ensures Valid()
      ensures events == Marked(old(events), Manual, now, timestamp)
      ensures events[0].eventType == Manual
      ensures activeEvent == old(activeEvent) && playbackSpeed == old(playbackSpeed)
    {
      MarkEvent(Manual, now, timestamp);
    }

    /** A click on the `i`-th listed event loads it. */
    method SelectEvent(i: nat)
      requires Valid() && i < |events|
      modifies this
      ensures Valid()
      ensures activeEvent == Some(old(events)[i])
      ensures events == old(events) && playbackSpeed == old(playbackSpeed)
    {
      activeEvent := Some(events[i]);
    }

    /** RETURN TO LIVE. */
    method ReturnToLive()
      requires Valid()
      modifies this
      ensures Valid()
      ensures activeEvent == None
      ensures events == old(events) && playbackSpeed == old(playbackSpeed)
    {
      activeEvent := None;
    }

    /** The 0.5x button. */
    method SetHalfSpeed()
      requires Valid()
      modifies this
      ensures Valid()
      ensures playbackSpeed == HalfSpeed
      ensures events == old(events) && activeEvent == old(activeEvent)
    {
      playbackSpeed := HalfSpeed;
    }

    /** The 1.0x button. */
    method SetNormalSpeed()
      requires Valid()
      modifies this
      ensures Valid()
      ensures playbackSpeed == NormalSpeed
      ensures events == old(events) && activeEvent == old(activeEvent)
    {
      playbackSpeed := NormalSpeed;
    }
  }
}
